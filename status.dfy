/** The status decoder as pure functions: from the primary status value and the configured
    status lists to one of the six vacuum states, the fault override, the path reset and the
    position update. The entity in module Vacuum applies them to its fields. */
module StatusDecoder {
  import opened Wrappers
  import opened Datapoints
  import opened Geometry

  datatype VacuumState = Idle | Docked | Returning | Paused | Cleaning | Error

  /** The status strings a configuration maps to states, in the order they are tried. */
  datatype StatusTable = StatusTable(idle: seq<string>, docked: seq<string>, returning: string, paused: string)

  /** The state the primary status value `value` (already in `str` form) names: the first of
      idle list, docked list, returning value, paused value that matches it, else Cleaning. */
  function DecodeState(table: StatusTable, value: string): (s: VacuumState)
    ensures s != Error
  {
    if value in table.idle then Idle
    else if value in table.docked then Docked
    else if value == table.returning then Returning
    else if value == table.paused then Paused
    else Cleaning
  }

  /** The decoding is a first-match priority: each state holds exactly when its own test matches
      and every earlier one fails. */
  lemma DecodePriority(table: StatusTable, value: string)
    ensures DecodeState(table, value) == Idle <==> value in table.idle
    ensures DecodeState(table, value) == Docked <==> value !in table.idle && value in table.docked
    ensures DecodeState(table, value) == Returning <==>
              value !in table.idle && value !in table.docked && value == table.returning
    ensures DecodeState(table, value) == Paused <==>
              value !in table.idle && value !in table.docked && value != table.returning && value == table.paused
    ensures DecodeState(table, value) == Cleaning <==>
              value !in table.idle && value !in table.docked && value != table.returning && value != table.paused
  {
  }

  /** Every configured idle string decodes to Idle, whatever else is configured. */
  lemma IdleStringsDecodeIdle(table: StatusTable, k: nat)
    requires k < |table.idle|
    ensures DecodeState(table, table.idle[k]) == Idle
  {
  }

  /** The state after the fault check: a configured fault datapoint whose value is not 0 (in
      Python's sense) forces Error; otherwise the decoded state stands. */
  function WithFault(decoded: VacuumState, fault: Option<DpValue>): (s: VacuumState)
    ensures s == Error <==> decoded == Error || (fault.Some? && DiffersFromZero(fault.value))
    ensures s != Error ==> s == decoded
  {
    if fault.Some? && DiffersFromZero(fault.value) then Error else decoded
  }

  /** Copy of a configured datapoint into an attribute; an unconfigured one leaves it alone. This is
      also how the fault attribute is recorded, which the fault check then reads. */
  function CopyIfConfigured(dp: Option<DpId>, snapshot: Snapshot, current: Option<DpValue>): (r: Option<DpValue>)
    ensures dp.Some? ==> r == Some(Dps(snapshot, dp.value))
    ensures dp.None? ==> r == current
  {
    if dp.Some? then Some(DpsConf(snapshot, dp)) else current
  }

  /** The state a status update ends in. */
  function FinalState(table: StatusTable, statusDp: DpId, faultDp: Option<DpId>, snapshot: Snapshot): (s: VacuumState)
    ensures s != Error ==> s == DecodeState(table, PyStr(Dps(snapshot, statusDp)))
  {
    WithFault(DecodeState(table, PyStr(Dps(snapshot, statusDp))), CopyIfConfigured(faultDp, snapshot, None))
  }

  /** With a fault datapoint configured and reading anything but 0, the update ends in Error. */
  lemma FaultOverride(table: StatusTable, statusDp: DpId, faultDp: Option<DpId>, snapshot: Snapshot)
    requires faultDp.Some? && DiffersFromZero(Dps(snapshot, faultDp.value))
    ensures FinalState(table, statusDp, faultDp, snapshot) == Error
  {
  }

  /** Without a fault datapoint no update ends in Error; with one, Error means the fault fired. */
  lemma ErrorOnlyFromFault(table: StatusTable, statusDp: DpId, faultDp: Option<DpId>, snapshot: Snapshot)
    ensures FinalState(table, statusDp, faultDp, snapshot) == Error <==>
              faultDp.Some? && DiffersFromZero(Dps(snapshot, faultDp.value))
  {
  }

  /** A fault datapoint that is configured but missing from the device status reads as None, which
      differs from 0: the update ends in Error. */
  lemma MissingFaultValueIsError(table: StatusTable, statusDp: DpId, faultDp: DpId, snapshot: Snapshot)
    requires faultDp !in snapshot
    ensures FinalState(table, statusDp, Some(faultDp), snapshot) == Error
  {
  }

  /** The path after an update: cleared exactly when the previous state was Docked and the decoded
      state, before the fault check, is not. */
  function PathAfter(previous: Option<VacuumState>, decoded: VacuumState, path: seq<Point>): (r: seq<Point>)
    ensures r == [] || r == path
  {
    if previous == Some(Docked) && decoded != Docked then [] else path
  }

  /** A non-empty path is cleared exactly on leaving the dock, and is otherwise kept as it was;
      an empty path stays empty whatever happens. */
  lemma PathResetOnLeavingDock(previous: Option<VacuumState>, decoded: VacuumState, path: seq<Point>)
    ensures path != [] ==> (PathAfter(previous, decoded, path) == [] <==> previous == Some(Docked) && decoded != Docked)
    ensures PathAfter(previous, decoded, path) != [] ==> PathAfter(previous, decoded, path) == path
    ensures path == [] ==> PathAfter(previous, decoded, path) == []
  {
  }

  /** The path test comes before the fault override: a docked robot that reports a fault ends in
      Error yet keeps its path. */
  lemma DockedFaultKeepsPath(table: StatusTable, statusDp: DpId, faultDp: DpId, snapshot: Snapshot, path: seq<Point>)
    requires var v := PyStr(Dps(snapshot, statusDp)); v !in table.idle && v in table.docked
    requires DiffersFromZero(Dps(snapshot, faultDp))
    ensures FinalState(table, statusDp, Some(faultDp), snapshot) == Error
    ensures PathAfter(Some(Docked), DecodeState(table, PyStr(Dps(snapshot, statusDp))), path) == path
  {
  }

  /** The stored position after an update. It changes only when the position datapoint is
      configured, is among the datapoints this update reports, decodes to a position array of
      exactly one element, and that element differs from the stored position; it then becomes
      that element. `decode` stands for the base64 and JSON decoding of the datapoint and yields
      None when decoding fails or the array is null. */
  function PositionAfter(positionDp: Option<DpId>, snapshot: Snapshot, status: Snapshot,
                         decode: DpValue -> Option<seq<Point>>, last: Option<Point>): (p: Option<Point>)
    ensures p != last <==>
              && positionDp.Some? && positionDp.value in status
              && var arr := decode(Dps(snapshot, positionDp.value));
                 arr.Some? && |arr.value| == 1 && last != Some(arr.value[0])
    ensures p != last ==> p == Some(decode(Dps(snapshot, positionDp.value)).value[0])
  {
    if positionDp.None? || positionDp.value !in status then last
    else
      match decode(Dps(snapshot, positionDp.value))
      case None => last
      case Some(arr) => if |arr| == 1 && last != Some(arr[0]) then Some(arr[0]) else last
  }

  /** A position that fails to decode leaves the stored one as it was. */
  lemma UndecodablePositionKept(positionDp: DpId, snapshot: Snapshot, status: Snapshot,
                                decode: DpValue -> Option<seq<Point>>, last: Option<Point>)
    requires decode(Dps(snapshot, positionDp)).None?
    ensures PositionAfter(Some(positionDp), snapshot, status, decode, last) == last
  {
  }

  /** `get_relative_position`: the stored position in the user's frame, None while there is none. */
  function RelativePosition(t: Transform, position: Option<Point>): (r: Option<Point>)
    ensures r.Some? <==> position.Some?
    ensures r.Some? && t.scale != 0.0 ==> Unrounded(t, r.value) == position.value
  {
    match position
    case Some(p) =>
      assert t.scale != 0.0 ==> Unrounded(t, ToRelative(t, p)) == p by {
        if t.scale != 0.0 {
          RelativeThenAbsolute(t, p);
        }
      }
      Some(ToRelative(t, p))
    case None => None
  }
}
