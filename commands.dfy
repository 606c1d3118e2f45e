/** What each command writes to the device: the lifecycle writes, the feature gates on them, and
    the dispatcher of named commands with the vertex lists it builds. */
module Commands {
  import opened Wrappers
  import opened Datapoints
  import opened Geometry
  import opened Envelope
  import opened Settings

  /** The datapoint every structured command is written to. */
  const COMMAND_DP: DpId := 127
  const DEFAULT_ROOM := 4
  const DEFAULT_MAP_ID := 1695662532
  const DEFAULT_SPOT_SIZE := 300.0
  const DEFAULT_SPOT_CENTRE := 0.5

  /** What is written: a plain datapoint value, or an envelope (sent as base64 of its JSON text). */
  datatype Payload = Value(v: DpValue) | Encoded(envelope: Envelope)

  /** One `set_dp(value, dp)` call. */
  datatype Write = Write(payload: Payload, dp: DpId)

  /** The exceptions a command can raise before it writes anything. */
  datatype Failure =
    | KeyError(option: string)   // an option the command indexes is not in the configuration entry
    | ZeroDivision               // the position scale is 0

  /** The outcome of one command: no write, exactly one write, or an exception. */
  datatype Effect = NoWrite | Wrote(write: Write) | Raised(failure: Failure)

  /** The writes an effect adds to the device's log. */
  function Logged(e: Effect): (log: seq<Write>)
    ensures |log| <= 1
    ensures |log| == 1 <==> e.Wrote?
  {
    if e.Wrote? then [e.write] else []
  }

  // ---------------------------------------------------------------------------------------------
  // Lifecycle writes

  datatype Lifecycle = Start | Pause | Stop | ReturnToBase | Locate | SetFanSpeed(speed: DpValue)

  /** `async_start`, `async_pause`, `async_stop`, `async_return_to_base`, `async_locate` and
      `async_set_fan_speed`: each writes at most one datapoint. Start, pause and stop drive the
      start datapoint (stop pauses); return-to-base writes the return mode to the mode datapoint
      and only logs when no return mode is configured; locate writes "" only when a locate
      datapoint is configured; a fan speed goes to the fan speed datapoint. */
  function LifecycleEffect(c: Config, op: Lifecycle): (e: Effect)
    ensures op in {Lifecycle.Start, Lifecycle.Pause, Lifecycle.Stop} ==> e.Wrote? && e.write.dp == c.powerGoDp
    ensures e.Wrote? ==> e.write.payload.Value?
    ensures e.Raised? ==> e.failure.KeyError? && (op == ReturnToBase || op.SetFanSpeed?)
  {
    match op
    case Start => Wrote(Write(Value(DBool(true)), c.powerGoDp))
    case Pause => Wrote(Write(Value(DBool(false)), c.powerGoDp))
    case Stop => Wrote(Write(Value(DBool(false)), c.powerGoDp))
    case ReturnToBase =>
      if c.returnMode.None? then NoWrite
      else if c.modeDp.None? then Raised(KeyError("mode_dp"))
      else Wrote(Write(Value(DStr(c.returnMode.value)), c.modeDp.value))
    case Locate =>
      if c.locateDp.Some? then Wrote(Write(Value(DStr("")), c.locateDp.value)) else NoWrite
    case SetFanSpeed(speed) =>
      if c.fanSpeedDp.Some? then Wrote(Write(Value(speed), c.fanSpeedDp.value)) else Raised(KeyError("fan_speed_dp"))
  }

  /** Stop does what pause does. */
  lemma StopIsPause(c: Config)
    ensures LifecycleEffect(c, Lifecycle.Stop) == LifecycleEffect(c, Lifecycle.Pause)
    ensures LifecycleEffect(c, Lifecycle.Start).write.payload != LifecycleEffect(c, Lifecycle.Stop).write.payload
  {
  }

  /** The advertised features and the lifecycle writes agree: return-to-base does something exactly
      when it is advertised, locate writes exactly when it is advertised, and setting the fan speed
      writes (rather than raising KeyError) exactly when it is advertised. */
  lemma FeaturesGateWrites(c: Config, speed: DpValue)
    ensures Feature.ReturnHome in SupportedFeatures(c) <==> LifecycleEffect(c, ReturnToBase) != NoWrite
    ensures Feature.Locate in SupportedFeatures(c) <==> LifecycleEffect(c, Lifecycle.Locate).Wrote?
    ensures Feature.FanSpeed in SupportedFeatures(c) <==> LifecycleEffect(c, SetFanSpeed(speed)).Wrote?
    ensures Feature.Start in SupportedFeatures(c) && LifecycleEffect(c, Lifecycle.Start).Wrote?
  {
  }

  // ---------------------------------------------------------------------------------------------
  // Named commands

  /** The parameters of `async_send_command`; a parameter the caller did not give is None, and no
      parameters at all is `NO_PARAMS`. Vertices are coordinate pairs. */
  datatype Params = Params(
    mode: Option<DpValue>,
    room: Option<int>,
    mapId: Option<int>,
    x: Option<real>,
    y: Option<real>,
    size: Option<real>,
    vertices: Option<seq<Point>>,
    relativeVertices: Option<seq<Point>>)

  const NO_PARAMS := Params(None, None, None, None, None, None, None, None)

  /** The square of side `size` around `centre` that `clean_spot` sends, corners in the order
      (-,-), (-,+), (+,+), (+,-). */
  function SpotSquare(centre: Point, size: real): (r: seq<Point>)
    ensures |r| == 4
    ensures r[1].x == r[0].x && r[1].y - r[0].y == size
    ensures r[2].y == r[1].y && r[2].x - r[1].x == size
    ensures r[3].x == r[2].x && r[2].y - r[3].y == size
    ensures r[0].y == r[3].y && r[3].x - r[0].x == size
    ensures (r[0].x + r[2].x) / 2.0 == centre.x && (r[0].y + r[2].y) / 2.0 == centre.y
  {
    var h := size / 2.0;
    [Point(centre.x - h, centre.y - h), Point(centre.x - h, centre.y + h),
     Point(centre.x + h, centre.y + h), Point(centre.x + h, centre.y - h)]
  }

  /** The relative vertices of `clean_area`, each converted to absolute device units. */
  function AreaVertices(t: Transform, relative: seq<Point>): (r: seq<Point>)
    requires t.scale != 0.0 || relative == []
    ensures |r| == |relative|
  {
    if relative == [] then []
    else AreaVertices(t, relative[..|relative| - 1]) + [AbsolutePosition(t, relative[|relative| - 1])]
  }

  /** Conversion keeps the input order: the k-th vertex sent is the k-th relative vertex converted. */
  lemma {:induction false} AreaVerticesAt(t: Transform, relative: seq<Point>, k: nat)
    requires t.scale != 0.0 && k < |relative|
    ensures AreaVertices(t, relative)[k] == AbsolutePosition(t, relative[k])
    decreases |relative|
  {
    var n := |relative| - 1;
    if k < n {
      AreaVerticesAt(t, relative[..n], k);
      assert relative[..n][k] == relative[k];
    }
  }

  /** `async_send_command` as a function of its inputs: which datapoint it writes and what, or what
      it raises. `nowMs` is `int(time.time() * 1000)` at the time of the call. Commands other than
      the four below, and `set_mode` without a `mode`, do nothing. */
  function CommandEffect(c: Config, t: Transform, command: string, p: Params, nowMs: int): (e: Effect)
    ensures e != NoWrite ==> command in {"set_mode", "clean_room", "clean_spot", "clean_area"}
    ensures e.Raised? ==> command != "clean_room"
  {
    if command == "set_mode" && p.mode.Some? then
      if c.modeDp.Some? then Wrote(Write(Value(p.mode.value), c.modeDp.value)) else Raised(KeyError("mode_dp"))
    else if command == "clean_room" then
      var env := RoomEnvelope(p.room.GetOr(DEFAULT_ROOM), p.mapId.GetOr(DEFAULT_MAP_ID), nowMs);
      Wrote(Write(Encoded(env), COMMAND_DP))
    else if command == "clean_spot" then
      if t.scale == 0.0 then Raised(ZeroDivision)
      else
        var centre := AbsolutePosition(t, Point(p.x.GetOr(DEFAULT_SPOT_CENTRE), p.y.GetOr(DEFAULT_SPOT_CENTRE)));
        var env := AreaEnvelope(SpotSquare(centre, p.size.GetOr(DEFAULT_SPOT_SIZE)), p.mapId.GetOr(DEFAULT_MAP_ID), nowMs);
        Wrote(Write(Encoded(env), COMMAND_DP))
    else if command == "clean_area" then
      if p.vertices.Some? then
        Wrote(Write(Encoded(AreaEnvelope(p.vertices.value, p.mapId.GetOr(DEFAULT_MAP_ID), nowMs)), COMMAND_DP))
      else
        var relative := p.relativeVertices.GetOr([]);
        if t.scale == 0.0 && relative != [] then Raised(ZeroDivision)
        else Wrote(Write(Encoded(AreaEnvelope(AreaVertices(t, relative), p.mapId.GetOr(DEFAULT_MAP_ID), nowMs)), COMMAND_DP))
    else
      NoWrite
  }

  /** Every envelope goes to datapoint 127 and has the fixed shape; a plain value is written only by
      `set_mode`, to the mode datapoint. */
  lemma EnvelopesGoToCommandDp(c: Config, t: Transform, command: string, p: Params, nowMs: int)
    ensures var e := CommandEffect(c, t, command, p, nowMs);
            e.Wrote? && e.write.payload.Encoded? ==>
              e.write.dp == COMMAND_DP && WellShaped(e.write.payload.envelope) && e.write.payload.envelope.ts == nowMs
    ensures var e := CommandEffect(c, t, command, p, nowMs);
            e.Wrote? && e.write.payload.Value? ==>
              command == "set_mode" && c.modeDp == Some(e.write.dp) && p.mode == Some(e.write.payload.v)
  {
  }

  /** `set_mode` without a mode, and any name other than the four commands, write nothing. */
  lemma SilentNoOps(c: Config, t: Transform, command: string, p: Params, nowMs: int)
    requires (command == "set_mode" && p.mode.None?) ||
             command !in {"set_mode", "clean_room", "clean_spot", "clean_area"}
    ensures CommandEffect(c, t, command, p, nowMs) == NoWrite
  {
  }

  /** The three ways a command raises before writing: `clean_spot` on a zero scale, `clean_area`
      converting at least one relative vertex on a zero scale, and `set_mode` with a mode but no
      mode datapoint. `clean_room` never raises. */
  lemma CommandFailures(c: Config, t: Transform, p: Params, nowMs: int)
    ensures CommandEffect(c, t, "clean_spot", p, nowMs).Raised? <==> t.scale == 0.0
    ensures CommandEffect(c, t, "clean_spot", p, nowMs).Raised? ==>
              CommandEffect(c, t, "clean_spot", p, nowMs).failure == ZeroDivision
    ensures CommandEffect(c, t, "clean_area", p, nowMs).Raised? <==>
              p.vertices.None? && t.scale == 0.0 && p.relativeVertices.GetOr([]) != []
    ensures CommandEffect(c, t, "clean_area", p, nowMs).Raised? ==>
              CommandEffect(c, t, "clean_area", p, nowMs).failure == ZeroDivision
    ensures CommandEffect(c, t, "set_mode", p, nowMs).Raised? <==> p.mode.Some? && c.modeDp.None?
    ensures CommandEffect(c, t, "set_mode", p, nowMs).Raised? ==>
              CommandEffect(c, t, "set_mode", p, nowMs).failure == KeyError("mode_dp")
    ensures !CommandEffect(c, t, "clean_room", p, nowMs).Raised?
  {
  }

  /** A call without parameters (`params=None`, read as `{}`): `set_mode` does nothing, and
      `clean_room` cleans room 4 on map 1695662532. */
  lemma NoParamsDefaults(c: Config, t: Transform, nowMs: int)
    ensures CommandEffect(c, t, "set_mode", NO_PARAMS, nowMs) == NoWrite
    ensures var e := CommandEffect(c, t, "clean_room", NO_PARAMS, nowMs);
            && e.Wrote? && e.write.payload.Encoded?
            && Target(e.write.payload.envelope).segmentId == [4]
            && Target(e.write.payload.envelope).mapId == 1695662532
  {
  }

  /** `clean_room` cleans segment `[room]` with no polygon; room 4 on map 1695662532 by default. */
  lemma CleanRoomTarget(c: Config, t: Transform, p: Params, nowMs: int)
    ensures var e := CommandEffect(c, t, "clean_room", p, nowMs);
            && e.Wrote? && e.write.dp == COMMAND_DP && e.write.payload.Encoded?
            && var target := Target(e.write.payload.envelope);
               && target.segmentId == [p.room.GetOr(4)]
               && target.extraAreas == []
               && target.mapId == p.mapId.GetOr(1695662532)
  {
  }

  /** `clean_spot` sends one polygon: the four corners of the square of side `size` (300 by default)
      centred on the absolute position of (x, y) (each 0.5 by default). */
  lemma CleanSpotSquare(c: Config, t: Transform, p: Params, nowMs: int)
    requires t.scale != 0.0
    ensures var e := CommandEffect(c, t, "clean_spot", p, nowMs);
            && e.Wrote? && e.write.dp == COMMAND_DP && e.write.payload.Encoded?
            && var target := Target(e.write.payload.envelope);
               && target.segmentId == []
               && target.mapId == p.mapId.GetOr(DEFAULT_MAP_ID)
               && |target.extraAreas| == 1
               && var square := target.extraAreas[0].vertexs;
                  var centre := AbsolutePosition(t, Point(p.x.GetOr(0.5), p.y.GetOr(0.5)));
                  var size := p.size.GetOr(300.0);
                  && |square| == 4
                  && (square[0].x + square[2].x) / 2.0 == centre.x
                  && (square[0].y + square[2].y) / 2.0 == centre.y
                  && square[1].y - square[0].y == size && square[2].x - square[1].x == size
                  && square[1].x == square[0].x && square[2].y == square[1].y
                  && square[3].x == square[2].x && square[3].y == square[0].y
  {
  }

  /** `clean_area` with literal vertices sends them unchanged; with relative vertices it sends one
      absolute vertex per input, in input order. */
  lemma CleanAreaVertices(c: Config, t: Transform, p: Params, nowMs: int)
    requires p.vertices.Some? || t.scale != 0.0 || p.relativeVertices.GetOr([]) == []
    ensures var e := CommandEffect(c, t, "clean_area", p, nowMs);
            && e.Wrote? && e.write.dp == COMMAND_DP && e.write.payload.Encoded?
            && var target := Target(e.write.payload.envelope);
               && target.mapId == p.mapId.GetOr(DEFAULT_MAP_ID)
               && |target.extraAreas| == 1
               && var sent := target.extraAreas[0].vertexs;
                  && (p.vertices.Some? ==> sent == p.vertices.value)
                  && (p.vertices.None? ==>
                        var relative := p.relativeVertices.GetOr([]);
                        |sent| == |relative| &&
                        forall k :: 0 <= k < |relative| ==> sent[k] == AbsolutePosition(t, relative[k]))
  {
    if p.vertices.None? && t.scale != 0.0 {
      var relative := p.relativeVertices.GetOr([]);
      forall k | 0 <= k < |relative|
        ensures AreaVertices(t, relative)[k] == AbsolutePosition(t, relative[k])
      {
        AreaVerticesAt(t, relative, k);
      }
    }
  }

  /** The conversion loop of `clean_area`: the relative vertices converted one by one, appended in
      order. Python raises ZeroDivisionError on the first vertex when the scale is 0; an empty list
      never divides. */
  method AbsoluteVertices(t: Transform, relative: seq<Point>) returns (r: Result<seq<Point>, Failure>)
    ensures r.Err? <==> t.scale == 0.0 && relative != []
    ensures r.Err? ==> r.error == ZeroDivision
    ensures r.Ok? ==> r.value == AreaVertices(t, relative)
  {
    var vertices: seq<Point> := [];
    var i := 0;
    while i < |relative|
      invariant 0 <= i <= |relative|
      invariant i > 0 ==> t.scale != 0.0
      invariant (t.scale != 0.0 || i == 0) && vertices == AreaVertices(t, relative[..i])
    {
      if t.scale == 0.0 {
        return Err(ZeroDivision);
      }
      vertices := vertices + [AbsolutePosition(t, relative[i])];
      assert relative[..i + 1][..i] == relative[..i];
      i := i + 1;
    }
    assert relative[..i] == relative;
    return Ok(vertices);
  }
}
