/** The vacuum entity: configuration fixed at construction, the state, battery, mode, fan speed
    and attribute bag that each status update rewrites in place, and the commands that write to
    the device. */
module Vacuum {
  import opened Wrappers
  import opened Datapoints
  import opened Geometry
  import opened Settings
  import opened StatusDecoder
  import opened Commands

  /** The device as the entity sees it: every `set_dp` call is appended to a log. */
  class Device {
    var log: seq<Write>

    constructor ()
      ensures log == []
    {
      log := [];
    }

    method SetDp(payload: Payload, dp: DpId)
      modifies this
      ensures log == old(log) + [Write(payload, dp)]
    {
      log := log + [Write(payload, dp)];
    }
  }

  /** The optional attributes the entity exposes. `path` is always present. */
  datatype Attrs = Attrs(
    modesList: Option<seq<string>>,
    path: seq<Point>,
    mode: Option<DpValue>,
    cleanTime: Option<DpValue>,
    cleanArea: Option<DpValue>,
    cleanRecord: Option<DpValue>,
    fault: Option<DpValue>,
    position: Option<Point>,
    relativePosition: Option<Point>)

  class LocaltuyaVacuum {
    const config: Config
    const device: Device
    const idleStatusList: seq<string>
    const modesList: seq<string>
    const dockedStatusList: seq<string>
    const fanSpeedList: seq<string>
    const transform: Transform

    var state: Option<VacuumState>
    var batteryLevel: DpValue
    var cleaningMode: DpValue
    var fanSpeed: DpValue
    var attrs: Attrs

    /** The status strings in the order the decoder tries them. */
    function Table(): StatusTable {
      StatusTable(idleStatusList, dockedStatusList, config.returningStatus, config.pausedState)
    }

    /** The object invariant: the parsed settings come from the configuration; the path stays empty
        because nothing ever appends to it; the relative position is always the stored position in
        the user's frame; and without a fault datapoint the state is never Error. */
    ghost predicate Valid()
      reads this
    {
      && idleStatusList == ParseList(config.idleStatus)
      && modesList == ParseList(config.modes)
      && dockedStatusList == ParseList(config.dockedStatus)
      && fanSpeedList == ParseList(config.fanSpeeds)
      && transform == PositionTransform(config)
      && attrs.path == []
      && attrs.relativePosition == RelativePosition(transform, attrs.position)
      && (config.faultDp.None? ==> state != Some(Error))
    }

    /** `__init__`: parse the status, mode and fan speed lists and the position settings; no state
        yet, an empty path, and the mode list exposed when modes are configured. */
    constructor (config: Config, device: Device)
      ensures Valid()
      ensures this.config == config && this.device == device
      ensures state == None && batteryLevel == DNone
      ensures cleaningMode == DStr("") && fanSpeed == DStr("")
      ensures attrs == Attrs(if config.modes.Some? then Some(modesList) else None,
                             [], None, None, None, None, None, None, None)
    {
      this.config := config;
      this.device := device;
      state := None;
      batteryLevel := DNone;
      var bag := Attrs(None, [], None, None, None, None, None, None, None);
      idleStatusList := [];
      if config.idleStatus.Some? {
        idleStatusList := Split(config.idleStatus.value, ',');
      }
      var modes: seq<string> := [];
      if config.modes.Some? {
        modes := Split(config.modes.value, ',');
        bag := bag.(modesList := Some(modes));
      }
      modesList := modes;
      dockedStatusList := [];
      if config.dockedStatus.Some? {
        dockedStatusList := Split(config.dockedStatus.value, ',');
      }
      fanSpeedList := [];
      if config.fanSpeeds.Some? {
        fanSpeedList := Split(config.fanSpeeds.value, ',');
      }
      var scale := 1.0;
      if config.positionScale.Some? {
        scale := config.positionScale.value;
      }
      var origin := Point(0.0, 0.0);
      if config.positionOrigin.Some? {
        origin := config.positionOrigin.value;
      }
      var rotation := 0;
      if config.positionRotation.Some? {
        rotation := config.positionRotation.value;
      }
      transform := Transform(scale, origin, rotation);
      attrs := bag;
      fanSpeed := DStr("");
      cleaningMode := DStr("");
    }

    /** `status_updated`: decode the primary status, clear the path on leaving the dock, copy the
        configured datapoints, apply the fault override, and take a new position if one arrived.
        `snapshot` is the device's cached status, `status` the datapoints this update reports, and
        `decode` the base64 and JSON decoding of the position datapoint. */
    method StatusUpdated(snapshot: Snapshot, status: Snapshot, decode: DpValue -> Option<seq<Point>>)
      requires Valid()
      modifies this
      ensures Valid()
      ensures state == Some(FinalState(Table(), config.statusDp, config.faultDp, snapshot))
      ensures attrs.path == PathAfter(old(state), DecodeState(Table(), PyStr(Dps(snapshot, config.statusDp))), old(attrs.path))
      ensures batteryLevel == if config.batteryDp.Some? then DpsConf(snapshot, config.batteryDp) else old(batteryLevel)
      ensures cleaningMode == if config.modes.Some? then DpsConf(snapshot, config.modeDp) else DStr("")
      ensures fanSpeed == if config.fanSpeeds.Some? then DpsConf(snapshot, config.fanSpeedDp) else DStr("")
      ensures attrs.modesList == old(attrs.modesList)
      ensures attrs.mode == if config.modes.Some? then Some(cleaningMode) else old(attrs.mode)
      ensures attrs.cleanTime == CopyIfConfigured(config.cleanTimeDp, snapshot, old(attrs.cleanTime))
      ensures attrs.cleanArea == CopyIfConfigured(config.cleanAreaDp, snapshot, old(attrs.cleanArea))
      ensures attrs.cleanRecord == CopyIfConfigured(config.cleanRecordDp, snapshot, old(attrs.cleanRecord))
      ensures attrs.fault == CopyIfConfigured(config.faultDp, snapshot, old(attrs.fault))
      ensures attrs.position == PositionAfter(config.positionDp, snapshot, status, decode, old(attrs.position))
      ensures attrs.position == old(attrs.position) ==> attrs.relativePosition == old(attrs.relativePosition)
    {
      DecodeStatus(snapshot);
      CopyAttributes(snapshot);
      ApplyFault(snapshot);
      UpdatePosition(snapshot, status, decode);
    }

    /** The first part of `status_updated`: the state named by the primary status, and the path
        cleared on leaving the dock. */
    method DecodeStatus(snapshot: Snapshot)
      modifies this`state, this`attrs
      ensures state == Some(DecodeState(Table(), PyStr(Dps(snapshot, config.statusDp))))
      ensures attrs == old(attrs).(path := PathAfter(old(state), state.value, old(attrs.path)))
    {
      var stateValue := PyStr(Dps(snapshot, config.statusDp));
      var previousState := state;

      if stateValue in idleStatusList {
        state := Some(Idle);
      } else if stateValue in dockedStatusList {
        state := Some(Docked);
      } else if stateValue == config.returningStatus {
        state := Some(Returning);
      } else if stateValue == config.pausedState {
        state := Some(Paused);
      } else {
        state := Some(Cleaning);
      }

      if previousState == Some(Docked) && state != Some(Docked) {
        attrs := attrs.(path := []);
      }
    }

    /** The copies of `status_updated`: battery level, cleaning mode, fan speed, clean time, clean
        area and clean record, each from its datapoint when configured. */
    method CopyAttributes(snapshot: Snapshot)
      modifies this`batteryLevel, this`cleaningMode, this`fanSpeed, this`attrs
      ensures batteryLevel == if config.batteryDp.Some? then DpsConf(snapshot, config.batteryDp) else old(batteryLevel)
      ensures cleaningMode == if config.modes.Some? then DpsConf(snapshot, config.modeDp) else DStr("")
      ensures fanSpeed == if config.fanSpeeds.Some? then DpsConf(snapshot, config.fanSpeedDp) else DStr("")
      ensures attrs == old(attrs).(mode := if config.modes.Some? then Some(cleaningMode) else old(attrs.mode),
                                   cleanTime := CopyIfConfigured(config.cleanTimeDp, snapshot, old(attrs.cleanTime)),
                                   cleanArea := CopyIfConfigured(config.cleanAreaDp, snapshot, old(attrs.cleanArea)),
                                   cleanRecord := CopyIfConfigured(config.cleanRecordDp, snapshot, old(attrs.cleanRecord)))
    {
      if config.batteryDp.Some? {
        batteryLevel := DpsConf(snapshot, config.batteryDp);
      }

      cleaningMode := DStr("");
      if config.modes.Some? {
        cleaningMode := DpsConf(snapshot, config.modeDp);
        attrs := attrs.(mode := Some(cleaningMode));
      }

      fanSpeed := DStr("");
      if config.fanSpeeds.Some? {
        fanSpeed := DpsConf(snapshot, config.fanSpeedDp);
      }

      if config.cleanTimeDp.Some? {
        attrs := attrs.(cleanTime := Some(DpsConf(snapshot, config.cleanTimeDp)));
      }
      if config.cleanAreaDp.Some? {
        attrs := attrs.(cleanArea := Some(DpsConf(snapshot, config.cleanAreaDp)));
      }
      if config.cleanRecordDp.Some? {
        attrs := attrs.(cleanRecord := Some(DpsConf(snapshot, config.cleanRecordDp)));
      }
    }

    /** The fault step of `status_updated`: record the fault value and force Error when it is not 0. */
    method ApplyFault(snapshot: Snapshot)
      modifies this`state, this`attrs
      ensures attrs == old(attrs).(fault := CopyIfConfigured(config.faultDp, snapshot, old(attrs.fault)))
      ensures state == if config.faultDp.Some? && DiffersFromZero(DpsConf(snapshot, config.faultDp))
                       then Some(Error) else old(state)
    {
      if config.faultDp.Some? {
        var fault := DpsConf(snapshot, config.faultDp);
        attrs := attrs.(fault := Some(fault));
        if DiffersFromZero(fault) {
          state := Some(Error);
        }
      }
    }

    /** The position step of `status_updated`: take the single element of a freshly reported
        position array when it differs from the stored position, with its relative form. */
    method UpdatePosition(snapshot: Snapshot, status: Snapshot, decode: DpValue -> Option<seq<Point>>)
      requires attrs.relativePosition == RelativePosition(transform, attrs.position)
      modifies this`attrs
      ensures attrs.position == PositionAfter(config.positionDp, snapshot, status, decode, old(attrs.position))
      ensures attrs == old(attrs).(position := attrs.position,
                                   relativePosition := RelativePosition(transform, attrs.position))
    {
      if config.positionDp.Some? && config.positionDp.value in status {
        var position := DpsConf(snapshot, config.positionDp);
        var positionArray := decode(position);
        // None: the payload did not decode (the caught exceptions) or its array is null
        if positionArray.Some? && |positionArray.value| == 1 {
          var lastPosition := attrs.position;
          var newPosition := positionArray.value[0];
          if lastPosition != Some(newPosition) {
            attrs := attrs.(position := Some(newPosition));
            var relativePosition := RelativePosition(transform, attrs.position);
            if relativePosition.Some? {
              attrs := attrs.(relativePosition := relativePosition);
            }
          }
        }
      }
    }

    /** `async_start`: write True to the start datapoint. */
    method Start() returns (e: Effect)
      modifies device
      ensures e == LifecycleEffect(config, Lifecycle.Start)
      ensures device.log == old(device.log) + Logged(e)
    {
      device.SetDp(Value(DBool(true)), config.powerGoDp);
      e := Wrote(Write(Value(DBool(true)), config.powerGoDp));
    }

    /** `async_pause`: write False to the start datapoint. */
    method Pause() returns (e: Effect)
      modifies device
      ensures e == LifecycleEffect(config, Lifecycle.Pause)
      ensures device.log == old(device.log) + Logged(e)
    {
      device.SetDp(Value(DBool(false)), config.powerGoDp);
      e := Wrote(Write(Value(DBool(false)), config.powerGoDp));
    }

    /** `async_stop`: the same write as pause. */
    method Stop() returns (e: Effect)
      modifies device
      ensures e == LifecycleEffect(config, Lifecycle.Stop)
      ensures device.log == old(device.log) + Logged(e)
    {
      device.SetDp(Value(DBool(false)), config.powerGoDp);
      e := Wrote(Write(Value(DBool(false)), config.powerGoDp));
    }

    /** `async_return_to_base`: write the return mode to the mode datapoint; without a return mode
        only an error is logged. */
    method ReturnToBase() returns (e: Effect)
      modifies device
      ensures e == LifecycleEffect(config, Lifecycle.ReturnToBase)
      ensures device.log == old(device.log) + Logged(e)
    {
      if config.returnMode.Some? {
        if config.modeDp.None? {
          return Raised(KeyError("mode_dp"));
        }
        device.SetDp(Value(DStr(config.returnMode.value)), config.modeDp.value);
        e := Wrote(Write(Value(DStr(config.returnMode.value)), config.modeDp.value));
      } else {
        e := NoWrite;
      }
    }

    /** `async_locate`: write "" to the locate datapoint when there is one. */
    method Locate() returns (e: Effect)
      modifies device
      ensures e == LifecycleEffect(config, Lifecycle.Locate)
      ensures device.log == old(device.log) + Logged(e)
    {
      e := NoWrite;
      if config.locateDp.Some? {
        device.SetDp(Value(DStr("")), config.locateDp.value);
        e := Wrote(Write(Value(DStr("")), config.locateDp.value));
      }
    }

    /** `async_set_fan_speed`: write the speed to the fan speed datapoint. */
    method SetFanSpeed(speed: DpValue) returns (e: Effect)
      modifies device
      ensures e == LifecycleEffect(config, Lifecycle.SetFanSpeed(speed))
      ensures device.log == old(device.log) + Logged(e)
    {
      if config.fanSpeedDp.None? {
        return Raised(KeyError("fan_speed_dp"));
      }
      device.SetDp(Value(speed), config.fanSpeedDp.value);
      e := Wrote(Write(Value(speed), config.fanSpeedDp.value));
    }

    /** `async_send_command`: dispatch on the command name, build the envelope and write it to
        datapoint 127, or write a mode directly. `nowMs` is the wall clock in milliseconds. */
    method SendCommand(command: string, params: Params, nowMs: int) returns (e: Effect)
      requires Valid()
      modifies device
      ensures e == CommandEffect(config, transform, command, params, nowMs)
      ensures device.log == old(device.log) + Logged(e)
    {
      e := NoWrite;
      if command == "set_mode" && params.mode.Some? {
        if config.modeDp.None? {
          return Raised(KeyError("mode_dp"));
        }
        var mode := params.mode.value;
        device.SetDp(Value(mode), config.modeDp.value);
        e := Wrote(Write(Value(mode), config.modeDp.value));
      } else if command == "clean_room" {
        var roomId := params.room.GetOr(DEFAULT_ROOM);
        var mapId := params.mapId.GetOr(DEFAULT_MAP_ID);
        var commandParams := Envelope.RoomEnvelope(roomId, mapId, nowMs);
        device.SetDp(Encoded(commandParams), COMMAND_DP);
        e := Wrote(Write(Encoded(commandParams), COMMAND_DP));
      } else if command == "clean_spot" {
        var x := params.x.GetOr(DEFAULT_SPOT_CENTRE);
        var y := params.y.GetOr(DEFAULT_SPOT_CENTRE);
        var size := params.size.GetOr(DEFAULT_SPOT_SIZE);
        if transform.scale == 0.0 {
          return Raised(ZeroDivision);
        }
        var centre := AbsolutePosition(transform, Point(x, y));
        var mapId := params.mapId.GetOr(DEFAULT_MAP_ID);
        var commandParams := Envelope.AreaEnvelope(SpotSquare(centre, size), mapId, nowMs);
        device.SetDp(Encoded(commandParams), COMMAND_DP);
        e := Wrote(Write(Encoded(commandParams), COMMAND_DP));
      } else if command == "clean_area" {
        var vertices: seq<Point>;
        if params.vertices.Some? {
          vertices := params.vertices.value;
        } else {
          var converted := AbsoluteVertices(transform, params.relativeVertices.GetOr([]));
          if converted.Err? {
            return Raised(converted.error);
          }
          vertices := converted.value;
        }
        var mapId := params.mapId.GetOr(DEFAULT_MAP_ID);
        var commandParams := Envelope.AreaEnvelope(vertices, mapId, nowMs);
        device.SetDp(Encoded(commandParams), COMMAND_DP);
        e := Wrote(Write(Encoded(commandParams), COMMAND_DP));
      }
    }
  }
}
