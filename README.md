# LocalTuya vacuum entity, modelled in Dafny

This project models the logic of the `LocaltuyaVacuum` entity of LocalTuya, the Home Assistant
integration that drives Tuya robot vacuums over their local datapoint protocol. The model covers
four parts.

- **Status decoder.** The primary status datapoint is mapped to Idle, Docked, Returning, Paused
  or Cleaning. The first match wins, in that order. A configured fault datapoint that reads
  anything but 0 forces Error. The path is cleared when the robot leaves the dock. The configured
  datapoints are copied into the attribute bag. A freshly reported position replaces the stored
  one only when its array has exactly one new element.
- **Geometry transform.** Points move between the user's relative frame and the robot's absolute
  frame. The transform has a scale, an origin and one of four axis rotations.
- **Command dispatcher.** It handles `set_mode`, `clean_room`, `clean_spot` and `clean_area`,
  with their defaults. Each structured command becomes a fixed-shape envelope written to
  datapoint 127.
- **Lifecycle writes and the feature set.** Start, pause, stop, return-to-base, locate and
  set-fan-speed each write at most one datapoint. The advertised features follow the
  configuration.

Modules, one file each:

- `Wrappers`: Option and Result.
- `Datapoints`: raw values, the lookups `dps`/`dps_conf`, Python's `str` and `v != 0`, and
  `str.split(",")`.
- `Geometry`: the transform.
- `Envelope`: the command envelope.
- `Settings`: the configuration entry and `supported_features`.
- `StatusDecoder`: the decoder as pure functions.
- `Commands`: the lifecycle writes and the dispatcher as functions of their inputs.
- `Vacuum`: the `Device` write log and the `LocaltuyaVacuum` class.

The class keeps the source's form. Its configuration is `const` fields set by the constructor.
`state`, `batteryLevel`, `cleaningMode`, `fanSpeed` and `attrs` are the fields
`status_updated` rewrites in place. The entity's object invariant `Valid()` holds after
construction and after every update. It states four things:

- the path is always empty, because the append at vacuum.py:371 is commented out;
- the relative position is always the stored position in the user's frame. This rests on the
  assumption that every decoded position element is a numeric pair (see `UpdatePosition` under
  "## Left out");
- without a fault datapoint the state is never Error;
- the parsed lists and the transform come from the configuration.

Device writes are appended to `Device.log`. Each command method states the log it leaves, as
the old log plus what the matching specification function (`LifecycleEffect`, `CommandEffect`)
says it writes.

Behaviours of the code that the model keeps as written:

- A zero position scale is accepted at construction. Python then raises ZeroDivisionError only
  when a point is converted to absolute units: in `clean_spot`, and in `clean_area` with a
  non-empty relative list. The model returns `Raised(ZeroDivision)` there, with no write.
- The fault test is Python's `value != 0`. `False` counts as 0, but None and every string differ
  from 0. So a fault datapoint that is configured but absent from the device status gives Error
  (`StatusDecoder.MissingFaultValueIsError`).
- Return-to-base writes the return mode to the *mode* datapoint. When no mode datapoint is
  configured, the `self._config[...]` lookup raises KeyError, even though RETURN_HOME is
  advertised. Setting the fan speed without a fan speed datapoint, and `set_mode` with a mode
  but no mode datapoint, raise the same way. The model returns `Raised(KeyError(..))` for all
  three.
- The position is re-decoded when its datapoint is among the keys of this update's `status`,
  whatever its value.

## Model

| member | source | states |
|---|---|---|
| `Datapoints.Dps` | custom_components/localtuya/vacuum.py:312 | a datapoint the device reported reads as its cached value; one it never reported reads as None |
| `Datapoints.DpsConf` | custom_components/localtuya/vacuum.py:331-349 | an option bound to a datapoint reads as that datapoint's value; an unbound option reads as None |
| `Datapoints.DiffersFromZero` | custom_components/localtuya/vacuum.py:353 | Python's `value != 0` holds of every value except the integer 0 and False (None and every string differ from 0) |
| `Datapoints.PyStr` | custom_components/localtuya/vacuum.py:312 | `str` gives "None" for None, "True"/"False" for a bool and a string unchanged; for an integer it gives '-' exactly when the integer is negative, followed by the decimal digits of its magnitude with no leading zero |
| `Datapoints.Split` | custom_components/localtuya/vacuum.py:108-123 | the pieces of a comma-separated option contain no comma and, joined with commas, give the option back; there is at least one piece |
| `Datapoints.ParseList` | custom_components/localtuya/vacuum.py:108-123 | a configured list option parses to one or more comma-free pieces that join back to it with commas; an unconfigured one gives the empty list |
| `Datapoints.NatToString` | custom_components/localtuya/vacuum.py:312 | `str` of a natural number is a non-empty run of digits, without a leading zero, whose decimal value is the number |
| `Geometry.Rotate` | custom_components/localtuya/vacuum.py:279-288 | rotation 1 swaps the magnitudes of the two coordinates; every other rotation value keeps each coordinate's magnitude (only signs change); which axis each of rotations 0, 2 and 3 mirrors is given by the definition alone, and the lemmas `RotateInvolution` and `RotateOutsideRange` state the involution and the identity outside 0..3 |
| `Geometry.ToRelative` | custom_components/localtuya/vacuum.py:290-300 | rotate, scale and shift to the user's frame; `RelativeThenAbsolute`, `AbsoluteThenRelative` and `NearbyImages` state that it is the inverse of `Unrounded` and how it spreads nearby points (no contract of its own) |
| `Geometry.Unrounded` | custom_components/localtuya/vacuum.py:302-306 | the exact inverse transform, defined only on a non-zero scale (Python divides by the scale); `AbsoluteThenRelative` and `RelativeThenAbsolute` state that it inverts `ToRelative` (no contract of its own beyond the non-zero scale it requires) |
| `Geometry.RotateInvolution` | custom_components/localtuya/vacuum.py:279-288 | applying a rotation twice gives back the point, for every rotation value |
| `Geometry.RotateOutsideRange` | custom_components/localtuya/vacuum.py:279-288 | a rotation value outside 0..3 leaves the point unchanged |
| `Geometry.Round` | custom_components/localtuya/vacuum.py:308 | `round` gives an integer within 1/2 of its argument, and the even one on a tie |
| `Geometry.RoundHalves` | custom_components/localtuya/vacuum.py:308 | halves round to the even neighbour: 0.5 to 0, 1.5 and 2.5 to 2, -0.5 to 0, -1.5 to -2 |
| `Geometry.AbsolutePositionExamples` | custom_components/localtuya/vacuum.py:302-308 | with scale 2, origin (10, 20) and rotation 0, relative (0.5, 0.25) becomes (-5, 10); with scale 1, origin (0, 0) and rotation 0, (0.5, 0.5) becomes (0, 0) |
| `Geometry.AbsolutePosition` | custom_components/localtuya/vacuum.py:302-308 | the absolute position has integer coordinates, each within 1/2 of the exact inverse transform and even when exactly 1/2 away (Python's ties-to-even `round`) |
| `Geometry.AbsoluteThenRelative` | custom_components/localtuya/vacuum.py:290-308 | on a non-zero scale, the unrounded absolute position of a point, taken back to relative, is that point |
| `Geometry.RelativeThenAbsolute` | custom_components/localtuya/vacuum.py:290-308 | on a non-zero scale, a device point taken to relative and back (before rounding) is that point; the transform is a bijection |
| `Geometry.NearbyImages` | custom_components/localtuya/vacuum.py:294-300 | device points at most 1/2 apart per axis have relative images at most 1/2 times the scale apart per axis |
| `Geometry.RoundTripTolerance` | custom_components/localtuya/vacuum.py:290-308 | relative to absolute (rounded) and back lands within 1/2 times the scale of the start on each axis |
| `Envelope.AreaEnvelope` | custom_components/localtuya/vacuum.py:226-232 | the envelope is well-shaped, carries the given timestamp and map id, has no segment, and holds exactly one area whose vertices are the given ones unchanged |
| `Envelope.RoomEnvelope` | custom_components/localtuya/vacuum.py:245-248 | the room envelope has the fixed shape, the given timestamp and map, segment list `[room]` and no area |
| `Settings.PositionTransform` | custom_components/localtuya/vacuum.py:127-137 | the transform takes the configured scale, origin and rotation, defaulting to 1, (0, 0) and 0 |
| `Settings.SupportedFeatures` | custom_components/localtuya/vacuum.py:143-164 | start, pause, stop, status, state and send-command are always advertised; return-home, fan speed, battery and locate exactly when their option is configured; nothing else |
| `StatusDecoder.DecodeState` | custom_components/localtuya/vacuum.py:312-324 | decoding the primary status never yields Error |
| `StatusDecoder.DecodePriority` | custom_components/localtuya/vacuum.py:315-324 | each decoded state holds exactly when its test matches and every earlier test fails (idle, docked, returning, paused, else cleaning) |
| `StatusDecoder.IdleStringsDecodeIdle` | custom_components/localtuya/vacuum.py:315-316 | every configured idle string decodes to Idle |
| `StatusDecoder.WithFault` | custom_components/localtuya/vacuum.py:351-354 | the state after the fault check is Error exactly when the decoded state was Error or a recorded fault differs from 0; otherwise it is the decoded state |
| `StatusDecoder.FinalState` | custom_components/localtuya/vacuum.py:312-354 | a status update that does not end in Error ends in the decoded primary state; `ErrorOnlyFromFault` says when it ends in Error |
| `StatusDecoder.FaultOverride` | custom_components/localtuya/vacuum.py:351-354 | a configured fault datapoint that reads other than 0 makes the update end in Error |
| `StatusDecoder.ErrorOnlyFromFault` | custom_components/localtuya/vacuum.py:312-354 | an update ends in Error exactly when a fault datapoint is configured and reads other than 0 |
| `StatusDecoder.MissingFaultValueIsError` | custom_components/localtuya/vacuum.py:351-354 | a configured fault datapoint missing from the status reads None, which differs from 0, so the state is Error |
| `StatusDecoder.PathAfter` | custom_components/localtuya/vacuum.py:326-328 | the path after an update is either cleared or left as it was; `PathResetOnLeavingDock` says which |
| `StatusDecoder.PathResetOnLeavingDock` | custom_components/localtuya/vacuum.py:326-328 | a non-empty path is cleared exactly when the previous state was Docked and the decoded state is not; otherwise it is kept |
| `StatusDecoder.DockedFaultKeepsPath` | custom_components/localtuya/vacuum.py:326-354 | a docked robot reporting a fault ends in Error but keeps its path, because the path test precedes the fault override |
| `StatusDecoder.PositionAfter` | custom_components/localtuya/vacuum.py:356-367 | the position changes exactly when its datapoint is configured, is in this update, decodes to a one-element array, and that element differs from the stored one; it then becomes that element |
| `StatusDecoder.UndecodablePositionKept` | custom_components/localtuya/vacuum.py:359-374 | a payload whose decoding fails with one of the errors caught at vacuum.py:372 leaves the stored position unchanged |
| `StatusDecoder.RelativePosition` | custom_components/localtuya/vacuum.py:290-300 | there is a relative position exactly when there is a stored position, and on a non-zero scale it maps back to that position |
| `Commands.LifecycleEffect` | custom_components/localtuya/vacuum.py:191-224 | start, pause and stop always write to the start datapoint; every lifecycle write is a plain value; only return-to-base and set-fan-speed can raise, and only KeyError |
| `Commands.StopIsPause` | custom_components/localtuya/vacuum.py:195-211 | stop writes exactly what pause writes, and that differs from what start writes |
| `Commands.FeaturesGateWrites` | custom_components/localtuya/vacuum.py:143-224 | return-to-base does something exactly when return-home is advertised; locate writes exactly when locate is advertised; fan speed writes exactly when fan speed is advertised; start always writes |
| `Commands.SpotSquare` | custom_components/localtuya/vacuum.py:259-261 | four corners (-,-), (-,+), (+,+), (+,-) of an axis-aligned square of side `size` whose diagonal's midpoint is the centre |
| `Commands.AreaVertices` | custom_components/localtuya/vacuum.py:268-272 | one converted vertex per relative vertex |
| `Commands.AreaVerticesAt` | custom_components/localtuya/vacuum.py:268-272 | the k-th converted vertex is the absolute position of the k-th relative vertex: input order is kept |
| `Commands.CommandEffect` | custom_components/localtuya/vacuum.py:234-277 | only the four command names can have an effect, and `clean_room` never raises; `CommandFailures`, `EnvelopesGoToCommandDp`, `SilentNoOps` and the `Clean*` lemmas state the rest |
| `Commands.CommandFailures` | custom_components/localtuya/vacuum.py:239-277 | `clean_spot` raises exactly on a zero scale; `clean_area` raises exactly when it must convert at least one relative vertex on a zero scale; `set_mode` raises KeyError exactly when a mode is given and no mode datapoint is configured; `clean_room` never raises |
| `Commands.NoParamsDefaults` | custom_components/localtuya/vacuum.py:236-246 | a call without parameters is a call with `{}`: `set_mode` writes nothing, `clean_room` cleans room 4 on map 1695662532 |
| `Commands.EnvelopesGoToCommandDp` | custom_components/localtuya/vacuum.py:234-277 | every envelope written goes to datapoint 127, is well-shaped and carries the call's timestamp; a plain value is written only by `set_mode`, to the mode datapoint |
| `Commands.SilentNoOps` | custom_components/localtuya/vacuum.py:239-277 | `set_mode` without a mode, and any other command name, write nothing |
| `Commands.CleanRoomTarget` | custom_components/localtuya/vacuum.py:242-250 | `clean_room` writes to datapoint 127 segment `[room]` with no area, room 4 and map 1695662532 by default |
| `Commands.CleanSpotSquare` | custom_components/localtuya/vacuum.py:251-263 | `clean_spot` writes to datapoint 127 one area: a square of side `size` (default 300) centred on the absolute position of (x, y) (default 0.5 each), on the given map (default 1695662532) |
| `Commands.CleanAreaVertices` | custom_components/localtuya/vacuum.py:264-277 | `clean_area` writes to datapoint 127 literal vertices unchanged, or one absolute vertex per relative vertex in input order, with the given or default map; this includes a zero scale with no relative vertices, which writes an empty polygon |
| `Commands.AbsoluteVertices` | custom_components/localtuya/vacuum.py:268-272 | the conversion loop returns the converted vertices in order, and raises ZeroDivision exactly when the scale is 0 and the list is non-empty |
| `Vacuum.Device.SetDp` | custom_components/localtuya/vacuum.py:191-277 | every `set_dp` call the entity makes appends exactly one (value, datapoint) write to the device's log |
| `StatusDecoder.CopyIfConfigured` | custom_components/localtuya/vacuum.py:340-352 | an attribute whose datapoint is configured takes that datapoint's value; otherwise it keeps its previous value (the fault attribute, read by the fault check, is recorded this way) |
| `Vacuum.LocaltuyaVacuum.constructor` | custom_components/localtuya/vacuum.py:101-141 | the parsed lists and transform come from the configuration; no state yet, battery None, empty mode and fan speed, an empty path, the mode list exposed when modes are configured |
| `Vacuum.LocaltuyaVacuum.StatusUpdated` | custom_components/localtuya/vacuum.py:310-374 | keeps the invariant (empty path, relative position tied to position, no Error without a fault datapoint); the state is the fault-overridden decoded state; every attribute is its datapoint's value when configured, else as before; the position follows `PositionAfter` |
| `Vacuum.LocaltuyaVacuum.DecodeStatus` | custom_components/localtuya/vacuum.py:312-328 | the state is the decoded state and the path is reset as `PathAfter` says; the other attributes are untouched |
| `Vacuum.LocaltuyaVacuum.CopyAttributes` | custom_components/localtuya/vacuum.py:330-349 | battery, clean time, clean area and clean record take their datapoint's value when that datapoint is configured; mode and fan speed take their datapoint's value when the `modes` and `fan_speeds` lists are configured, and become "" otherwise; the mode attribute follows the mode when `modes` is configured |
| `Vacuum.LocaltuyaVacuum.ApplyFault` | custom_components/localtuya/vacuum.py:351-354 | records the fault value and forces Error when it is not 0; nothing else changes |
| `Vacuum.LocaltuyaVacuum.UpdatePosition` | custom_components/localtuya/vacuum.py:356-374 | the position follows `PositionAfter` and the relative position is its transform; nothing else changes |
| `Vacuum.LocaltuyaVacuum.Start` | custom_components/localtuya/vacuum.py:191-193 | appends the write of True to the start datapoint |
| `Vacuum.LocaltuyaVacuum.Pause` | custom_components/localtuya/vacuum.py:195-197 | appends the write of False to the start datapoint |
| `Vacuum.LocaltuyaVacuum.Stop` | custom_components/localtuya/vacuum.py:208-211 | appends the write of False to the start datapoint |
| `Vacuum.LocaltuyaVacuum.ReturnToBase` | custom_components/localtuya/vacuum.py:199-206 | with a return mode configured, appends it written to the mode datapoint, or raises KeyError when no mode datapoint is configured; without a return mode, writes nothing whether or not a mode datapoint exists |
| `Vacuum.LocaltuyaVacuum.Locate` | custom_components/localtuya/vacuum.py:217-220 | appends "" written to the locate datapoint when one is configured, else nothing |
| `Vacuum.LocaltuyaVacuum.SetFanSpeed` | custom_components/localtuya/vacuum.py:222-224 | appends the speed written to the fan speed datapoint; raises KeyError without one |
| `Vacuum.LocaltuyaVacuum.SendCommand` | custom_components/localtuya/vacuum.py:234-277 | returns exactly the effect `CommandEffect` gives, and the device log grows by exactly that write, if any |

## Left out

- Home Assistant framework: the entity base classes, `async_setup_entry` and the configuration
  schema `flow_schema` (vacuum.py:69-95, 377). The schema defaults matter only in one way: the
  returning and paused status values are always present in the entry.
- `has_config`, `dps` and `dps_conf` belong to `common.py`, which is not part of this model.
  They are modelled as follows: an option is present or absent; a datapoint missing from the
  status reads as None; an unbound option's datapoint reads as None.
- The transport: `set_dp` is an append to `Device.log`. A failing write and its propagation to
  the caller are not modelled.
- JSON and base64: the envelope is kept as a datatype, not as its encoded text. The origin
  option is taken already parsed from its JSON text. Position decoding is the function
  parameter `decode`, where None stands for a caught decoding error or a null array.
- A decoded position payload that is not a JSON object, or whose `data` key holds null or
  anything but an object, raises AttributeError at vacuum.py:361. vacuum.py:372 does not catch
  it. The model assumes the payload and its `data` are objects.
- UndecodablePositionKept: `decode` returning None stands only for the errors caught at
  vacuum.py:372. Three decoding failures are not caught there, and `status_updated` raises them
  to its caller. The model does not represent them:
  - a payload string with a non-ASCII character makes `base64.b64decode` raise a plain
    ValueError at vacuum.py:360;
  - base64 that decodes to bytes that are not UTF-8 (such as "gA==", giving the byte 0x80) makes
    `json.loads` raise UnicodeDecodeError at vacuum.py:360;
  - a `posArray` that is a one-key object passes the length test at vacuum.py:363, and then
    `position_array[0]` raises KeyError at vacuum.py:365.
- UpdatePosition, PositionAfter: the decoded `posArray` elements are assumed to be numeric pairs,
  because `decode` yields points. Python stores a new position (vacuum.py:367) before
  `get_relative_position` runs. Three cases follow that the model does not capture:
  - An element such as `["a", 1]`, `[null, 2]` or a two-key object makes the arithmetic raise
    TypeError. vacuum.py:372 catches it. The position has then changed but the relative
    position keeps its old value.
  - A `null` element stores None as the position and skips the relative-position update.
  - A non-pair element such as `[1, 2, 3]` raises ValueError at vacuum.py:294. vacuum.py:372
    does not catch it, so it reaches the caller.
- The clock: `int(time.time() * 1000)` is the parameter `nowMs`.
- Floating point: coordinates are `real`, and Python's `round` is banker's rounding on exact
  reals. Float-valued datapoints are not among the modelled values (bool, int, string, None).
- Logging (`_LOGGER`) is dropped.
- The read-only properties `state`, `battery_level`, `extra_state_attributes`, `fan_speed` and
  `fan_speed_list` (vacuum.py:166-189) are the class fields themselves.
- `async_clean_spot` (vacuum.py:213-215) does nothing and is not modelled.
- The unused stop-status option is not modelled.
- Command parameters are typed: rooms and map ids are integers and vertices are coordinate
  pairs. Values of other JSON types are not modelled.
