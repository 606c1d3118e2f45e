/** The structured command the robot accepts on its command datapoint: a batch of two
    sub-commands, one naming what to clean and one starting the clean. The JSON text and base64
    encoding around it are not modelled; the envelope is kept as a value. */
module Envelope {
  import opened Geometry

  /** One entry of `extraAreas`: a polygon to clean. */
  datatype Area = Area(active: string, id: int, mode: string, name: string, tag: string, vertexs: seq<Point>)

  /** A sub-command of the batch. */
  datatype Cmd =
    | CleanTarget(cleanId: seq<int>, extraAreas: seq<Area>, mapId: int, segmentId: seq<int>, infoType: int)
    | StartClean(mode: string, infoType: int)

  /** The whole batch: `dInfo` (timestamp in milliseconds and user id), `data.cmds`,
      `data.mainCmds`, and the outer `infoType` and `message`. */
  datatype Envelope = Envelope(ts: int, userId: string, cmds: seq<Cmd>, mainCmds: seq<int>, infoType: int, message: string)

  const USER_ID := "0"
  const BATCH_INFO_TYPE := 30000
  const TARGET_INFO_TYPE := 21023
  const START_INFO_TYPE := 21005
  const START_MODE := "reAppointClean"
  const CLEAN_ID := [-3]

  /** The sub-command that starts cleaning, the same in every batch. */
  const START := StartClean(START_MODE, START_INFO_TYPE)

  /** The fixed part of every envelope: two sub-commands, the first naming the target with
      `cleanId [-3]`, the second starting the clean, and the batch marked as led by that start. */
  predicate WellShaped(e: Envelope) {
    && e.userId == USER_ID
    && e.infoType == BATCH_INFO_TYPE
    && e.message == "ok"
    && e.mainCmds == [START_INFO_TYPE]
    && |e.cmds| == 2
    && e.cmds[0].CleanTarget?
    && e.cmds[0].cleanId == CLEAN_ID
    && e.cmds[0].infoType == TARGET_INFO_TYPE
    && e.cmds[1] == START
  }

  /** The target sub-command of a well-shaped envelope. */
  function Target(e: Envelope): Cmd
    requires WellShaped(e)
  {
    e.cmds[0]
  }

  /** The polygon entry `get_command_params_clean` builds around a list of vertices. */
  function PolygonArea(vertices: seq<Point>): Area {
    Area("depth", 100, "point", "aa", "room", vertices)
  }

  /** `get_command_params_clean`: clean the one polygon `vertices` on map `mapId`. */
  function AreaEnvelope(vertices: seq<Point>, mapId: int, ts: int): (e: Envelope)
    ensures WellShaped(e) && e.ts == ts
    ensures Target(e).mapId == mapId && Target(e).segmentId == []
    ensures Target(e).extraAreas == [PolygonArea(vertices)]
  {
    Envelope(ts, USER_ID,
             [CleanTarget(CLEAN_ID, [PolygonArea(vertices)], mapId, [], TARGET_INFO_TYPE), START],
             [START_INFO_TYPE], BATCH_INFO_TYPE, "ok")
  }

  /** The envelope of `clean_room`: clean the one segment `room` on map `mapId`, with no polygon. */
  function RoomEnvelope(room: int, mapId: int, ts: int): (e: Envelope)
    ensures WellShaped(e) && e.ts == ts
    ensures Target(e).mapId == mapId && Target(e).segmentId == [room] && Target(e).extraAreas == []
  {
    Envelope(ts, USER_ID,
             [CleanTarget(CLEAN_ID, [], mapId, [room], TARGET_INFO_TYPE), START],
             [START_INFO_TYPE], BATCH_INFO_TYPE, "ok")
  }
}
