/** The vacuum's configuration entry, the values `__init__` derives from it, and the feature set
    the entity advertises. */
module Settings {
  import opened Wrappers
  import opened Datapoints
  import opened Geometry

  /** The configuration entry. An option the user left unset is `None`; the options the entry
      always carries (the returning and paused status values get defaults when the entry is
      created, the start datapoint is mandatory) are plain values. `statusDp` is the entity's
      own datapoint, the primary status. */
  datatype Config = Config(
    statusDp: DpId,
    powerGoDp: DpId,
    idleStatus: Option<string>,
    dockedStatus: Option<string>,
    returningStatus: string,
    pausedState: string,
    batteryDp: Option<DpId>,
    modeDp: Option<DpId>,
    modes: Option<string>,
    returnMode: Option<string>,
    fanSpeedDp: Option<DpId>,
    fanSpeeds: Option<string>,
    cleanTimeDp: Option<DpId>,
    cleanAreaDp: Option<DpId>,
    cleanRecordDp: Option<DpId>,
    locateDp: Option<DpId>,
    faultDp: Option<DpId>,
    positionDp: Option<DpId>,
    positionScale: Option<real>,
    positionOrigin: Option<Point>,
    positionRotation: Option<int>)

  /** The position transform `__init__` sets up: scale 1, origin (0, 0) and rotation 0 unless configured. */
  function PositionTransform(c: Config): (t: Transform)
    ensures c.positionScale.None? ==> t.scale == 1.0
    ensures c.positionOrigin.None? ==> t.origin == Point(0.0, 0.0)
    ensures c.positionRotation.None? ==> t.rotation == 0
    ensures c.positionScale.Some? ==> t.scale == c.positionScale.value
    ensures c.positionOrigin.Some? ==> t.origin == c.positionOrigin.value
    ensures c.positionRotation.Some? ==> t.rotation == c.positionRotation.value
  {
    Transform(c.positionScale.GetOr(1.0), c.positionOrigin.GetOr(Point(0.0, 0.0)), c.positionRotation.GetOr(0))
  }

  /** The capabilities the entity advertises to the host. */
  datatype Feature = Start | Pause | Stop | Status | State | SendCommand | ReturnHome | FanSpeed | Battery | Locate

  /** The capabilities every vacuum has, configured or not. */
  const BASE_FEATURES: set<Feature> :=
    {Feature.Start, Feature.Pause, Feature.Stop, Feature.Status, Feature.State, Feature.SendCommand}

  /** `supported_features`: the base set, plus one feature per configured option. */
  function SupportedFeatures(c: Config): (fs: set<Feature>)
    ensures BASE_FEATURES <= fs
    ensures Feature.ReturnHome in fs <==> c.returnMode.Some?
    ensures Feature.FanSpeed in fs <==> c.fanSpeedDp.Some?
    ensures Feature.Battery in fs <==> c.batteryDp.Some?
    ensures Feature.Locate in fs <==> c.locateDp.Some?
    ensures fs <= BASE_FEATURES + {Feature.ReturnHome, Feature.FanSpeed, Feature.Battery, Feature.Locate}
  {
    BASE_FEATURES
      + (if c.returnMode.Some? then {Feature.ReturnHome} else {})
      + (if c.fanSpeedDp.Some? then {Feature.FanSpeed} else {})
      + (if c.batteryDp.Some? then {Feature.Battery} else {})
      + (if c.locateDp.Some? then {Feature.Locate} else {})
  }
}
