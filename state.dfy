/**
 * The device store: one property map per device identity (type, number),
 * created on first access from the type's defaults overridden by the
 * device's configuration, changed only by merging patches into it, and
 * cleared when the configuration is reloaded; plus the counter that issues
 * server transaction ids.
 */
module State {
  import opened Values
  import opened Wrappers
  import opened Collections

  // The ASCOM enumerations, with the numbers the simulator uses.
  const CameraIdle: int := 0
  const CameraWaiting: int := 1
  const CameraExposing: int := 2
  const CameraReading: int := 3
  const CameraDownload: int := 4
  const CameraError: int := 5

  const PierUnknown: int := -1
  const PierEast: int := 0
  const PierWest: int := 1

  const GuideNorth: int := 0
  const GuideSouth: int := 1
  const GuideEast: int := 2
  const GuideWest: int := 3

  const ShutterOpen: int := 0
  const ShutterClosed: int := 1
  const ShutterOpening: int := 2
  const ShutterClosing: int := 3
  const ShutterError: int := 4

  const CoverNotPresent: int := 0
  const CoverClosed: int := 1
  const CoverMoving: int := 2
  const CoverOpen: int := 3
  const CoverUnknown: int := 4
  const CoverError: int := 5

  const CalibratorNotPresent: int := 0
  const CalibratorOff: int := 1
  const CalibratorNotReady: int := 2
  const CalibratorReady: int := 3
  const CalibratorUnknown: int := 4
  const CalibratorError: int := 5

  const DriveSidereal: int := 0
  const DriveLunar: int := 1
  const DriveSolar: int := 2
  const DriveKing: int := 3

  const AxisPrimary: int := 0
  const AxisSecondary: int := 1
  const AxisTertiary: int := 2

  /** A device identity: its type ("camera", "telescope", ...) and its number. */
  datatype DeviceId = DeviceId(kind: string, number: int)

  /** The `devices` section of the configuration: per type, per number, the device's settings. */
  type DeviceConfig = map<string, map<int, Props>>

  /** `validate_device_exists`: the number is a key of the type's section. */
  predicate Configured(cfg: DeviceConfig, id: DeviceId)
  {
    id.kind in cfg && id.number in cfg[id.kind]
  }

  /** Every configured identity. */
  function ConfiguredIds(cfg: DeviceConfig): (r: set<DeviceId>)
    ensures forall id :: id in r <==> Configured(cfg, id)
  {
    set kind, n | kind in cfg && n in cfg[kind] :: DeviceId(kind, n)
  }

  /** `get_device_config`: the device's settings, or `{}` for a device that is not configured. */
  function DeviceConfigOf(cfg: DeviceConfig, id: DeviceId): (r: Props)
    ensures Configured(cfg, id) ==> r == cfg[id.kind][id.number]
    ensures !Configured(cfg, id) ==> r == map[]
  {
    if Configured(cfg, id) then cfg[id.kind][id.number] else map[]
  }

  /** A device whose settings are not empty is configured. */
  lemma SettingsImplyConfigured(cfg: DeviceConfig, id: DeviceId)
    requires DeviceConfigOf(cfg, id) != map[]
    ensures Configured(cfg, id)
  {
  }

  function CameraDefaults(): Props
  {
    map[
      "camera_state" := VInt(CameraIdle), "connected" := VBool(false), "image_ready" := VBool(false),
      "exposure_start_time" := VNone, "exposure_duration" := VReal(0.0), "image_data" := VNone,
      "light" := VBool(true), "binx" := VInt(1), "biny" := VInt(1), "numx" := VInt(1024),
      "numy" := VInt(1024), "startx" := VInt(0), "starty" := VInt(0), "ccdtemperature" := VReal(20.0),
      "setccdtemperature" := VReal(20.0), "cooleron" := VBool(false), "coolerpower" := VReal(0.0),
      "gain" := VInt(1), "offset" := VInt(100), "readoutmode" := VInt(0), "fastreadout" := VBool(false),
      "ispulseguiding" := VBool(false), "percentcompleted" := VInt(0)
    ]
  }

  function TelescopeDefaults(): Props
  {
    map[
      "connected" := VBool(false), "rightascension" := VReal(0.0), "declination" := VReal(0.0),
      "altitude" := VReal(0.0), "azimuth" := VReal(0.0), "targetrightascension" := VReal(0.0),
      "targetdeclination" := VReal(0.0), "tracking" := VBool(false), "slewing" := VBool(false),
      "athome" := VBool(false), "atpark" := VBool(false), "sideofpier" := VInt(PierUnknown),
      "ispulseguiding" := VBool(false), "sitelatitude" := VReal(0.0), "sitelongitude" := VReal(0.0),
      "siteelevation" := VReal(0.0), "rightascensionrate" := VReal(0.0), "declinationrate" := VReal(0.0),
      "trackingrate" := VInt(DriveSidereal), "guideraterightascension" := VReal(0.0),
      "guideratedeclination" := VReal(0.0), "doesrefraction" := VBool(true), "slewsettletime" := VReal(0.0),
      "utcdate" := VNone
    ]
  }

  function DomeDefaults(): Props
  {
    map[
      "connected" := VBool(false), "altitude" := VReal(0.0), "azimuth" := VReal(0.0),
      "athome" := VBool(false), "atpark" := VBool(false), "slewing" := VBool(false),
      "shutterstatus" := VInt(ShutterClosed), "slaved" := VBool(false)
    ]
  }

  function FocuserDefaults(): Props
  {
    map[
      "connected" := VBool(false), "position" := VInt(0), "ismoving" := VBool(false),
      "tempcomp" := VBool(false), "temperature" := VReal(20.0)
    ]
  }

  function FilterWheelDefaults(): Props
  {
    map["connected" := VBool(false), "position" := VInt(0)]
  }

  function RotatorDefaults(): Props
  {
    map[
      "connected" := VBool(false), "position" := VReal(0.0), "mechanicalposition" := VReal(0.0),
      "targetposition" := VReal(0.0), "ismoving" := VBool(false), "reverse" := VBool(false)
    ]
  }

  function SafetyMonitorDefaults(): Props
  {
    map["connected" := VBool(false), "issafe" := VBool(true)]
  }

  function SwitchDefaults(): Props
  {
    map["connected" := VBool(false), "switches" := VMap(map[])]
  }

  function ObservingConditionsDefaults(): Props
  {
    map[
      "connected" := VBool(false), "averageperiod" := VReal(0.0), "cloudcover" := VReal(0.0),
      "dewpoint" := VReal(0.0), "humidity" := VReal(0.0), "pressure" := VReal(0.0),
      "rainrate" := VReal(0.0), "skybrightness" := VReal(0.0), "skyquality" := VReal(0.0),
      "skytemperature" := VReal(0.0), "starfwhm" := VReal(0.0), "temperature" := VReal(0.0),
      "winddirection" := VReal(0.0), "windgust" := VReal(0.0), "windspeed" := VReal(0.0)
    ]
  }

  function CoverCalibratorDefaults(): Props
  {
    map[
      "connected" := VBool(false), "brightness" := VInt(0), "calibratorchanging" := VBool(false),
      "calibratorstate" := VInt(CalibratorNotPresent), "covermoving" := VBool(false),
      "coverstate" := VInt(CoverClosed)
    ]
  }

  /** The types that have a state class of their own. */
  predicate KnownKind(kind: string)
  {
    kind in {"camera", "telescope", "dome", "focuser", "filterwheel", "rotator",
             "safetymonitor", "switch", "observingconditions", "covercalibrator"}
  }

  /** The state class defaults of a type; an unknown type has only `connected`. */
  function Defaults(kind: string): (r: Props)
    ensures "connected" in r && r["connected"] == VBool(false)
    ensures !KnownKind(kind) ==> r == map["connected" := VBool(false)]
  {
    match kind
    case "camera" => CameraDefaults()
    case "telescope" => TelescopeDefaults()
    case "dome" => DomeDefaults()
    case "focuser" => FocuserDefaults()
    case "filterwheel" => FilterWheelDefaults()
    case "rotator" => RotatorDefaults()
    case "safetymonitor" => SafetyMonitorDefaults()
    case "switch" => SwitchDefaults()
    case "observingconditions" => ObservingConditionsDefaults()
    case "covercalibrator" => CoverCalibratorDefaults()
    case _ => map["connected" := VBool(false)]
  }

  /**
   * The defaults before the configuration is applied: for a camera, `numx`
   * and `numy` are first taken from the configured `cameraxsize` and
   * `cameraysize` when those are present.
   */
  function BaseState(kind: string, conf: Props): (r: Props)
    ensures r.Keys == Defaults(kind).Keys
  {
    var d := Defaults(kind);
    if kind == "camera" then
      var withX := if "cameraxsize" in conf then d["numx" := conf["cameraxsize"]] else d;
      if "cameraysize" in conf then withX["numy" := conf["cameraysize"]] else withX
    else d
  }

  /**
   * `_create_default_state`: every configured setting overrides the default
   * of the same name, every other default stays.
   */
  function InitialState(cfg: DeviceConfig, id: DeviceId): (r: Props)
    ensures r.Keys == Defaults(id.kind).Keys + DeviceConfigOf(cfg, id).Keys
    ensures forall k :: k in DeviceConfigOf(cfg, id) ==> r[k] == DeviceConfigOf(cfg, id)[k]
    ensures forall k :: k in Defaults(id.kind) && k !in DeviceConfigOf(cfg, id) && k !in {"numx", "numy"} ==>
      r[k] == Defaults(id.kind)[k]
    ensures r != map[]
  {
    Merge(BaseState(id.kind, DeviceConfigOf(cfg, id)), DeviceConfigOf(cfg, id))
  }

  /**
   * A camera's first `numx` is its configured `numx`, else its configured
   * `cameraxsize`, else 1024; likewise `numy` with `cameraysize`.
   */
  lemma CameraInitialGeometry(cfg: DeviceConfig, number: int)
    ensures var conf := DeviceConfigOf(cfg, DeviceId("camera", number));
      var s := InitialState(cfg, DeviceId("camera", number));
      && s["numx"] == (if "numx" in conf then conf["numx"] else if "cameraxsize" in conf then conf["cameraxsize"] else VInt(1024))
      && s["numy"] == (if "numy" in conf then conf["numy"] else if "cameraysize" in conf then conf["cameraysize"] else VInt(1024))
  {
    var conf := DeviceConfigOf(cfg, DeviceId("camera", number));
    var d := CameraDefaults();
    assert Defaults("camera") == d;
    assert d["numx"] == VInt(1024) && d["numy"] == VInt(1024);
    var base := BaseState("camera", conf);
    assert base["numx"] == if "cameraxsize" in conf then conf["cameraxsize"] else VInt(1024);
    assert base["numy"] == if "cameraysize" in conf then conf["cameraysize"] else VInt(1024);
  }

  /** A device of a type without a state class starts with `connected` False and its settings. */
  lemma UnknownKindInitialState(cfg: DeviceConfig, id: DeviceId)
    requires !KnownKind(id.kind)
    ensures InitialState(cfg, id) == Merge(map["connected" := VBool(false)], DeviceConfigOf(cfg, id))
  {
  }

  /** What a device's state is: its stored map, or the initial state it would be given on first access. */
  function CurrentIn(cfg: DeviceConfig, store: map<DeviceId, Props>, id: DeviceId): (r: Props)
    ensures r != map[]
    ensures id in store && store[id] != map[] ==> r == store[id]
  {
    if id in store && store[id] != map[] then store[id] else InitialState(cfg, id)
  }

  /** `_server_transaction_id`, the `_state` map and the loaded `devices` configuration. */
  class Store {
    var config: DeviceConfig
    var store: map<DeviceId, Props>
    var txid: nat

    /** No stored map is empty, so "missing" and "falsy" agree in the two accessors. */
    ghost predicate Valid()
      reads this
    {
      forall id :: id in store ==> store[id] != map[]
    }

    constructor (config: DeviceConfig)
      ensures Valid()
      ensures this.config == config && store == map[] && txid == 0
    {
      this.config := config;
      store := map[];
      txid := 0;
    }

    /** The state a read of `id` returns now. */
    function Current(id: DeviceId): Props
      reads this
    {
      CurrentIn(config, store, id)
    }

    /** `get_server_transaction_id`: one more than the last id issued, so the first is 1. */
    method NextTransactionId() returns (t: nat)
      modifies this`txid
      ensures t == old(txid) + 1 && txid == t
    {
      txid := txid + 1;
      t := txid;
    }

    /**
     * `get_device_state`: returns a copy of the device's state, storing its
     * initial state first when it has none. No read changes what any later
     * read returns.
     */
    method GetDeviceState(id: DeviceId) returns (m: Props)
      requires Valid()
      modifies this`store
      ensures Valid()
      ensures m == old(Current(id)) && store == old(store)[id := m]
      ensures forall other :: Current(other) == old(Current(other))
    {
      if id !in store || store[id] == map[] {
        store := store[id := InitialState(config, id)];
      }
      m := store[id];
    }

    /**
     * `update_device_state`: initialises a device that has no state, then
     * merges the patch into its state; no other device changes.
     */
    method UpdateDeviceState(id: DeviceId, patch: Props)
      requires Valid()
      modifies this`store
      ensures Valid()
      ensures store == old(store)[id := Merge(old(Current(id)), patch)]
      ensures Current(id) == Merge(old(Current(id)), patch)
      ensures forall other :: other != id ==> Current(other) == old(Current(other))
    {
      if id !in store {
        store := store[id := InitialState(config, id)];
      }
      store := store[id := Merge(store[id], patch)];
    }

    /**
     * `reload_config`: the newly read configuration replaces the old one and
     * every device state is dropped, so each device starts again from its new
     * initial state. The transaction counter goes on.
     */
    method ReloadConfig(newConfig: DeviceConfig)
      modifies this`config, this`store
      ensures Valid()
      ensures config == newConfig && store == map[]
      ensures forall id :: Current(id) == InitialState(newConfig, id)
    {
      config := newConfig;
      store := map[];
    }

    /**
     * `get_all_configured_devices`: for every configured type, the list of its
     * configured numbers, each once.
     */
    method GetAllConfiguredDevices() returns (d: map<string, seq<int>>)
      ensures d.Keys == config.Keys
      ensures forall kind :: kind in d ==> Distinct(d[kind])
      ensures forall kind, n :: kind in d ==> (n in d[kind] <==> Configured(config, DeviceId(kind, n)))
    {
      d := map[];
      var todo := config.Keys;
      while todo != {}
        invariant todo <= config.Keys
        invariant d.Keys == config.Keys - todo
        invariant forall kind :: kind in d ==> Distinct(d[kind])
        invariant forall kind, n :: kind in d ==> (n in d[kind] <==> n in config[kind])
        decreases |todo|
      {
        ghost var w := Pick(todo);
        var kind :| kind in todo;
        var numbers := KeyList(config[kind]);
        d := d[kind := numbers];
        todo := todo - {kind};
      }
    }
  }
}
