/**
 * The camera's endpoints: settings read from the configuration, properties
 * read from the state, the binning, readout, cooling, gain, offset,
 * subframe and pulse-guide setters, the exposure commands (starting one
 * only schedules the background task of module Exposure) and the
 * `imagearray` download.
 */
module Camera {
  import opened Wrappers
  import opened Values
  import opened Text
  import opened State
  import opened Envelope
  import opened Common
  import opened ImageBytes

  const Kind: string := "camera"

  /** The two sensor axes; each of the binning and subframe endpoints comes in an x and a y form. */
  datatype Axis = X | Y

  /** The settings the camera's getters answer from the configuration. */
  datatype Setting =
    | CameraSize(axis: Axis) | PixelSize(axis: Axis) | MaxBin(axis: Axis) | ReadoutModes
    | BayerOffset(axis: Axis) | CanAbortExposure | CanAsymmetricBin | CanFastReadout
    | CanGetCoolerPower | CanPulseGuide | CanSetCcdTemperature | CanStopExposure
    | ExposureMax | ExposureMin | ExposureResolution | ElectronsPerAdu | FullWellCapacity
    | HasShutter | MaxAdu | SensorName | SensorType | GainMax | GainMin | Gains
    | OffsetMax | OffsetMin | Offsets

  /** `x`- or `y`-suffixed key. */
  function AxisKey(prefix: string, axis: Axis): string
  {
    prefix + (if axis == X then "x" else "y")
  }

  /** The axis across from `axis`. */
  function Other(axis: Axis): (r: Axis)
    ensures r != axis
  {
    if axis == X then Y else X
  }

  function SettingKey(g: Setting): string
  {
    match g
    case CameraSize(a) => AxisKey("camera", a) + "size"
    case PixelSize(a) => AxisKey("pixelsize", a)
    case MaxBin(a) => AxisKey("maxbin", a)
    case ReadoutModes => "readoutmodes"
    case BayerOffset(a) => AxisKey("bayeroffset", a)
    case CanAbortExposure => "canabortexposure"
    case CanAsymmetricBin => "canasymmetricbin"
    case CanFastReadout => "canfastreadout"
    case CanGetCoolerPower => "cangetcoolerpower"
    case CanPulseGuide => "canpulseguide"
    case CanSetCcdTemperature => "cansetccdtemperature"
    case CanStopExposure => "canstopexposure"
    case ExposureMax => "exposuremax"
    case ExposureMin => "exposuremin"
    case ExposureResolution => "exposureresolution"
    case ElectronsPerAdu => "electronsperadu"
    case FullWellCapacity => "fullwellcapacity"
    case HasShutter => "hasshutter"
    case MaxAdu => "maxadu"
    case SensorName => "sensorname"
    case SensorType => "sensortype"
    case GainMax => "gainmax"
    case GainMin => "gainmin"
    case Gains => "gains"
    case OffsetMax => "offsetmax"
    case OffsetMin => "offsetmin"
    case Offsets => "offsets"
  }

  /** The answer when the setting is absent. */
  function SettingDefault(g: Setting): Value
  {
    match g
    case CameraSize(_) => VInt(1024)
    case PixelSize(_) => VReal(5.4)
    case MaxBin(_) => VInt(8)
    case ReadoutModes => VList([VStr("Fast"), VStr("Normal")])
    case BayerOffset(_) => VInt(0)
    case ExposureMax => VReal(3600.0)
    case ExposureMin => VReal(0.001)
    case ExposureResolution => VReal(0.001)
    case ElectronsPerAdu => VReal(1.0)
    case FullWellCapacity => VReal(100000.0)
    case MaxAdu => VInt(65535)
    case SensorName => VStr("Simulated CCD")
    case SensorType => VInt(0)
    case GainMax => VReal(10.0)
    case GainMin => VReal(0.1)
    case Gains => VList([VStr("Low"), VStr("Medium"), VStr("High")])
    case OffsetMax => VReal(1000.0)
    case OffsetMin => VReal(-1000.0)
    case Offsets => VList([VStr("Low"), VStr("Medium"), VStr("High")])
    case _ => VBool(true)
  }

  /** The properties the camera's getters answer from the state, each with its key and default. */
  datatype Property =
    | CameraState | ImageReady | Bin(axis: Axis) | ReadoutMode | PercentCompleted
    | LastExposureDuration | CcdTemperature | TargetCcdTemperature | CoolerOn | CoolerPower
    | Gain | Offset | Start(axis: Axis) | FastReadout | IsPulseGuiding | SubExposureDuration

  function PropertyKey(p: Property): string
  {
    match p
    case CameraState => "camera_state"
    case ImageReady => "image_ready"
    case Bin(a) => AxisKey("bin", a)
    case ReadoutMode => "readoutmode"
    case PercentCompleted => "percentcompleted"
    case LastExposureDuration => "exposure_duration"
    case CcdTemperature => "ccdtemperature"
    case TargetCcdTemperature => "setccdtemperature"
    case CoolerOn => "cooleron"
    case CoolerPower => "coolerpower"
    case Gain => "gain"
    case Offset => "offset"
    case Start(a) => AxisKey("start", a)
    case FastReadout => "fastreadout"
    case IsPulseGuiding => "ispulseguiding"
    case SubExposureDuration => "subexposureduration"
  }

  function PropertyDefault(p: Property): Value
  {
    match p
    case CameraState => VInt(CameraIdle)
    case ImageReady => VBool(false)
    case Bin(_) => VInt(1)
    case ReadoutMode => VInt(0)
    case PercentCompleted => VInt(0)
    case LastExposureDuration => VReal(0.0)
    case CcdTemperature => VReal(20.0)
    case TargetCcdTemperature => VReal(20.0)
    case CoolerOn => VBool(false)
    case CoolerPower => VReal(0.0)
    case Gain => VReal(1.0)
    case Offset => VReal(0.0)
    case Start(_) => VInt(0)
    case FastReadout => VBool(false)
    case IsPulseGuiding => VBool(false)
    case SubExposureDuration => VReal(1.0)
  }

  datatype Command =
    | ReadSetting(setting: Setting)
    | ReadProperty(property: Property)
    | Size(axis: Axis)
    | LastExposureStartTime
    | HeatSinkTemperature
    | SetBin(axis: Axis, bin: int)
    | SetReadoutMode(mode: int)
    | SetCcdTemperature(temperature: real)
    | SetCoolerOn(on: bool)
    | SetGain(gain: real)
    | SetOffset(offset: real)
    | SetSize(axis: Axis, size: int)
    | SetStart(axis: Axis, start: int)
    | SetFastReadout(fast: bool)
    | PulseGuide(direction: int, milliseconds: int)
    | SetSubExposureDuration(subDuration: real)
    | StartExposure(duration: real, light: bool)
    | AbortExposure
    | StopExposure

  /** The sensor's width or height in pixels, 1024 when not configured. */
  function SensorSize(conf: Props, axis: Axis): Value
  {
    Get(conf, SettingKey(CameraSize(axis)), VInt(1024))
  }

  /** The subframe's first column or row, 0 when unset. */
  function StartOf(cur: Props, axis: Axis): Value
  {
    Get(cur, AxisKey("start", axis), VInt(0))
  }

  /** The subframe's width or height: the state's, else the sensor's. */
  function SizeOf(conf: Props, cur: Props, axis: Axis): Value
  {
    Get(cur, AxisKey("num", axis), SensorSize(conf, axis))
  }

  /**
   * Python's `a - b` inside an error message: an integer when both are
   * integers or booleans, a float when either is a float; anything else
   * raises.
   */
  function Difference(a: Value, b: Value): (r: Option<Value>)
    ensures r.Some? <==> Num(a).Some? && Num(b).Some?
    ensures r.Some? ==> Num(r.value) == Some(Num(a).value - Num(b).value)
  {
    if (a.VInt? || a.VBool?) && (b.VInt? || b.VBool?) then Some(VInt(IntOf(a).value - IntOf(b).value))
    else if Num(a).Some? && Num(b).Some? then Some(VReal(Num(a).value - Num(b).value))
    else None
  }

  /** A refusal whose message needs `max - other`; a non-number there raises instead. */
  function RangeRefusal(prefix: string, low: string, max: Value, other: Value): (d: Decision)
    ensures Difference(max, other).Some? ==> RaisesCode(d, 0x402)
    ensures Difference(max, other).None? ==> d == Raise(TypeError())
  {
    match Difference(max, other)
    case None => Raise(TypeError())
    case Some(v) => Raise(OutOfRange(prefix + " out of range (" + low + " to " + Show(v) + ")"))
  }

  /** The capability setting `g` (default True) is falsy. */
  predicate Lacks(conf: Props, g: Setting)
  {
    !Truthy(Get(conf, SettingKey(g), SettingDefault(g)))
  }

  /**
   * `binx`/`biny`: a bin below 1 is refused at once; otherwise it is
   * compared with `maxbinx`/`maxbiny` (default 8), which raises when that is
   * not a number, and accepted up to and including it.
   */
  function SetBinDecision(conf: Props, axis: Axis, bin: int): (d: Decision)
    ensures bin < 1 ==> RaisesCode(d, 0x402)
    ensures forall m :: Num(Get(conf, SettingKey(MaxBin(axis)), VInt(8))) == Some(m) ==>
      (d.Done? <==> 1 <= bin && bin as real <= m) && (d.Raise? ==> RaisesCode(d, 0x402))
    ensures bin >= 1 && Num(Get(conf, SettingKey(MaxBin(axis)), VInt(8))).None? ==> d == Raise(TypeError())
    ensures d.Done? ==> d.patch == map[AxisKey("bin", axis) := VInt(bin)] && d.value == None
  {
    var message := "Invalid binning value: " + IntToString(bin);
    if bin < 1 then Raise(OutOfRange(message))
    else match Num(Get(conf, SettingKey(MaxBin(axis)), VInt(8)))
      case None => Raise(TypeError())
      case Some(m) =>
        if bin as real > m then Raise(OutOfRange(message))
        else Done(map[AxisKey("bin", axis) := VInt(bin)], None)
  }

  /**
   * `readoutmode`: a negative mode is refused at once; otherwise it must be
   * below the length of `readoutmodes` (`len()` of a non-sequence raises).
   */
  function SetReadoutModeDecision(conf: Props, mode: int): (d: Decision)
    ensures mode < 0 ==> RaisesCode(d, 0x402)
    ensures var modes := Get(conf, "readoutmodes", SettingDefault(ReadoutModes));
      && (mode >= 0 && Len(modes).None? ==> d == Raise(TypeError()))
      && (Len(modes).Some? ==> (d.Done? <==> 0 <= mode < Len(modes).value) && (d.Raise? ==> RaisesCode(d, 0x402)))
    ensures d.Done? ==> d == Done(map["readoutmode" := VInt(mode)], None)
  {
    var message := "Invalid readout mode: " + IntToString(mode);
    if mode < 0 then Raise(OutOfRange(message))
    else match Len(Get(conf, "readoutmodes", SettingDefault(ReadoutModes)))
      case None => Raise(TypeError())
      case Some(n) =>
        if mode >= n then Raise(OutOfRange(message))
        else Done(map["readoutmode" := VInt(mode)], None)
  }

  /**
   * A bounded real setter (`gain`, `offset`): the lower bound is compared
   * first, then the upper one; either comparison raises when its bound is
   * not a number. Both bounds are accepted.
   */
  function BoundedDecision(conf: Props, name: string, key: string, minKey: string, minDefault: Value,
                           maxKey: string, maxDefault: Value, x: real): (d: Decision)
    ensures var lo := Num(Get(conf, minKey, minDefault));
            var hi := Num(Get(conf, maxKey, maxDefault));
      && (lo.None? ==> d == Raise(TypeError()))
      && (lo.Some? && x < lo.value ==> RaisesCode(d, 0x402))
      && (lo.Some? && x >= lo.value && hi.None? ==> d == Raise(TypeError()))
      && (lo.Some? && hi.Some? ==> (d.Done? <==> lo.value <= x <= hi.value) && (d.Raise? ==> RaisesCode(d, 0x402)))
    ensures d.Done? ==> d == Done(map[key := VReal(x)], None)
  {
    var low := Get(conf, minKey, minDefault);
    var high := Get(conf, maxKey, maxDefault);
    var message := name + " out of range (" + Show(low) + " to " + Show(high) + ")";
    match Num(low)
    case None => Raise(TypeError())
    case Some(lo) =>
      if x < lo then Raise(OutOfRange(message))
      else match Num(high)
        case None => Raise(TypeError())
        case Some(hi) =>
          if x > hi then Raise(OutOfRange(message))
          else Done(map[key := VReal(x)], None)
  }

  /**
   * `numx`/`numy`: a size below 1 is refused at once; otherwise the
   * subframe's start plus the size must not pass the sensor's size. The
   * refusal's message names the largest size that fits.
   */
  function SetSizeDecision(conf: Props, cur: Props, axis: Axis, size: int): (d: Decision)
    ensures var start := Num(StartOf(cur, axis));
            var max := Num(SensorSize(conf, axis));
      && (size < 1 ==> d.Raise?)
      && (size >= 1 && (start.None? || max.None?) ==> d == Raise(TypeError()))
      && (start.Some? && max.Some? ==>
            (d.Done? <==> 1 <= size && start.value + size as real <= max.value) && (d.Raise? ==> RaisesCode(d, 0x402)))
    ensures d.Done? ==> d == Done(map[AxisKey("num", axis) := VInt(size)], None)
  {
    var max := SensorSize(conf, axis);
    var start := StartOf(cur, axis);
    var refusal := RangeRefusal(AxisKey("Num", axis), "1", max, start);
    if size < 1 then refusal
    else match Num(start)
      case None => Raise(TypeError())
      case Some(s) =>
        match Num(max)
        case None => Raise(TypeError())
        case Some(m) =>
          if s + size as real > m then refusal
          else Done(map[AxisKey("num", axis) := VInt(size)], None)
  }

  /**
   * `startx`/`starty`: a negative start is refused at once; otherwise the
   * start plus the subframe's size must not pass the sensor's size.
   */
  function SetStartDecision(conf: Props, cur: Props, axis: Axis, start: int): (d: Decision)
    ensures var size := Num(SizeOf(conf, cur, axis));
            var max := Num(SensorSize(conf, axis));
      && (start < 0 ==> d.Raise?)
      && (start >= 0 && (size.None? || max.None?) ==> d == Raise(TypeError()))
      && (size.Some? && max.Some? ==>
            (d.Done? <==> 0 <= start && start as real + size.value <= max.value) && (d.Raise? ==> RaisesCode(d, 0x402)))
    ensures d.Done? ==> d == Done(map[AxisKey("start", axis) := VInt(start)], None)
  {
    var max := SensorSize(conf, axis);
    var size := SizeOf(conf, cur, axis);
    var refusal := RangeRefusal(AxisKey("Start", axis), "0", max, size);
    if start < 0 then refusal
    else match Num(size)
      case None => Raise(TypeError())
      case Some(n) =>
        match Num(max)
        case None => Raise(TypeError())
        case Some(m) =>
          if start as real + n > m then refusal
          else Done(map[AxisKey("start", axis) := VInt(start)], None)
  }

  /**
   * `pulseguide`: refused with 0x401 without `canpulseguide`, then with
   * 0x402 for a direction outside north, south, east and west or a negative
   * duration; the guide pulse starts and ends within the request.
   */
  function PulseGuideDecision(conf: Props, direction: int, duration: int): (d: Decision)
    ensures Lacks(conf, CanPulseGuide) ==> RaisesCode(d, 0x401)
    ensures !Lacks(conf, CanPulseGuide) ==>
      (d.Done? <==> GuideNorth <= direction <= GuideWest && duration >= 0) && (d.Raise? ==> RaisesCode(d, 0x402))
    ensures d.Done? ==> d == Done(map["ispulseguiding" := VBool(false)], None)
  {
    if Lacks(conf, CanPulseGuide) then Raise(NotImplemented("Camera does not support pulse guiding"))
    else if !(direction in [GuideNorth, GuideSouth, GuideEast, GuideWest]) then Raise(OutOfRange("Invalid guide direction"))
    else if duration < 0 then Raise(OutOfRange("Duration must be positive"))
    else Done(map["ispulseguiding" := VBool(false)], None)
  }

  /** `camera_state` compares equal to the state number `n` (Python `==` between numbers). */
  predicate InState(cur: Props, n: int)
  {
    "camera_state" in cur && NumEq(cur["camera_state"], n as real)
  }

  /**
   * `startexposure`: a camera that is not idle is refused with 0x40C (a
   * state without `camera_state` raises `KeyError`); then the duration must
   * lie between `exposuremin` (default 0.001) and `exposuremax` (default
   * 3600), both included. An accepted exposure changes nothing yet: it only
   * schedules the background task.
   */
  function StartExposureDecision(conf: Props, cur: Props, duration: real): (d: Decision)
    ensures "camera_state" !in cur ==> d == Raise(Internal("KeyError"))
    ensures "camera_state" in cur && !InState(cur, CameraIdle) ==> RaisesCode(d, 0x40C)
    ensures var lo := Num(Get(conf, "exposuremin", SettingDefault(ExposureMin)));
            var hi := Num(Get(conf, "exposuremax", SettingDefault(ExposureMax)));
      InState(cur, CameraIdle) && lo.Some? && hi.Some? ==>
        (d.Done? <==> lo.value <= duration <= hi.value) && (d.Raise? ==> RaisesCode(d, 0x402))
    ensures d.Done? ==> d == Done(map[], None) && InState(cur, CameraIdle)
  {
    if "camera_state" !in cur then Raise(Internal("KeyError"))
    else if !NumEq(cur["camera_state"], CameraIdle as real) then AlpacaRaise(0x40C, "Camera is not idle")
    else
      var low := Get(conf, "exposuremin", SettingDefault(ExposureMin));
      var high := Get(conf, "exposuremax", SettingDefault(ExposureMax));
      match Num(low)
      case None => Raise(TypeError())
      case Some(lo) =>
        if duration < lo then Raise(OutOfRange("Exposure duration too short (minimum: " + Show(low) + "s)"))
        else match Num(high)
          case None => Raise(TypeError())
          case Some(hi) =>
            if duration > hi then Raise(OutOfRange("Exposure duration too long (maximum: " + Show(high) + "s)"))
            else Done(map[], None)
  }

  /** An `AlpacaError` with an explicit code. */
  function AlpacaRaise(code: int, message: string): (d: Decision)
    ensures RaisesCode(d, code)
  {
    Raise(AlpacaError(code, message))
  }

  /** What `abortexposure` writes: idle, no image ready, no image, no progress. */
  function AbortPatch(): Props
  {
    map["camera_state" := VInt(CameraIdle), "image_ready" := VBool(false), "image_data" := VNone,
        "percentcompleted" := VInt(0)]
  }

  /**
   * `stopexposure`: refused with 0x401 without `canstopexposure`; an
   * exposing camera moves on to reading, any other state is left alone.
   */
  function StopExposureDecision(conf: Props, cur: Props): (d: Decision)
    ensures Lacks(conf, CanStopExposure) ==> RaisesCode(d, 0x401)
    ensures !Lacks(conf, CanStopExposure) && "camera_state" !in cur ==> d == Raise(Internal("KeyError"))
    ensures !Lacks(conf, CanStopExposure) && "camera_state" in cur ==>
      d == Done(if InState(cur, CameraExposing) then map["camera_state" := VInt(CameraReading)] else map[], None)
  {
    if Lacks(conf, CanStopExposure) then Raise(NotImplemented("Camera cannot stop exposures"))
    else if "camera_state" !in cur then Raise(Internal("KeyError"))
    else if NumEq(cur["camera_state"], CameraExposing as real) then Done(map["camera_state" := VInt(CameraReading)], None)
    else Done(map[], None)
  }

  /** A capability-gated write of one or two keys. */
  function Gated(conf: Props, g: Setting, message: string, patch: Props): (d: Decision)
    ensures d.Raise? <==> Lacks(conf, g)
    ensures d.Raise? ==> RaisesCode(d, 0x401)
    ensures d.Done? ==> d == Done(patch, None)
  {
    if Lacks(conf, g) then Raise(NotImplemented(message)) else Done(patch, None)
  }

  /** `str(v)` for the start-time getter. */
  function Str(v: Value): string
  {
    Show(v)
  }

  /** What each camera endpoint (other than `imagearray`) decides with settings `conf` and state `cur`. */
  function Decide(conf: Props, cur: Props, cmd: Command): (d: Decision)
    ensures (cmd.ReadSetting? || cmd.ReadProperty? || cmd.Size? || cmd.LastExposureStartTime?) ==>
      d.Done? && d.patch == map[] && d.value.Some?
    ensures d.Done? && d.value.Some? ==> d.patch == map[]
  {
    match cmd
    case ReadSetting(g) => Done(map[], Some(Get(conf, SettingKey(g), SettingDefault(g))))
    case ReadProperty(p) => Done(map[], Some(Get(cur, PropertyKey(p), PropertyDefault(p))))
    case Size(a) => Done(map[], Some(SizeOf(conf, cur, a)))
    case LastExposureStartTime => Done(map[], Some(VStr(Str(Get(cur, "exposure_start_time", VStr(""))))))
    case HeatSinkTemperature =>
      (match Num(Get(cur, "ccdtemperature", VReal(20.0)))
       case None => Raise(TypeError())
       case Some(t) => Done(map[], Some(VReal(t + 5.0))))
    case SetBin(a, n) => SetBinDecision(conf, a, n)
    case SetReadoutMode(m) => SetReadoutModeDecision(conf, m)
    case SetCcdTemperature(t) =>
      Gated(conf, CanSetCcdTemperature, "Camera does not support temperature control",
            map["setccdtemperature" := VReal(t), "ccdtemperature" := VReal(t)])
    case SetCoolerOn(on) =>
      Gated(conf, CanSetCcdTemperature, "Camera does not support temperature control", map["cooleron" := VBool(on)])
    case SetGain(x) => BoundedDecision(conf, "Gain", "gain", "gainmin", VReal(0.1), "gainmax", VReal(10.0), x)
    case SetOffset(x) =>
      BoundedDecision(conf, "Offset", "offset", "offsetmin", VReal(-1000.0), "offsetmax", VReal(1000.0), x)
    case SetSize(a, n) => SetSizeDecision(conf, cur, a, n)
    case SetStart(a, n) => SetStartDecision(conf, cur, a, n)
    case SetFastReadout(f) =>
      Gated(conf, CanFastReadout, "Camera does not support fast readout mode", map["fastreadout" := VBool(f)])
    case PulseGuide(direction, duration) => PulseGuideDecision(conf, direction, duration)
    case SetSubExposureDuration(x) =>
      if x <= 0.0 then Raise(OutOfRange("Sub-exposure duration must be positive"))
      else Done(map["subexposureduration" := VReal(x)], None)
    case StartExposure(duration, _) => StartExposureDecision(conf, cur, duration)
    case AbortExposure => Gated(conf, CanAbortExposure, "Camera cannot abort exposures", AbortPatch())
    case StopExposure => StopExposureDecision(conf, cur)
  }

  /** The keys each endpoint may write. */
  function Writes(cmd: Command): set<string>
  {
    match cmd
    case SetBin(a, _) => {AxisKey("bin", a)}
    case SetReadoutMode(_) => {"readoutmode"}
    case SetCcdTemperature(_) => {"setccdtemperature", "ccdtemperature"}
    case SetCoolerOn(_) => {"cooleron"}
    case SetGain(_) => {"gain"}
    case SetOffset(_) => {"offset"}
    case SetSize(a, _) => {AxisKey("num", a)}
    case SetStart(a, _) => {AxisKey("start", a)}
    case SetFastReadout(_) => {"fastreadout"}
    case PulseGuide(_, _) => {"ispulseguiding"}
    case SetSubExposureDuration(_) => {"subexposureduration"}
    case AbortExposure => AbortPatch().Keys
    case StopExposure => {"camera_state"}
    case _ => {}
  }

  /** No endpoint writes outside its keys; the getters and `startexposure` write nothing. */
  lemma WritesAreConfined(conf: Props, cur: Props, cmd: Command)
    ensures var d := Decide(conf, cur, cmd);
      d.Done? ==> d.patch.Keys <= Writes(cmd) && OnlyChanged(cur, Apply(cur, d), Writes(cmd))
  {
  }

  /**
   * The subframe on one axis lies on the sensor: start, size and sensor
   * size are numbers, and start plus size does not pass the sensor's edge.
   */
  predicate SubframeFits(conf: Props, cur: Props, axis: Axis)
  {
    && Num(StartOf(cur, axis)).Some? && Num(SizeOf(conf, cur, axis)).Some? && Num(SensorSize(conf, axis)).Some?
    && Num(StartOf(cur, axis)).value + Num(SizeOf(conf, cur, axis)).value <= Num(SensorSize(conf, axis)).value
  }

  /** Distinct axes' keys differ. */
  lemma AxisKeysDiffer(prefix: string, other: string, a: Axis, b: Axis)
    requires a != b || prefix != other
    ensures AxisKey(prefix, a) != AxisKey(other, b)
  {
    if |prefix| != |other| {
      assert |AxisKey(prefix, a)| != |AxisKey(other, b)|;
    } else if prefix == other {
      assert AxisKey(prefix, a)[|prefix|] != AxisKey(other, b)[|prefix|];
    } else {
      var i :| 0 <= i < |prefix| && prefix[i] != other[i];
      assert AxisKey(prefix, a)[i] == prefix[i] && AxisKey(other, b)[i] == other[i];
    }
  }

  /**
   * Every accepted subframe write leaves the subframe on the sensor:
   * `numx`/`startx` (and the y pair) can only establish it, and every other
   * endpoint keeps it, since none writes a start or a size.
   */
  lemma SubframeStaysOnSensor(conf: Props, cur: Props, cmd: Command, axis: Axis)
    requires SubframeFits(conf, cur, axis) || ((cmd.SetSize? || cmd.SetStart?) && cmd.axis == axis)
    requires Decide(conf, cur, cmd).Done?
    ensures SubframeFits(conf, Apply(cur, Decide(conf, cur, cmd)), axis)
  {
    var d := Decide(conf, cur, cmd);
    var after := Apply(cur, d);
    if (cmd.SetSize? || cmd.SetStart?) && cmd.axis == axis {
      if cmd.SetSize? {
        AxisKeysDiffer("num", "start", axis, axis);
        assert after[AxisKey("num", axis)] == VInt(cmd.size);
      } else {
        AxisKeysDiffer("start", "num", axis, axis);
        assert after[AxisKey("start", axis)] == VInt(cmd.start);
      }
    } else {
      WritesAreConfined(conf, cur, cmd);
      OtherWritesMissSubframe(cmd, axis);
      assert StartOf(after, axis) == StartOf(cur, axis) && SizeOf(conf, after, axis) == SizeOf(conf, cur, axis);
    }
  }

  /** Only the subframe setters of an axis write that axis's start or size. */
  lemma OtherWritesMissSubframe(cmd: Command, axis: Axis)
    requires !((cmd.SetSize? || cmd.SetStart?) && cmd.axis == axis)
    ensures AxisKey("start", axis) !in Writes(cmd) && AxisKey("num", axis) !in Writes(cmd)
  {
    var start := AxisKey("start", axis);
    var num := AxisKey("num", axis);
    assert start == "startx" || start == "starty";
    assert num == "numx" || num == "numy";
    match cmd {
      case SetSize(a, _) => AxisKeysDiffer("num", "num", a, axis); AxisKeysDiffer("num", "start", a, axis);
      case SetStart(a, _) => AxisKeysDiffer("start", "start", a, axis); AxisKeysDiffer("start", "num", a, axis);
      case SetBin(a, _) => AxisKeysDiffer("bin", "num", a, axis);
      case _ =>
    }
  }

  /** A state class default that the configuration does not override is where a fresh camera starts. */
  lemma FreshDefault(cfg: DeviceConfig, number: nat, key: string, v: Value)
    requires key in CameraDefaults() && CameraDefaults()[key] == v
    requires key !in DeviceConfigOf(cfg, DeviceId(Kind, number)) && key !in {"numx", "numy"}
    ensures key in InitialState(cfg, DeviceId(Kind, number)) && InitialState(cfg, DeviceId(Kind, number))[key] == v
  {
    assert Defaults(Kind) == CameraDefaults();
  }

  /**
   * A camera that was never exposed reports its last start time as the
   * text "None": the state starts with no start time, and the getter turns
   * that into text.
   */
  lemma FreshStartTimeReadsNone(cfg: DeviceConfig, number: nat)
    requires "exposure_start_time" !in DeviceConfigOf(cfg, DeviceId(Kind, number))
    ensures Decide(DeviceConfigOf(cfg, DeviceId(Kind, number)), InitialState(cfg, DeviceId(Kind, number)),
                   LastExposureStartTime).value == Some(VStr("None"))
  {
    FreshDefault(cfg, number, "exposure_start_time", VNone);
  }

  /**
   * A fresh camera's subframe is the whole sensor when its settings give a
   * numeric, non-negative sensor size and do not set the subframe.
   */
  lemma FreshSubframeFits(cfg: DeviceConfig, number: nat, axis: Axis)
    requires var conf := DeviceConfigOf(cfg, DeviceId(Kind, number));
      && AxisKey("num", axis) !in conf && AxisKey("start", axis) !in conf
      && Num(SensorSize(conf, axis)).Some? && Num(SensorSize(conf, axis)).value >= 0.0
    ensures SubframeFits(DeviceConfigOf(cfg, DeviceId(Kind, number)), InitialState(cfg, DeviceId(Kind, number)), axis)
  {
    FreshGeometry(cfg, number, axis);
  }

  /** A fresh camera's subframe starts at 0 and spans the sensor's size. */
  lemma FreshGeometry(cfg: DeviceConfig, number: nat, axis: Axis)
    requires var conf := DeviceConfigOf(cfg, DeviceId(Kind, number));
      AxisKey("num", axis) !in conf && AxisKey("start", axis) !in conf
    ensures var conf := DeviceConfigOf(cfg, DeviceId(Kind, number));
            var init := InitialState(cfg, DeviceId(Kind, number));
      StartOf(init, axis) == VInt(0) && SizeOf(conf, init, axis) == SensorSize(conf, axis)
  {
    if axis == X {
      assert AxisKey("start", axis) == "startx" && AxisKey("num", axis) == "numx";
      assert SettingKey(CameraSize(axis)) == "cameraxsize";
      FreshAxisX(cfg, number);
    } else {
      assert AxisKey("start", axis) == "starty" && AxisKey("num", axis) == "numy";
      assert SettingKey(CameraSize(axis)) == "cameraysize";
      FreshAxisY(cfg, number);
    }
  }

  /** A start the configuration does not set begins at 0. */
  lemma FreshStart(cfg: DeviceConfig, number: nat, key: string)
    requires key in {"startx", "starty"} && key !in DeviceConfigOf(cfg, DeviceId(Kind, number))
    ensures key in InitialState(cfg, DeviceId(Kind, number)) && InitialState(cfg, DeviceId(Kind, number))[key] == VInt(0)
  {
    assert CameraDefaults()[key] == VInt(0);
    FreshDefault(cfg, number, key, VInt(0));
  }

  /** The initial state's horizontal start and size. */
  lemma FreshAxisX(cfg: DeviceConfig, number: nat)
    requires "numx" !in DeviceConfigOf(cfg, DeviceId(Kind, number)) && "startx" !in DeviceConfigOf(cfg, DeviceId(Kind, number))
    ensures var init := InitialState(cfg, DeviceId(Kind, number));
      && "startx" in init && init["startx"] == VInt(0)
      && "numx" in init && init["numx"] == Get(DeviceConfigOf(cfg, DeviceId(Kind, number)), "cameraxsize", VInt(1024))
  {
    CameraInitialGeometry(cfg, number);
    FreshStart(cfg, number, "startx");
  }

  /** The initial state's vertical start and size. */
  lemma FreshAxisY(cfg: DeviceConfig, number: nat)
    requires "numy" !in DeviceConfigOf(cfg, DeviceId(Kind, number)) && "starty" !in DeviceConfigOf(cfg, DeviceId(Kind, number))
    ensures var init := InitialState(cfg, DeviceId(Kind, number));
      && "starty" in init && init["starty"] == VInt(0)
      && "numy" in init && init["numy"] == Get(DeviceConfigOf(cfg, DeviceId(Kind, number)), "cameraysize", VInt(1024))
  {
    CameraInitialGeometry(cfg, number);
    FreshStart(cfg, number, "starty");
  }

  /** An accepted binning write is what the binning getter reads back; the other axis keeps its binning. */
  lemma BinWriteThenRead(conf: Props, cur: Props, axis: Axis, bin: int)
    requires Decide(conf, cur, SetBin(axis, bin)).Done?
    ensures var after := Apply(cur, Decide(conf, cur, SetBin(axis, bin)));
      && Decide(conf, after, ReadProperty(Bin(axis))).value == Some(VInt(bin))
      && Get(after, AxisKey("bin", Other(axis)), VInt(1)) == Get(cur, AxisKey("bin", Other(axis)), VInt(1))
  {
    AxisKeysDiffer("bin", "bin", axis, Other(axis));
  }

  /** An accepted subframe size is what the size getter reads back; the other axis keeps its size. */
  lemma SizeWriteThenRead(conf: Props, cur: Props, axis: Axis, size: int)
    requires Decide(conf, cur, SetSize(axis, size)).Done?
    ensures var after := Apply(cur, Decide(conf, cur, SetSize(axis, size)));
      && Decide(conf, after, Size(axis)).value == Some(VInt(size))
      && SizeOf(conf, after, Other(axis)) == SizeOf(conf, cur, Other(axis))
  {
    AxisKeysDiffer("num", "num", axis, Other(axis));
  }

  /** An accepted subframe start is what the start getter reads back; the other axis keeps its start. */
  lemma StartWriteThenRead(conf: Props, cur: Props, axis: Axis, start: int)
    requires Decide(conf, cur, SetStart(axis, start)).Done?
    ensures var after := Apply(cur, Decide(conf, cur, SetStart(axis, start)));
      && Decide(conf, after, ReadProperty(Start(axis))).value == Some(VInt(start))
      && StartOf(after, Other(axis)) == StartOf(cur, Other(axis))
  {
    AxisKeysDiffer("start", "start", axis, Other(axis));
  }

  /**
   * `setccdtemperature` sets both the target and the sensor temperature at
   * once, and the heat sink then reads five degrees above it.
   */
  lemma TemperatureSetterSetsBoth(conf: Props, cur: Props, t: real)
    requires Decide(conf, cur, SetCcdTemperature(t)).Done?
    ensures var after := Apply(cur, Decide(conf, cur, SetCcdTemperature(t)));
      && Decide(conf, after, ReadProperty(CcdTemperature)).value == Some(VReal(t))
      && Decide(conf, after, ReadProperty(TargetCcdTemperature)).value == Some(VReal(t))
      && Decide(conf, after, HeatSinkTemperature).value == Some(VReal(t + 5.0))
  {
    var d := Decide(conf, cur, SetCcdTemperature(t));
    assert d == Done(map["setccdtemperature" := VReal(t), "ccdtemperature" := VReal(t)], None);
    var after := Apply(cur, d);
    assert after["ccdtemperature"] == VReal(t) && after["setccdtemperature"] == VReal(t);
  }

  /** What a successful `imagearray` writes: idle, no image ready, no progress; the image itself stays. */
  function DownloadPatch(): Props
  {
    map["camera_state" := VInt(CameraIdle), "image_ready" := VBool(false), "percentcompleted" := VInt(0)]
  }

  /** The stored image, None when there is none. */
  function ImageData(cur: Props): Value
  {
    Get(cur, "image_data", VNone)
  }

  /**
   * `imagearray`: 0x40D exactly when the state holds no image; otherwise
   * the camera returns to idle and the image is kept.
   */
  function ImageArrayDecision(cur: Props): (d: Decision)
    ensures d.Raise? <==> ImageData(cur) == VNone
    ensures d.Raise? ==> RaisesCode(d, 0x40D)
    ensures d.Done? ==> d.patch == DownloadPatch() && d.value == None
  {
    if ImageData(cur) == VNone then AlpacaRaise(0x40D, "No image data available")
    else Done(DownloadPatch(), None)
  }

  /**
   * A download does not consume the image: a second download succeeds with
   * the same image and the same dimensions, so it streams the same body.
   */
  lemma DownloadsRepeat(cur: Props)
    requires ImageArrayDecision(cur).Done?
    ensures var after := Apply(cur, ImageArrayDecision(cur));
      && ImageArrayDecision(after).Done?
      && ImageData(after) == ImageData(cur)
      && Get(after, "numx", VNone) == Get(cur, "numx", VNone)
      && Get(after, "numy", VNone) == Get(cur, "numy", VNone)
      && InState(after, CameraIdle) && after["image_ready"] == VBool(false)
  {
  }

  /**
   * `abortexposure` (when the camera can abort) forces idle from any state:
   * no image is ready, a download is refused with 0x40D, and a new exposure
   * is no longer refused as busy.
   */
  lemma AbortForcesIdle(conf: Props, cur: Props, duration: real)
    requires !Lacks(conf, CanAbortExposure)
    ensures var after := Apply(cur, Decide(conf, cur, AbortExposure));
      && InState(after, CameraIdle) && after["image_ready"] == VBool(false)
      && RaisesCode(ImageArrayDecision(after), 0x40D)
      && !RaisesCode(StartExposureDecision(conf, after, duration), 0x40C)
      && OnlyChanged(cur, after, AbortPatch().Keys)
  {
    var after := Apply(cur, Decide(conf, cur, AbortExposure));
    assert after["image_data"] == VNone;
    assert after["camera_state"] == VInt(CameraIdle);
  }

  /** `stopexposure` moves an exposing camera to reading and leaves any other camera as it was. */
  lemma StopOnlyFromExposing(conf: Props, cur: Props)
    requires Decide(conf, cur, StopExposure).Done?
    ensures var after := Apply(cur, Decide(conf, cur, StopExposure));
      && (InState(cur, CameraExposing) ==> after == cur["camera_state" := VInt(CameraReading)])
      && (!InState(cur, CameraExposing) ==> after == cur)
  {
    assert Merge(cur, map[]) == cur;
  }

  /** What `startexposure` hands to the background task when it accepts. */
  datatype ExposureRequest = ExposureRequest(number: nat, duration: real, light: bool)

  /**
   * Guard, read, decide, merge, reply; an accepted `startexposure` also
   * returns the exposure task it schedules, and nothing else does.
   */
  method Handle(s: Store, number: nat, cmd: Command, rq: Request) returns (r: Reply, task: Option<ExposureRequest>)
    requires s.Valid()
    modifies s`store, s`txid
    ensures s.Valid()
    ensures Served(s.config, old(s.store), s.store, old(s.txid), s.txid, DeviceId(Kind, number),
                   Decide(DeviceConfigOf(s.config, DeviceId(Kind, number)), old(s.Current(DeviceId(Kind, number))), cmd),
                   rq, r)
    ensures task.Some? <==>
      cmd.StartExposure? && Configured(s.config, DeviceId(Kind, number))
      && Decide(DeviceConfigOf(s.config, DeviceId(Kind, number)), old(s.Current(DeviceId(Kind, number))), cmd).Done?
    ensures task.Some? ==> task.value == ExposureRequest(number, cmd.duration, cmd.light)
  {
    var id := DeviceId(Kind, number);
    var conf := DeviceConfigOf(s.config, id);
    task := None;
    if cmd.StartExposure? && ValidateDevice(s.config, id).None? && Decide(conf, s.Current(id), cmd).Done? {
      task := Some(ExposureRequest(number, cmd.duration, cmd.light));
    }
    r := Serve(s, id, cur => Decide(conf, cur, cmd), rq);
  }

  /**
   * `imagearray` (and `imagearrayvariant`, which calls it): refused like
   * any endpoint when the camera is not configured; when there is no image
   * the exception handler replies and draws a transaction id; otherwise the
   * download patch is merged and the body is streamed for the image and the
   * state's `numx`/`numy`, with no transaction id drawn.
   */
  method HandleImageArray(s: Store, number: nat, rq: Request) returns (r: Reply)
    requires s.Valid()
    modifies s`store, s`txid
    ensures s.Valid()
    ensures var id := DeviceId(Kind, number);
            var cur := old(s.Current(id));
      if !Configured(s.config, id) then
        s.store == old(s.store) && s.txid == old(s.txid) + 1 && r == FailureReply(NotFound(id), rq.query, s.txid)
      else if ImageArrayDecision(cur).Raise? then
        && s.store == old(s.store)[id := cur] && s.txid == old(s.txid) + 1
        && r == FailureReply(ImageArrayDecision(cur).failure, rq.query, s.txid)
      else
        && s.store == old(s.store)[id := Merge(cur, DownloadPatch())] && s.txid == old(s.txid)
        && r.ImageStream? && FrameFor(ImageData(cur), Get(cur, "numx", VNone), Get(cur, "numy", VNone), r.frame)
  {
    var id := DeviceId(Kind, number);
    if ValidateDevice(s.config, id).Some? {
      r := Reject(s, id, rq);
      return;
    }
    var state := s.GetDeviceState(id);
    var d := ImageArrayDecision(state);
    if d.Raise? {
      r := HandleException(s, d.failure, rq.query);
      return;
    }
    r := Download(s, id, state);
  }

  /**
   * The successful download: the state is read once more for the
   * dimensions, the download patch is merged and the body is streamed.
   */
  method Download(s: Store, id: DeviceId, state: Props) returns (r: Reply)
    requires s.Valid() && id in s.store && s.store[id] == state
    modifies s`store
    ensures s.Valid()
    ensures s.store == old(s.store)[id := Merge(state, DownloadPatch())]
    ensures r.ImageStream? && FrameFor(ImageData(state), Get(state, "numx", VNone), Get(state, "numy", VNone), r.frame)
  {
    var camState := s.GetDeviceState(id);
    assert camState == state;
    var numx, numy := Get(camState, "numx", VNone), Get(camState, "numy", VNone);
    s.UpdateDeviceState(id, DownloadPatch());
    var frame := Frame(ImageData(state), numx, numy);
    r := ImageStream(frame);
  }
}
