/**
 * The weather station: fourteen readings that clients may set, each
 * range-checked except sky brightness and sky temperature, plus the fixed
 * sensor descriptions.
 */
module ObservingConditions {
  import opened Wrappers
  import opened Values
  import opened State
  import opened Envelope
  import opened Common

  const Kind: string := "observingconditions"

  /** The readings, each stored under its own key. */
  datatype Reading =
    | AveragePeriod | CloudCover | DewPoint | Humidity | Pressure | RainRate | SkyBrightness
    | SkyQuality | SkyTemperature | StarFwhm | Temperature | WindDirection | WindGust | WindSpeed

  datatype Command =
    | Read(reading: Reading)
    | Write(reading: Reading, value: real)
    | Refresh
    | SensorDescription(sensorName: string)
    | TimeSinceLastUpdate(sensorName: string)

  /** The state key of a reading. */
  function Key(g: Reading): string
  {
    match g
    case AveragePeriod => "averageperiod"
    case CloudCover => "cloudcover"
    case DewPoint => "dewpoint"
    case Humidity => "humidity"
    case Pressure => "pressure"
    case RainRate => "rainrate"
    case SkyBrightness => "skybrightness"
    case SkyQuality => "skyquality"
    case SkyTemperature => "skytemperature"
    case StarFwhm => "starfwhm"
    case Temperature => "temperature"
    case WindDirection => "winddirection"
    case WindGust => "windgust"
    case WindSpeed => "windspeed"
  }

  /** Distinct readings are stored under distinct keys. */
  lemma KeysDistinct(g: Reading, h: Reading)
    requires g != h
    ensures Key(g) != Key(h)
  {
  }

  /** What a getter reports when its key is missing from the state. */
  function ReadDefault(g: Reading): real
  {
    match g
    case AveragePeriod => 60.0
    case CloudCover => 0.2
    case DewPoint => 5.0
    case Humidity => 60.0
    case Pressure => 1013.25
    case RainRate => 0.0
    case SkyBrightness => 18.5
    case SkyQuality => 20.0
    case SkyTemperature => -10.0
    case StarFwhm => 2.5
    case Temperature => 15.0
    case WindDirection => 180.0
    case WindGust => 5.0
    case WindSpeed => 3.0
  }

  /** The values a setter accepts, as a table. */
  datatype Interval = Closed(lo: real, hi: real) | RightOpen(lo: real, hi: real) | Positive | Anything

  predicate InInterval(v: real, i: Interval)
  {
    match i
    case Closed(lo, hi) => lo <= v <= hi
    case RightOpen(lo, hi) => lo <= v < hi
    case Positive => v > 0.0
    case Anything => true
  }

  function Accepted(g: Reading): Interval
  {
    match g
    case AveragePeriod => Positive
    case CloudCover => Closed(0.0, 1.0)
    case DewPoint => Closed(-50.0, 50.0)
    case Humidity => Closed(0.0, 100.0)
    case Pressure => Closed(800.0, 1200.0)
    case RainRate => Closed(0.0, 100.0)
    case SkyBrightness => Anything
    case SkyQuality => Closed(15.0, 25.0)
    case SkyTemperature => Anything
    case StarFwhm => Closed(0.5, 10.0)
    case Temperature => Closed(-50.0, 50.0)
    case WindDirection => RightOpen(0.0, 360.0)
    case WindGust => Closed(0.0, 150.0)
    case WindSpeed => Closed(0.0, 100.0)
  }

  /** Each setter's own rejection test, with its message. */
  function Rejection(g: Reading, v: real): Option<string>
  {
    match g
    case AveragePeriod => if v <= 0.0 then Some("Average period must be positive") else None
    case CloudCover => if v < 0.0 || v > 1.0 then Some("Cloud cover must be between 0.0 and 1.0") else None
    case DewPoint =>
      if v < -50.0 || v > 50.0 then Some("Dew point must be between -50.0°C and 50.0°C") else None
    case Humidity =>
      if v < 0.0 || v > 100.0 then Some("Humidity must be between 0.0% and 100.0%") else None
    case Pressure =>
      if v < 800.0 || v > 1200.0 then Some("Pressure must be between 800.0 and 1200.0 hPa") else None
    case RainRate =>
      if v < 0.0 || v > 100.0 then Some("Rain rate must be between 0.0 and 100.0 mm/hr") else None
    case SkyBrightness => None
    case SkyQuality =>
      if v < 15.0 || v > 25.0 then Some("Sky quality must be between 15.0 and 25.0 mag/arcsec²") else None
    case SkyTemperature => None
    case StarFwhm =>
      if v < 0.5 || v > 10.0 then Some("Star FWHM must be between 0.5 and 10.0 arcseconds") else None
    case Temperature =>
      if v < -50.0 || v > 50.0 then Some("Temperature must be between -50.0°C and 50.0°C") else None
    case WindDirection =>
      if v < 0.0 || v >= 360.0 then Some("Wind direction must be between 0.0 and 359.9 degrees") else None
    case WindGust =>
      if v < 0.0 || v > 150.0 then Some("Wind gust must be between 0.0 and 150.0 m/s") else None
    case WindSpeed =>
      if v < 0.0 || v > 100.0 then Some("Wind speed must be between 0.0 and 100.0 m/s") else None
  }

  /** The sensor names `sensordescription` knows, with their descriptions. */
  const Descriptions: map<string, string> := map[
    "CloudCover" := "Cloud coverage sensor (0-1 fraction)",
    "DewPoint" := "Dew point temperature sensor (°C)",
    "Humidity" := "Relative humidity sensor (%)",
    "Pressure" := "Atmospheric pressure sensor (hPa)",
    "RainRate" := "Rain rate sensor (mm/hr)",
    "SkyBrightness" := "Sky brightness sensor (mag/arcsec²)",
    "SkyQuality" := "Sky quality sensor (mag/arcsec²)",
    "SkyTemperature" := "Sky temperature sensor (°C)",
    "StarFWHM" := "Star FWHM sensor (arcseconds)",
    "Temperature" := "Ambient temperature sensor (°C)",
    "WindDirection" := "Wind direction sensor (degrees)",
    "WindGust" := "Wind gust sensor (m/s)",
    "WindSpeed" := "Wind speed sensor (m/s)"
  ]

  /** `sensor_descriptions.get(SensorName, "Unknown sensor")`. */
  function Description(sensorName: string): (r: string)
    ensures sensorName !in Descriptions ==> r == "Unknown sensor"
    ensures sensorName in Descriptions ==> r == Descriptions[sensorName] && r != "Unknown sensor"
  {
    if sensorName in Descriptions then Descriptions[sensorName] else "Unknown sensor"
  }

  /** What each weather station endpoint decides on state `cur`. */
  function Decide(cur: Props, cmd: Command): (d: Decision)
    ensures d.Raise? ==> cmd.Write? && RaisesCode(d, 0x402)
    ensures d.Done? && d.patch != map[] ==> cmd.Write? && d.patch.Keys == {Key(cmd.reading)}
    ensures (cmd.Read? || cmd.SensorDescription? || cmd.TimeSinceLastUpdate?) ==> d.Done? && d.patch == map[] && d.value.Some?
  {
    match cmd
    case Read(g) => Done(map[], Some(Get(cur, Key(g), VReal(ReadDefault(g)))))
    case Write(g, v) =>
      (match Rejection(g, v)
       case Some(message) => Raise(OutOfRange(message))
       case None => Done(map[Key(g) := VReal(v)], None))
    case Refresh => Done(map[], None)
    case SensorDescription(name) => Done(map[], Some(VStr(Description(name))))
    case TimeSinceLastUpdate(_) => Done(map[], Some(VReal(1.0)))
  }

  /**
   * Every setter accepts exactly the values of its interval in the table
   * (a closed range, [0, 360) for the wind direction, a positive average
   * period, anything for sky brightness and sky temperature).
   */
  lemma SettersCheckTheirIntervals(g: Reading, v: real)
    ensures Rejection(g, v).None? <==> InInterval(v, Accepted(g))
  {
  }

  /**
   * A write outside the interval raises 0x402 and changes nothing; a write
   * inside it is read back and changes only its own reading.
   */
  lemma WriteThenRead(cur: Props, g: Reading, v: real)
    ensures var d := Decide(cur, Write(g, v));
      && (d.Raise? <==> !InInterval(v, Accepted(g)))
      && (d.Raise? ==> RaisesCode(d, 0x402) && Apply(cur, d) == cur)
      && (d.Done? ==>
            Decide(Apply(cur, d), Read(g)).value == Some(VReal(v)) && OnlyChanged(cur, Apply(cur, d), {Key(g)}))
  {
    SettersCheckTheirIntervals(g, v);
  }

  /** A write to one reading does not change what another reading reports. */
  lemma WritesAreIndependent(cur: Props, g: Reading, h: Reading, v: real)
    requires g != h
    ensures Decide(Apply(cur, Decide(cur, Write(g, v))), Read(h)) == Decide(cur, Read(h))
  {
    KeysDistinct(g, h);
  }

  /**
   * `sensordescription` and `timesincelastupdate` never raise; an unknown
   * name is described as "Unknown sensor"; `refresh` changes nothing.
   */
  lemma LookupsNeverFail(cur: Props, name: string)
    ensures Decide(cur, SensorDescription(name)).Done?
    ensures name !in Descriptions ==> Decide(cur, SensorDescription(name)).value == Some(VStr("Unknown sensor"))
    ensures Decide(cur, TimeSinceLastUpdate(name)).value == Some(VReal(1.0))
    ensures Apply(cur, Decide(cur, Refresh)) == cur
  {
  }

  /** Guard, read, decide, merge, reply. */
  method Handle(s: Store, number: nat, cmd: Command, rq: Request) returns (r: Reply)
    requires s.Valid()
    modifies s`store, s`txid
    ensures s.Valid()
    ensures Served(s.config, old(s.store), s.store, old(s.txid), s.txid, DeviceId(Kind, number),
                   Decide(old(s.Current(DeviceId(Kind, number))), cmd), rq, r)
  {
    r := Serve(s, DeviceId(Kind, number), cur => Decide(cur, cmd), rq);
  }
}
