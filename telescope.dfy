/**
 * The telescope mount: properties read from the device state with a
 * per-endpoint default, range- and enumeration-checked setters, and the
 * slewing, syncing, parking, homing and guiding actions, each of which
 * completes at once.
 */
module Telescope {
  import opened Wrappers
  import opened Values
  import opened Text
  import opened State
  import opened Envelope
  import opened Common

  const Kind: string := "telescope"

  // The unit helpers at the top of the telescope router.

  /** `hours % 24.0`: an hour angle brought into [0, 24). */
  function NormalizeHours(hours: real): (r: real)
    ensures 0.0 <= r < 24.0
  {
    FloatMod(hours, 24.0)
  }

  /** An hour angle already in [0, 24) is kept. */
  lemma NormalizeHoursKeepsRange(hours: real)
    requires 0.0 <= hours < 24.0
    ensures NormalizeHours(hours) == hours
  {
    FloatModOfInRange(hours, 24.0);
  }

  /** `max(-90.0, min(90.0, degrees))`. */
  function NormalizeDegrees(degrees: real): (r: real)
    ensures -90.0 <= r <= 90.0
    ensures -90.0 <= degrees <= 90.0 ==> r == degrees
    ensures degrees > 90.0 ==> r == 90.0
    ensures degrees < -90.0 ==> r == -90.0
  {
    var upper := if 90.0 < degrees then 90.0 else degrees;
    if -90.0 > upper then -90.0 else upper
  }

  function HoursToDegrees(hours: real): real
  {
    hours * 15.0
  }

  function DegreesToHours(degrees: real): real
  {
    degrees / 15.0
  }

  /** The two conversions undo each other (on the reals; float rounding is not modelled). */
  lemma ConversionsAreInverse(x: real)
    ensures DegreesToHours(HoursToDegrees(x)) == x
    ensures HoursToDegrees(DegreesToHours(x)) == x
  {
  }

  /** The properties with a plain getter, each read from the state. */
  datatype Property =
    | AlignmentMode | Altitude | ApertureDiameter | AtHome | AtPark | Azimuth
    | CanFindHome | CanPark | CanPulseGuide | CanSetDeclinationRate | CanSetGuideRates | CanSetPark
    | CanSetPierSide | CanSetRightAscensionRate | CanSetTracking | CanSlew | CanSlewAltAz
    | CanSlewAltAzAsync | CanSlewAsync | CanSync | CanSyncAltAz | CanUnpark
    | Declination | DeclinationRate | DoesRefraction | EquatorialSystem | FocalLength
    | GuideRateDeclination | GuideRateRightAscension | IsPulseGuiding | RightAscension
    | RightAscensionRate | SideOfPier | SiteElevation | SiteLatitude | SiteLongitude | Slewing
    | SlewSettleTime | TargetDeclination | TargetRightAscension | Tracking | TrackingRate | TrackingRates

  /** The state key a getter reads, and what it answers when the key is missing. */
  function Key(p: Property): string
  {
    match p
    case AlignmentMode => "alignmentmode"
    case Altitude => "altitude"
    case ApertureDiameter => "aperturediameter"
    case AtHome => "athome"
    case AtPark => "atpark"
    case Azimuth => "azimuth"
    case CanFindHome => "canfindhome"
    case CanPark => "canpark"
    case CanPulseGuide => "canpulseguide"
    case CanSetDeclinationRate => "cansetdeclinationrate"
    case CanSetGuideRates => "cansetguiderates"
    case CanSetPark => "cansetpark"
    case CanSetPierSide => "cansetpierside"
    case CanSetRightAscensionRate => "cansetrightascensionrate"
    case CanSetTracking => "cansettracking"
    case CanSlew => "canslew"
    case CanSlewAltAz => "canslewaltaz"
    case CanSlewAltAzAsync => "canslewaltazasync"
    case CanSlewAsync => "canslewasync"
    case CanSync => "cansync"
    case CanSyncAltAz => "cansyncaltaz"
    case CanUnpark => "canunpark"
    case Declination => "declination"
    case DeclinationRate => "declinationrate"
    case DoesRefraction => "doesrefraction"
    case EquatorialSystem => "equatorialsystem"
    case FocalLength => "focallength"
    case GuideRateDeclination => "guideratedeclination"
    case GuideRateRightAscension => "guideraterightascension"
    case IsPulseGuiding => "ispulseguiding"
    case RightAscension => "rightascension"
    case RightAscensionRate => "rightascensionrate"
    case SideOfPier => "sideofpier"
    case SiteElevation => "siteelevation"
    case SiteLatitude => "sitelatitude"
    case SiteLongitude => "sitelongitude"
    case Slewing => "slewing"
    case SlewSettleTime => "slewsettletime"
    case TargetDeclination => "targetdeclination"
    case TargetRightAscension => "targetrightascension"
    case Tracking => "tracking"
    case TrackingRate => "trackingrate"
    case TrackingRates => "trackingrates"
  }

  const AlignGermanPolar: int := 2
  const EquatorialTopocentric: int := 1

  function ReadDefault(p: Property): Value
  {
    match p
    case AlignmentMode => VInt(AlignGermanPolar)
    case ApertureDiameter => VReal(8.0)
    case AtHome => VBool(false)
    case AtPark => VBool(false)
    case DoesRefraction => VBool(true)
    case EquatorialSystem => VInt(EquatorialTopocentric)
    case FocalLength => VReal(1000.0)
    case GuideRateDeclination => VReal(15.0)
    case GuideRateRightAscension => VReal(15.0)
    case IsPulseGuiding => VBool(false)
    case SideOfPier => VInt(PierUnknown)
    case Slewing => VBool(false)
    case Tracking => VBool(false)
    case TrackingRate => VInt(DriveSidereal)
    case TrackingRates => VList([VStr("0"), VStr("1"), VStr("2"), VStr("3")])
    case CanFindHome => VBool(true)
    case CanPark => VBool(true)
    case CanPulseGuide => VBool(true)
    case CanSetDeclinationRate => VBool(true)
    case CanSetGuideRates => VBool(true)
    case CanSetPark => VBool(true)
    case CanSetPierSide => VBool(true)
    case CanSetRightAscensionRate => VBool(true)
    case CanSetTracking => VBool(true)
    case CanSlew => VBool(true)
    case CanSlewAltAz => VBool(true)
    case CanSlewAltAzAsync => VBool(true)
    case CanSlewAsync => VBool(true)
    case CanSync => VBool(true)
    case CanSyncAltAz => VBool(true)
    case CanUnpark => VBool(true)
    case _ => VReal(0.0)
  }

  /** The numeric settings with a setter of their own. */
  datatype Setting =
    | SetDeclinationRate | SetGuideRateDeclination | SetGuideRateRightAscension | SetRightAscensionRate
    | SetSiteElevation | SetSiteLatitude | SetSiteLongitude | SetSlewSettleTime
    | SetTargetDeclination | SetTargetRightAscension

  /** The property a setter writes. */
  function Target(g: Setting): (p: Property)
  {
    match g
    case SetDeclinationRate => DeclinationRate
    case SetGuideRateDeclination => GuideRateDeclination
    case SetGuideRateRightAscension => GuideRateRightAscension
    case SetRightAscensionRate => RightAscensionRate
    case SetSiteElevation => SiteElevation
    case SetSiteLatitude => SiteLatitude
    case SetSiteLongitude => SiteLongitude
    case SetSlewSettleTime => SlewSettleTime
    case SetTargetDeclination => TargetDeclination
    case SetTargetRightAscension => TargetRightAscension
  }

  const RightAscensionMessage: string := "Right ascension must be between 0 and 24 hours"
  const DeclinationMessage: string := "Declination must be between -90 and +90 degrees"

  /** Each setter's own test, with its message. */
  function Rejection(g: Setting, v: real): Option<string>
  {
    match g
    case SetGuideRateDeclination => if v < 0.0 then Some("Guide rate must be positive") else None
    case SetGuideRateRightAscension => if v < 0.0 then Some("Guide rate must be positive") else None
    case SetSiteLatitude =>
      if v < -90.0 || v > 90.0 then Some("Latitude must be between -90 and +90 degrees") else None
    case SetSiteLongitude =>
      if v < -180.0 || v > 180.0 then Some("Longitude must be between -180 and +180 degrees") else None
    case SetSlewSettleTime => if v < 0.0 then Some("Slew settle time cannot be negative") else None
    case SetTargetDeclination => if v < -90.0 || v > 90.0 then Some(DeclinationMessage) else None
    case SetTargetRightAscension => if v < 0.0 || v >= 24.0 then Some(RightAscensionMessage) else None
    case _ => None
  }

  /** The values each setter accepts, as a table. */
  datatype Interval = Closed(lo: real, hi: real) | RightOpen(lo: real, hi: real) | AtLeast(lo: real) | Anything

  predicate InInterval(v: real, i: Interval)
  {
    match i
    case Closed(lo, hi) => lo <= v <= hi
    case RightOpen(lo, hi) => lo <= v < hi
    case AtLeast(lo) => lo <= v
    case Anything => true
  }

  function Accepted(g: Setting): Interval
  {
    match g
    case SetDeclinationRate => Anything
    case SetGuideRateDeclination => AtLeast(0.0)
    case SetGuideRateRightAscension => AtLeast(0.0)
    case SetRightAscensionRate => Anything
    case SetSiteElevation => Anything
    case SetSiteLatitude => Closed(-90.0, 90.0)
    case SetSiteLongitude => Closed(-180.0, 180.0)
    case SetSlewSettleTime => AtLeast(0.0)
    case SetTargetDeclination => Closed(-90.0, 90.0)
    case SetTargetRightAscension => RightOpen(0.0, 24.0)
  }

  /** The double nearest to pi, as `math.pi` holds it. */
  const Pi: real := 3.141592653589793

  /** The values the enumerated arguments may take. */
  predicate ValidPierSide(i: int) { i in {PierEast, PierWest, PierUnknown} }
  predicate ValidTrackingRate(i: int) { i in {DriveSidereal, DriveLunar, DriveSolar, DriveKing} }
  predicate ValidAxis(i: int) { i in {AxisPrimary, AxisSecondary, AxisTertiary} }
  predicate ValidGuideDirection(i: int) { i in {GuideNorth, GuideSouth, GuideEast, GuideWest} }

  /**
   * Every endpoint. The clock readings `siderealtime` and `utcdate` take,
   * and the timestamp the asynchronous coordinate slew records, are
   * arguments.
   */
  datatype Command =
    | Read(property: Property)
    | Write(setting: Setting, value: real)
    | ApertureArea
    | SiderealTime(unixSeconds: real)
    | UtcDate(isoNow: string)
    | SetDoesRefraction(doesRefraction: bool)
    | SetTracking(tracking: bool)
    | SetSideOfPier(sideOfPier: int)
    | SetTrackingRate(trackingRate: int)
    | SetUtcDate(utcDate: string)
    | AbortSlew
    | AxisRates(axis: int)
    | CanMoveAxis(axis: int)
    | DestinationSideOfPier(rightAscension: real, declination: real)
    | FindHome
    | MoveAxis(axis: int, rate: real)
    | Park
    | PulseGuide(direction: int, duration: int)
    | SetPark
    | SlewToAltAz(azimuth: real, altitude: real)
    | SlewToAltAzAsync(azimuth: real, altitude: real)
    | SlewToCoordinates(rightAscension: real, declination: real)
    | SlewToCoordinatesAsync(rightAscension: real, declination: real, isoNow: string)
    | SlewToTarget
    | SlewToTargetAsync
    | SyncToAltAz(azimuth: real, altitude: real)
    | SyncToCoordinates(rightAscension: real, declination: real)
    | SyncToTarget
    | Unpark

  /** The shared right ascension then declination check of the coordinate actions. */
  function CheckCoordinates(ra: real, dec: real): (f: Option<Failure>)
    ensures f.None? <==> 0.0 <= ra < 24.0 && -90.0 <= dec <= 90.0
  {
    if ra < 0.0 || ra >= 24.0 then Some(OutOfRange(RightAscensionMessage))
    else if dec < -90.0 || dec > 90.0 then Some(OutOfRange(DeclinationMessage))
    else None
  }

  /** The shared altitude then azimuth check of the horizon actions. */
  function CheckAltAz(az: real, alt: real): (f: Option<Failure>)
    ensures f.None? <==> 0.0 <= alt <= 90.0 && 0.0 <= az < 360.0
  {
    if alt < 0.0 || alt > 90.0 then Some(OutOfRange("Altitude must be between 0 and 90 degrees"))
    else if az < 0.0 || az >= 360.0 then Some(OutOfRange("Azimuth must be between 0 and 360 degrees"))
    else None
  }

  /** Raise the failure if there is one, otherwise apply the patch. */
  function Guarded(f: Option<Failure>, patch: Props): (d: Decision)
    ensures d.Done? <==> f.None?
    ensures d.Done? ==> d == Done(patch, None)
  {
    if f.Some? then Raise(f.value) else Done(patch, None)
  }

  /** Whether both targets are set: `slewtotarget` and its variants refuse a target that is None. */
  function TargetCheck(cur: Props): (f: Option<Failure>)
    ensures f.None? <==> Get(cur, "targetrightascension", VNone) != VNone && Get(cur, "targetdeclination", VNone) != VNone
  {
    if Get(cur, "targetrightascension", VNone) == VNone || Get(cur, "targetdeclination", VNone) == VNone
    then Some(OutOfRange("Target coordinates not set"))
    else None
  }

  /**
   * `slewtotarget`: with both targets set the mount is at the target, not
   * slewing and not parked; otherwise 0x402 and nothing changes.
   */
  function SlewToTargetDecision(cur: Props): (d: Decision)
    ensures d.Done? <==> Get(cur, "targetrightascension", VNone) != VNone && Get(cur, "targetdeclination", VNone) != VNone
    ensures d.Raise? ==> RaisesCode(d, 0x402)
    ensures d.Done? ==> d.value == None && d.patch.Keys == {"rightascension", "declination", "slewing", "atpark"}
    ensures d.Done? ==> OnlyChanged(cur, Apply(cur, d), {"rightascension", "declination", "slewing", "atpark"})
    ensures d.Done? ==> var after := Apply(cur, d);
      && after["rightascension"] == Get(cur, "targetrightascension", VNone)
      && after["declination"] == Get(cur, "targetdeclination", VNone)
      && after["slewing"] == VBool(false) && after["atpark"] == VBool(false)
  {
    Guarded(TargetCheck(cur), map[
      "rightascension" := Get(cur, "targetrightascension", VNone), "declination" := Get(cur, "targetdeclination", VNone),
      "slewing" := VBool(false), "atpark" := VBool(false)])
  }

  /** `slewtotargetasync`: with both targets set the mount starts slewing and is no longer parked; the position stays. */
  function SlewToTargetAsyncDecision(cur: Props): (d: Decision)
    ensures d.Done? <==> Get(cur, "targetrightascension", VNone) != VNone && Get(cur, "targetdeclination", VNone) != VNone
    ensures d.Raise? ==> RaisesCode(d, 0x402)
    ensures d.Done? ==> d.value == None && d.patch.Keys == {"slewing", "atpark"}
    ensures d.Done? ==> OnlyChanged(cur, Apply(cur, d), {"slewing", "atpark"})
    ensures d.Done? ==> Apply(cur, d)["slewing"] == VBool(true) && Apply(cur, d)["atpark"] == VBool(false)
  {
    Guarded(TargetCheck(cur), map["slewing" := VBool(true), "atpark" := VBool(false)])
  }

  /** `synctotarget`: with both targets set the position becomes the target, and nothing else changes. */
  function SyncToTargetDecision(cur: Props): (d: Decision)
    ensures d.Done? <==> Get(cur, "targetrightascension", VNone) != VNone && Get(cur, "targetdeclination", VNone) != VNone
    ensures d.Raise? ==> RaisesCode(d, 0x402)
    ensures d.Done? ==> d.value == None && d.patch.Keys == {"rightascension", "declination"}
    ensures d.Done? ==> OnlyChanged(cur, Apply(cur, d), {"rightascension", "declination"})
    ensures d.Done? ==> (Apply(cur, d)["rightascension"] == Get(cur, "targetrightascension", VNone)
      && Apply(cur, d)["declination"] == Get(cur, "targetdeclination", VNone))
  {
    Guarded(TargetCheck(cur), map[
      "rightascension" := Get(cur, "targetrightascension", VNone), "declination" := Get(cur, "targetdeclination", VNone)])
  }

  /**
   * `pulseguide`: the direction, then the duration, is checked; the mount
   * then moves by Duration / 1000 times the guide rate (north and south in
   * declination, east and west in right ascension, scaled by 1/15), and
   * `ispulseguiding` ends False. A coordinate or rate that is not a number
   * makes the arithmetic raise.
   */
  function PulseGuideDecision(cur: Props, direction: int, duration: int): (d: Decision)
    ensures d.Done? ==> d.patch.Keys == {"rightascension", "declination", "ispulseguiding"}
  {
    if !ValidGuideDirection(direction) then Raise(OutOfRange("Invalid guide direction"))
    else if duration < 0 then Raise(OutOfRange("Duration must be positive"))
    else
      var ra := Get(cur, "rightascension", VReal(0.0));
      var dec := Get(cur, "declination", VReal(0.0));
      var seconds := duration as real / 1000.0;
      var rate := if direction in {GuideNorth, GuideSouth} then Get(cur, "guideratedeclination", VReal(15.0))
                  else Get(cur, "guideraterightascension", VReal(15.0));
      var moving := if direction in {GuideNorth, GuideSouth} then dec else ra;
      if Num(moving).None? || Num(rate).None? then Raise(TypeError())
      else
        var step := if direction in {GuideNorth, GuideSouth} then seconds * Num(rate).value
                    else seconds * Num(rate).value / 15.0;
        var moved := VReal(if direction in {GuideNorth, GuideEast} then Num(moving).value + step
                           else Num(moving).value - step);
        var patch := if direction in {GuideNorth, GuideSouth} then map["rightascension" := ra, "declination" := moved]
                     else map["rightascension" := moved, "declination" := dec];
        Done(patch["ispulseguiding" := VBool(false)], None)
  }

  /** A key built as `"axis" + ...` starts with "axis". */
  function AxisKey(prefix: string, axis: int, suffix: string): (k: string)
    ensures |k| >= |prefix| && k[..|prefix|] == prefix
  {
    prefix + IntToString(axis) + suffix
  }

  /** `moveaxis`: store the rate under `axis{Axis}rate`. */
  function MoveAxisDecision(axis: int, rate: real): (d: Decision)
    ensures d.Done? ==> d.patch.Keys == {AxisKey("axis", axis, "rate")}
  {
    if !ValidAxis(axis) then Raise(OutOfRange("Invalid axis"))
    else Done(map[AxisKey("axis", axis, "rate") := VReal(rate)], None)
  }

  /** `park`: back to the stored park position, or (180, 45) when none was stored. */
  function ParkDecision(cur: Props): (d: Decision)
    ensures d.Done? && d.value == None
  {
    Done(map[
      "atpark" := VBool(true), "slewing" := VBool(false), "tracking" := VBool(false),
      "rightascension" := Get(cur, "parkrightascension", VReal(180.0)),
      "declination" := Get(cur, "parkdeclination", VReal(45.0))
    ], None)
  }

  /** `setpark`: the current position becomes the park position. */
  function SetParkDecision(cur: Props): (d: Decision)
    ensures d.Done? && d.patch.Keys == {"parkrightascension", "parkdeclination"}
  {
    Done(map[
      "parkrightascension" := Get(cur, "rightascension", VReal(0.0)),
      "parkdeclination" := Get(cur, "declination", VReal(0.0))
    ], None)
  }

  /** The actions after which `slewing` is False. */
  predicate ClearsSlewing(cmd: Command)
  {
    cmd.AbortSlew? || cmd.FindHome? || cmd.Park? || cmd.SlewToAltAz? || cmd.SlewToCoordinates?
    || cmd.SlewToCoordinatesAsync? || cmd.SlewToTarget?
  }

  /** A getter: the stored value, or the getter's default; the state is left as it is. */
  function ReadDecision(cur: Props, p: Property): (d: Decision)
    ensures d.Done? && d.patch == map[] && Apply(cur, d) == cur
    ensures d.value == Some(if Key(p) in cur then cur[Key(p)] else ReadDefault(p))
  {
    Done(map[], Some(Get(cur, Key(p), ReadDefault(p))))
  }

  function WriteDecision(g: Setting, v: real): (d: Decision)
    ensures d.Done? ==> d.patch.Keys == {Key(Target(g))}
  {
    match Rejection(g, v)
    case Some(message) => Raise(OutOfRange(message))
    case None => Done(map[Key(Target(g)) := VReal(v)], None)
  }

  /** `aperturearea`: pi (d / 2)^2 of the aperture diameter. */
  function ApertureAreaDecision(cur: Props): (d: Decision)
    ensures d.Done? ==> d.patch == map[] && d.value.Some? && d.value.value.VReal? && d.value.value.r >= 0.0
  {
    var diameter := Get(cur, "aperturediameter", VReal(8.0));
    match Num(diameter)
    case None => Raise(TypeError())
    case Some(x) => Done(map[], Some(VReal(Pi * (x / 2.0) * (x / 2.0))))
  }

  /**
   * `siderealtime`: a simplified local sidereal time, from the Julian day of
   * the clock reading and the site longitude, reduced into [0, 24) hours.
   */
  function SiderealTimeDecision(cur: Props, unixSeconds: real): (d: Decision)
    ensures d.Done? ==> d.patch == map[] && d.value.Some? && d.value.value.VReal?
                        && 0.0 <= d.value.value.r < 24.0
  {
    match Num(Get(cur, "sitelongitude", VReal(0.0)))
    case None => Raise(TypeError())
    case Some(longitude) =>
      var jd := unixSeconds / 86400.0 + 2440587.5;
      var gmst := 18.697374558 + 24.06570982441908 * (jd - 2451545.0);
      Done(map[], Some(VReal(FloatMod(gmst + longitude / 15.0, 24.0))))
  }

  /** The prefix of a key. */
  predicate StartsWith(k: string, prefix: string)
  {
    |k| >= |prefix| && k[..|prefix|] == prefix
  }

  /** The endpoints that only answer. */
  predicate IsQuery(cmd: Command)
  {
    cmd.Read? || cmd.ApertureArea? || cmd.SiderealTime? || cmd.UtcDate? || cmd.AxisRates?
    || cmd.CanMoveAxis? || cmd.DestinationSideOfPier? || cmd.SetUtcDate?
  }

  /** The setters of settings that are not part of the position. */
  predicate IsSetup(cmd: Command)
  {
    cmd.Write? || cmd.SetDoesRefraction? || cmd.SetTracking? || cmd.SetSideOfPier? || cmd.SetTrackingRate?
    || cmd.MoveAxis?
  }

  function QueryDecision(cur: Props, cmd: Command): (d: Decision)
    requires IsQuery(cmd)
    ensures d.Done? ==> d.patch == map[]
  {
    match cmd
    case Read(p) => ReadDecision(cur, p)
    case ApertureArea => ApertureAreaDecision(cur)
    case SiderealTime(t) => SiderealTimeDecision(cur, t)
    case UtcDate(now) => Done(map[], Some(VStr(now)))
    case SetUtcDate(_) => Done(map[], None)
    case AxisRates(axis) =>
      if !ValidAxis(axis) then Raise(OutOfRange("Invalid axis"))
      else Done(map[], Some(Get(cur, AxisKey("axis", axis, "rates"), VList([VStr("0.0"), VStr("1.0"), VStr("2.0")]))))
    case CanMoveAxis(axis) =>
      if !ValidAxis(axis) then Raise(OutOfRange("Invalid axis"))
      else Done(map[], Some(Get(cur, AxisKey("canmoveaxis", axis, ""), VBool(true))))
    case DestinationSideOfPier(ra, _) => Done(map[], Some(VInt(if ra > 12.0 then PierWest else PierEast)))
    case _ => Done(map[], None)
  }

  /** The keys the setup endpoints may write. */
  predicate SetupKey(k: string)
  {
    k in {"doesrefraction", "tracking", "sideofpier", "trackingrate", "declinationrate", "guideratedeclination",
          "guideraterightascension", "rightascensionrate", "siteelevation", "sitelatitude", "sitelongitude",
          "slewsettletime", "targetdeclination", "targetrightascension"}
    || StartsWith(k, "axis")
  }

  function SetupDecision(cmd: Command): (d: Decision)
    requires IsSetup(cmd)
    ensures d.Done? ==> forall k :: k in d.patch ==> SetupKey(k)
  {
    match cmd
    case Write(g, v) =>
      var d := WriteDecision(g, v);
      assert d.Done? ==> d.patch.Keys == {Key(Target(g))};
      d
    case SetDoesRefraction(b) => Done(map["doesrefraction" := VBool(b)], None)
    case SetTracking(b) => Done(map["tracking" := VBool(b)], None)
    case SetSideOfPier(i) =>
      if !ValidPierSide(i) then Raise(OutOfRange("Invalid pier side value"))
      else Done(map["sideofpier" := VInt(i)], None)
    case SetTrackingRate(i) =>
      if !ValidTrackingRate(i) then Raise(OutOfRange("Invalid tracking rate"))
      else Done(map["trackingrate" := VInt(i)], None)
    case MoveAxis(axis, rate) => MoveAxisDecision(axis, rate)
    case _ => Done(map[], None)
  }

  /** The slewing, syncing, parking, homing and guiding actions. */
  function MotionDecision(cur: Props, cmd: Command): (d: Decision)
    requires !IsQuery(cmd) && !IsSetup(cmd)
  {
    match cmd
    case AbortSlew => Done(map["slewing" := VBool(false)], None)
    case FindHome =>
      Done(map["athome" := VBool(true), "slewing" := VBool(false), "rightascension" := VReal(0.0),
               "declination" := VReal(0.0)], None)
    case Park => ParkDecision(cur)
    case PulseGuide(direction, duration) => PulseGuideDecision(cur, direction, duration)
    case SetPark => SetParkDecision(cur)
    case SlewToAltAz(az, alt) =>
      Guarded(CheckAltAz(az, alt), map["azimuth" := VReal(az), "altitude" := VReal(alt),
                                        "slewing" := VBool(false), "atpark" := VBool(false)])
    case SlewToAltAzAsync(az, alt) =>
      Guarded(CheckAltAz(az, alt), map["slewing" := VBool(true), "atpark" := VBool(false)])
    case SlewToCoordinates(ra, dec) =>
      Guarded(CheckCoordinates(ra, dec), map[
        "rightascension" := VReal(ra), "declination" := VReal(dec), "targetrightascension" := VReal(ra),
        "targetdeclination" := VReal(dec), "slewing" := VBool(false), "atpark" := VBool(false)])
    case SlewToCoordinatesAsync(ra, dec, now) =>
      Guarded(CheckCoordinates(ra, dec), map[
        "rightascension" := VReal(ra), "declination" := VReal(dec), "slewing" := VBool(false),
        "atpark" := VBool(false), "last_slew_time" := VStr(now)])
    case SlewToTarget => SlewToTargetDecision(cur)
    case SlewToTargetAsync => SlewToTargetAsyncDecision(cur)
    case SyncToAltAz(az, alt) => Guarded(CheckAltAz(az, alt), map["azimuth" := VReal(az), "altitude" := VReal(alt)])
    case SyncToCoordinates(ra, dec) =>
      Guarded(CheckCoordinates(ra, dec), map["rightascension" := VReal(ra), "declination" := VReal(dec)])
    case SyncToTarget => SyncToTargetDecision(cur)
    case Unpark => Done(map["atpark" := VBool(false)], None)
    case _ => Done(map[], None)
  }

  /** What each telescope endpoint decides on state `cur`. */
  function Decide(cur: Props, cmd: Command): (d: Decision)
    ensures d.Done? && IsQuery(cmd) ==> d.patch == map[]
    ensures d.Done? && IsSetup(cmd) ==> forall k :: k in d.patch ==> SetupKey(k)
  {
    if IsQuery(cmd) then QueryDecision(cur, cmd)
    else if IsSetup(cmd) then SetupDecision(cmd)
    else MotionDecision(cur, cmd)
  }

  /** Every setter accepts exactly the values of its interval in the table. */
  lemma SettersCheckTheirIntervals(g: Setting, v: real)
    ensures Rejection(g, v).None? <==> InInterval(v, Accepted(g))
  {
  }

  /**
   * A setting outside its interval raises 0x402 and changes nothing; one
   * inside it is read back by its getter, and nothing else changes.
   */
  lemma WriteThenRead(cur: Props, g: Setting, v: real)
    ensures var d := Decide(cur, Write(g, v));
      && (d.Raise? <==> !InInterval(v, Accepted(g)))
      && (d.Raise? ==> RaisesCode(d, 0x402) && Apply(cur, d) == cur)
      && (d.Done? ==>
            Decide(Apply(cur, d), Read(Target(g))).value == Some(VReal(v)) && OnlyChanged(cur, Apply(cur, d), {Key(Target(g))}))
  {
    SettersCheckTheirIntervals(g, v);
  }

  /** A pier side outside {-1, 0, 1} is refused, and the values inside are accepted. */
  lemma SideOfPierArgument(cur: Props, i: int)
    ensures Decide(cur, SetSideOfPier(i)).Done? <==> -1 <= i <= 1
  {
  }

  /** A tracking rate outside {0, 1, 2, 3} is refused, and the values inside are accepted. */
  lemma TrackingRateArgument(cur: Props, i: int)
    ensures Decide(cur, SetTrackingRate(i)).Done? <==> 0 <= i <= 3
  {
  }

  /** An axis outside {0, 1, 2} is refused with 0x402 by every axis endpoint; one inside is accepted. */
  lemma AxisArgument(cur: Props, i: int, rate: real)
    ensures !ValidAxis(i) ==>
      && RaisesCode(Decide(cur, AxisRates(i)), 0x402) && RaisesCode(Decide(cur, CanMoveAxis(i)), 0x402)
      && RaisesCode(Decide(cur, MoveAxis(i, rate)), 0x402)
    ensures ValidAxis(i) ==> Decide(cur, MoveAxis(i, rate)).Done? && Decide(cur, CanMoveAxis(i)).Done?
  {
  }

  /** A guide direction outside {0, 1, 2, 3}, or a negative duration, is refused with 0x402. */
  lemma GuideDirectionArgument(cur: Props, i: int, duration: int)
    ensures !(0 <= i <= 3) ==> RaisesCode(Decide(cur, PulseGuide(i, duration)), 0x402)
    ensures 0 <= i <= 3 && duration < 0 ==> RaisesCode(Decide(cur, PulseGuide(i, duration)), 0x402)
  {
    PulseGuideDispatch(cur, i, duration);
  }

  /**
   * `slewtocoordinates` accepts exactly 0 <= ra < 24 and -90 <= dec <= 90;
   * it then puts the mount and both targets on the coordinates, not slewing
   * and not parked, and a refused slew changes nothing.
   */
  lemma SlewToCoordinatesArrives(cur: Props, ra: real, dec: real)
    ensures var d := Decide(cur, SlewToCoordinates(ra, dec));
      && (d.Done? <==> 0.0 <= ra < 24.0 && -90.0 <= dec <= 90.0)
      && (d.Raise? ==> RaisesCode(d, 0x402) && Apply(cur, d) == cur)
      && (d.Done? ==>
            var after := Apply(cur, d);
            && after["rightascension"] == after["targetrightascension"] == VReal(ra)
            && after["declination"] == after["targetdeclination"] == VReal(dec)
            && after["slewing"] == VBool(false) && after["atpark"] == VBool(false))
  {
  }

  /** The asynchronous slews start slewing and unpark, but leave every coordinate where it was. */
  lemma AsyncSlewsKeepPosition(cur: Props, az: real, alt: real)
    ensures var d := Decide(cur, SlewToTargetAsync);
      d.Done? ==> Apply(cur, d)["slewing"] == VBool(true) && OnlyChanged(cur, Apply(cur, d), {"slewing", "atpark"})
    ensures var d := Decide(cur, SlewToAltAzAsync(az, alt));
      d.Done? ==> Apply(cur, d)["slewing"] == VBool(true) && OnlyChanged(cur, Apply(cur, d), {"slewing", "atpark"})
  {
  }

  /** `findhome` goes to (0, 0) and is at home; `unpark` only clears `atpark`. */
  lemma FindHomeArrives(cur: Props)
    ensures var after := Apply(cur, Decide(cur, FindHome));
      && after["athome"] == VBool(true) && after["slewing"] == VBool(false)
      && after["rightascension"] == VReal(0.0) && after["declination"] == VReal(0.0)
      && OnlyChanged(cur, after, {"athome", "slewing", "rightascension", "declination"})
  {
  }

  /** `unpark` clears `atpark` and nothing else. */
  lemma UnparkClears(cur: Props)
    ensures var after := Apply(cur, Decide(cur, Unpark));
      after["atpark"] == VBool(false) && OnlyChanged(cur, after, {"atpark"})
  {
  }

  /** The state after the commands, one after the other. */
  function Run(cur: Props, cmds: seq<Command>): Props
    decreases |cmds|
  {
    if cmds == [] then cur else Run(Apply(cur, Decide(cur, cmds[0])), cmds[1..])
  }

  /** No endpoint but `setpark` writes the park position. */
  lemma OnlySetParkWritesParkPosition(cur: Props, cmd: Command)
    requires !cmd.SetPark?
    ensures var d := Decide(cur, cmd);
      d.Done? ==> "parkrightascension" !in d.patch && "parkdeclination" !in d.patch
  {
    if IsQuery(cmd) {
      assert Decide(cur, cmd) == QueryDecision(cur, cmd);
    } else if IsSetup(cmd) {
      assert Decide(cur, cmd) == SetupDecision(cmd);
      SetupKeepsPark(cmd);
    } else {
      assert Decide(cur, cmd) == MotionDecision(cur, cmd);
      MotionKeepsPark(cur, cmd);
    }
  }

  /** The setters leave the park position alone. */
  lemma SetupKeepsPark(cmd: Command)
    requires IsSetup(cmd)
    ensures SetupDecision(cmd).Done? ==>
      "parkrightascension" !in SetupDecision(cmd).patch && "parkdeclination" !in SetupDecision(cmd).patch
  {
    assert "parkrightascension"[..4][0] == 'p' && "parkdeclination"[..4][0] == 'p' && "axis"[0] == 'a';
    assert !StartsWith("parkrightascension", "axis") && !StartsWith("parkdeclination", "axis");
  }

  /** Of the motion actions, only `setpark` writes the park position. */
  lemma MotionKeepsPark(cur: Props, cmd: Command)
    requires !IsQuery(cmd) && !IsSetup(cmd) && !cmd.SetPark?
    ensures MotionDecision(cur, cmd).Done? ==>
      "parkrightascension" !in MotionDecision(cur, cmd).patch && "parkdeclination" !in MotionDecision(cur, cmd).patch
  {
  }

  /** The park position held before the commands is still held after them, unless one is `setpark`. */
  lemma {:induction false} KeepsParkPosition(cur: Props, cmds: seq<Command>)
    requires "parkrightascension" in cur && "parkdeclination" in cur
    requires forall i :: 0 <= i < |cmds| ==> !cmds[i].SetPark?
    ensures var after := Run(cur, cmds);
      && "parkrightascension" in after && after["parkrightascension"] == cur["parkrightascension"]
      && "parkdeclination" in after && after["parkdeclination"] == cur["parkdeclination"]
    decreases |cmds|
  {
    if cmds != [] {
      OnlySetParkWritesParkPosition(cur, cmds[0]);
      KeepsParkPosition(Apply(cur, Decide(cur, cmds[0])), cmds[1..]);
    }
  }

  /** `setpark` stores the current coordinates as the park position. */
  lemma SetParkMarks(cur: Props)
    ensures var marked := Apply(cur, Decide(cur, SetPark));
      && "parkrightascension" in marked && marked["parkrightascension"] == Get(cur, "rightascension", VReal(0.0))
      && "parkdeclination" in marked && marked["parkdeclination"] == Get(cur, "declination", VReal(0.0))
  {
    assert !IsQuery(SetPark) && !IsSetup(SetPark);
  }

  /** `park` moves to the stored park position. */
  lemma ParkMoves(cur: Props)
    requires "parkrightascension" in cur && "parkdeclination" in cur
    ensures var parked := Apply(cur, Decide(cur, Park));
      && parked["rightascension"] == cur["parkrightascension"] && parked["declination"] == cur["parkdeclination"]
      && parked["atpark"] == VBool(true) && parked["slewing"] == VBool(false) && parked["tracking"] == VBool(false)
  {
    assert !IsQuery(Park) && !IsSetup(Park);
  }

  /**
   * `setpark`, then any commands other than `setpark`, then `park`: the mount
   * is back at the coordinates it had at `setpark`, parked, neither slewing
   * nor tracking.
   */
  lemma ParkReturnsToSetPark(cur: Props, later: seq<Command>)
    requires forall i :: 0 <= i < |later| ==> !later[i].SetPark?
    ensures var marked := Apply(cur, Decide(cur, SetPark));
      var parked := Apply(Run(marked, later), Decide(Run(marked, later), Park));
      && parked["rightascension"] == Get(cur, "rightascension", VReal(0.0))
      && parked["declination"] == Get(cur, "declination", VReal(0.0))
      && parked["atpark"] == VBool(true) && parked["slewing"] == VBool(false) && parked["tracking"] == VBool(false)
  {
    SetParkMarks(cur);
    var marked := Apply(cur, Decide(cur, SetPark));
    KeepsParkPosition(marked, later);
    ParkMoves(Run(marked, later));
  }

  /** An endpoint that is not one of the clearing actions never sets `slewing` to anything but True. */
  lemma SlewingOnlyClearedByClearingActions(cur: Props, cmd: Command)
    ensures var d := Decide(cur, cmd);
      d.Done? && "slewing" in d.patch && !ClearsSlewing(cmd) ==> d.patch["slewing"] == VBool(true)
    ensures var d := Decide(cur, cmd);
      d.Done? && ClearsSlewing(cmd) ==> "slewing" in d.patch && d.patch["slewing"] == VBool(false)
  {
    if IsQuery(cmd) {
      assert Decide(cur, cmd) == QueryDecision(cur, cmd);
    } else if IsSetup(cmd) {
      assert Decide(cur, cmd) == SetupDecision(cmd);
      SetupNeverSlews(cmd);
    } else {
      assert Decide(cur, cmd) == MotionDecision(cur, cmd);
      MotionSlewing(cur, cmd);
    }
  }

  /** The setters leave `slewing` alone. */
  lemma SetupNeverSlews(cmd: Command)
    requires IsSetup(cmd)
    ensures SetupDecision(cmd).Done? ==> "slewing" !in SetupDecision(cmd).patch
  {
    assert "slewing"[..4][0] == 's' && "axis"[0] == 'a';
    assert !StartsWith("slewing", "axis");
  }

  /** Of the motion actions, the clearing ones set `slewing` False and the async slews set it True. */
  lemma MotionSlewing(cur: Props, cmd: Command)
    requires !IsQuery(cmd) && !IsSetup(cmd)
    ensures var d := MotionDecision(cur, cmd);
      d.Done? && "slewing" in d.patch && !ClearsSlewing(cmd) ==> d.patch["slewing"] == VBool(true)
    ensures var d := MotionDecision(cur, cmd);
      d.Done? && ClearsSlewing(cmd) ==> "slewing" in d.patch && d.patch["slewing"] == VBool(false)
  {
  }

  /**
   * Once slewing, the mount stays slewing until an action clears it; the
   * async slews never complete on their own. `abortslew` is one of the
   * clearing actions.
   */
  lemma {:induction false} SlewingPersists(cur: Props, cmds: seq<Command>)
    requires "slewing" in cur && cur["slewing"] == VBool(true)
    requires forall i :: 0 <= i < |cmds| ==> !ClearsSlewing(cmds[i])
    ensures "slewing" in Run(cur, cmds) && Run(cur, cmds)["slewing"] == VBool(true)
    decreases |cmds|
  {
    if cmds != [] {
      SlewingOnlyClearedByClearingActions(cur, cmds[0]);
      SlewingPersists(Apply(cur, Decide(cur, cmds[0])), cmds[1..]);
    }
  }

  lemma AbortSlewStops(cur: Props)
    ensures var after := Apply(cur, Decide(cur, AbortSlew));
      after["slewing"] == VBool(false) && OnlyChanged(cur, after, {"slewing"})
  {
  }

  /**
   * A north pulse followed by a south pulse of the same duration restores
   * the declination (on the reals) and keeps the right ascension; the mount
   * is not pulse guiding afterwards.
   */
  lemma PulseGuideNorthThenSouth(cur: Props, duration: int)
    requires PulseGuideDecision(cur, GuideNorth, duration).Done?
    ensures var north := Apply(cur, PulseGuideDecision(cur, GuideNorth, duration));
      var d := PulseGuideDecision(north, GuideSouth, duration);
      && d.Done?
      && Num(Apply(north, d)["declination"]) == Num(Get(cur, "declination", VReal(0.0)))
      && Apply(north, d)["rightascension"] == Get(cur, "rightascension", VReal(0.0))
      && Apply(north, d)["ispulseguiding"] == VBool(false)
  {
    PulseGuideNorthSouth(cur, GuideNorth, duration);
    var north := Apply(cur, PulseGuideDecision(cur, GuideNorth, duration));
    assert Get(north, "declination", VReal(0.0)) == north["declination"];
    PulseGuideNorthSouth(north, GuideSouth, duration);
    var dec := Num(Get(cur, "declination", VReal(0.0))).value;
    var step := duration as real / 1000.0 * Num(Get(cur, "guideratedeclination", VReal(15.0))).value;
    assert Apply(north, PulseGuideDecision(north, GuideSouth, duration))["declination"] == VReal(dec + step - step);
  }

  /** The `pulseguide` endpoint decides by its own rule. */
  lemma PulseGuideDispatch(cur: Props, direction: int, duration: int)
    ensures Decide(cur, PulseGuide(direction, duration)) == PulseGuideDecision(cur, direction, duration)
  {
  }

  /**
   * A north or south pulse moves the declination by Duration / 1000 times
   * the declination rate, keeps the right ascension and the rate, and ends
   * with the mount not pulse guiding.
   */
  lemma PulseGuideNorthSouth(cur: Props, direction: int, duration: int)
    requires direction == GuideNorth || direction == GuideSouth
    requires Num(Get(cur, "declination", VReal(0.0))).Some? && Num(Get(cur, "guideratedeclination", VReal(15.0))).Some?
    requires duration >= 0
    ensures var after := Apply(cur, PulseGuideDecision(cur, direction, duration));
      var dec := Num(Get(cur, "declination", VReal(0.0))).value;
      var step := duration as real / 1000.0 * Num(Get(cur, "guideratedeclination", VReal(15.0))).value;
      && PulseGuideDecision(cur, direction, duration).Done?
      && after["declination"] == VReal(if direction == GuideNorth then dec + step else dec - step)
      && after["rightascension"] == Get(cur, "rightascension", VReal(0.0))
      && after["ispulseguiding"] == VBool(false)
      && Get(after, "guideratedeclination", VReal(15.0)) == Get(cur, "guideratedeclination", VReal(15.0))
  {
  }

  /** An east or west pulse moves the right ascension by Duration / 1000 times the rate over 15, and keeps the declination. */
  lemma PulseGuideEastWest(cur: Props, direction: int, duration: int)
    requires direction == GuideEast || direction == GuideWest
    requires Decide(cur, PulseGuide(direction, duration)).Done?
    ensures var after := Apply(cur, Decide(cur, PulseGuide(direction, duration)));
      var ra := Num(Get(cur, "rightascension", VReal(0.0))).value;
      var step := duration as real / 1000.0 * Num(Get(cur, "guideraterightascension", VReal(15.0))).value / 15.0;
      && after["rightascension"] == VReal(if direction == GuideEast then ra + step else ra - step)
      && after["declination"] == Get(cur, "declination", VReal(0.0))
      && after["ispulseguiding"] == VBool(false)
  {
    assert Decide(cur, PulseGuide(direction, duration)) == PulseGuideDecision(cur, direction, duration);
  }

  /**
   * The state class starts both guide rates at 0.0, so a mount whose
   * configuration sets no guide rate reads 0.0 for them, never the
   * getters' 15.0.
   */
  lemma FreshGuideRatesAreZero(cfg: DeviceConfig, number: nat, p: Property)
    requires p == GuideRateDeclination || p == GuideRateRightAscension
    requires Key(p) !in DeviceConfigOf(cfg, DeviceId(Kind, number))
    ensures Decide(InitialState(cfg, DeviceId(Kind, number)), Read(p)).value == Some(VReal(0.0))
  {
    FreshDefault(cfg, number, Key(p), VReal(0.0));
    ReadsStored(InitialState(cfg, DeviceId(Kind, number)), p, VReal(0.0));
  }

  /** A getter answers what the state holds under its key. */
  lemma ReadsStored(cur: Props, p: Property, v: Value)
    requires Key(p) in cur && cur[Key(p)] == v
    ensures Decide(cur, Read(p)).value == Some(v)
  {
  }

  /** A state class default that the configuration does not override is where a fresh mount starts. */
  lemma FreshDefault(cfg: DeviceConfig, number: nat, key: string, v: Value)
    requires key in TelescopeDefaults() && TelescopeDefaults()[key] == v
    requires key !in DeviceConfigOf(cfg, DeviceId(Kind, number)) && key !in {"numx", "numy"}
    ensures key in InitialState(cfg, DeviceId(Kind, number)) && InitialState(cfg, DeviceId(Kind, number))[key] == v
  {
    assert Defaults(Kind) == TelescopeDefaults();
  }

  /** With a zero guide rate, a pulse in any direction leaves both coordinates' numbers where they were. */
  lemma ZeroRateDoesNotGuide(cur: Props, direction: int, duration: int)
    requires "guideratedeclination" in cur && cur["guideratedeclination"] == VReal(0.0)
    requires "guideraterightascension" in cur && cur["guideraterightascension"] == VReal(0.0)
    requires Decide(cur, PulseGuide(direction, duration)).Done?
    ensures var after := Apply(cur, Decide(cur, PulseGuide(direction, duration)));
      && Num(after["rightascension"]) == Num(Get(cur, "rightascension", VReal(0.0)))
      && Num(after["declination"]) == Num(Get(cur, "declination", VReal(0.0)))
  {
    assert Decide(cur, PulseGuide(direction, duration)) == PulseGuideDecision(cur, direction, duration);
  }

  /** Guard, read, decide, merge, reply. */
  method Handle(s: Store, number: nat, cmd: Command, rq: Request) returns (r: Reply)
    requires s.Valid()
    modifies s`store, s`txid
    ensures s.Valid()
    ensures Served(s.config, old(s.store), s.store, old(s.txid), s.txid, DeviceId(Kind, number),
                   Decide(old(s.Current(DeviceId(Kind, number))), cmd), rq, r)
  {
    r := Serve(s, DeviceId(Kind, number), cur => Decide(cur, cmd), rq);
  }
}
