/**
 * The dome: shutter, azimuth and altitude, park and home. Slews complete
 * at once. No command consults the `can*` capability settings.
 */
module Dome {
  import opened Wrappers
  import opened Values
  import opened State
  import opened Envelope
  import opened Common

  const Kind: string := "dome"

  datatype Command =
    | GetAltitude | GetAtHome | GetAtPark | GetAzimuth
    | GetCanFindHome | GetCanPark | GetCanSetAltitude | GetCanSetAzimuth | GetCanSetPark
    | GetCanSetShutter | GetCanSlave | GetCanSyncAzimuth
    | GetShutterStatus | GetSlaved | SetSlaved(slaved: bool) | GetSlewing
    | AbortSlew | CloseShutter | FindHome | OpenShutter | Park | SetPark
    | SlewToAltitude(altitude: real) | SlewToAzimuth(azimuth: real) | SyncToAzimuth(azimuth: real)

  /** An azimuth the dome accepts: [0, 360). */
  predicate ValidAzimuth(az: real) { 0.0 <= az < 360.0 }

  /** An altitude the dome accepts: [0, 90]. */
  predicate ValidAltitude(alt: real) { 0.0 <= alt <= 90.0 }

  /** `park` as the source writes it: the azimuth comes from the `parkazimuth` setting (default 0). */
  function ParkAsWritten(conf: Props): (d: Decision)
    ensures d.Done? && d.value == None
    ensures d.patch == map["atpark" := VBool(true), "slewing" := VBool(false),
                           "azimuth" := Get(conf, "parkazimuth", VReal(0.0))]
  {
    Done(map["atpark" := VBool(true), "slewing" := VBool(false),
             "azimuth" := Get(conf, "parkazimuth", VReal(0.0))], None)
  }

  /**
   * `park` as `setpark` evidently means it: the azimuth is the park
   * position held in the state (where `setpark` records it, and where the
   * `parkazimuth` setting lands when the state is created), falling back to
   * the setting and then to 0.
   */
  function ParkDecision(conf: Props, cur: Props): (d: Decision)
    ensures d.Done? && d.value == None
    ensures d.patch.Keys == {"atpark", "slewing", "azimuth"}
    ensures "parkazimuth" in cur ==> d.patch["azimuth"] == cur["parkazimuth"]
  {
    Done(map["atpark" := VBool(true), "slewing" := VBool(false),
             "azimuth" := Get(cur, "parkazimuth", Get(conf, "parkazimuth", VReal(0.0)))], None)
  }

  /**
   * `setpark`: the current azimuth becomes the park position; nothing else
   * changes and no value is answered.
   */
  function SetParkDecision(cur: Props): (d: Decision)
    ensures d.Done? && d.value == None && d.patch.Keys == {"parkazimuth"}
    ensures OnlyChanged(cur, Apply(cur, d), {"parkazimuth"})
    ensures Apply(cur, d)["parkazimuth"] == Get(cur, "azimuth", VReal(0.0))
  {
    Done(map["parkazimuth" := Get(cur, "azimuth", VReal(0.0))], None)
  }

  /** `slewtoazimuth` and `synctoazimuth` refuse an azimuth outside [0, 360). */
  function AzimuthDecision(azimuth: real, patch: Props): (d: Decision)
    ensures d.Raise? <==> !ValidAzimuth(azimuth)
    ensures d.Raise? ==> RaisesCode(d, 0x402)
    ensures d.Done? ==> d == Done(patch, None)
  {
    if azimuth < 0.0 || azimuth >= 360.0 then Raise(OutOfRange("Azimuth must be between 0 and 360 degrees"))
    else Done(patch, None)
  }

  /** What each dome endpoint decides with settings `conf` and state `cur`. */
  function Decide(conf: Props, cur: Props, cmd: Command): (d: Decision)
    ensures d.Raise? ==> (cmd.SlewToAltitude? || cmd.SlewToAzimuth? || cmd.SyncToAzimuth?) && RaisesCode(d, 0x402)
    ensures d.Done? && d.value.Some? ==> d.patch == map[]
  {
    match cmd
    case GetAltitude => Done(map[], Some(Get(cur, "altitude", VReal(0.0))))
    case GetAtHome => Done(map[], Some(Get(cur, "athome", VBool(false))))
    case GetAtPark => Done(map[], Some(Get(cur, "atpark", VBool(false))))
    case GetAzimuth => Done(map[], Some(Get(cur, "azimuth", VReal(0.0))))
    case GetCanFindHome => Done(map[], Some(Get(conf, "canfindhome", VBool(true))))
    case GetCanPark => Done(map[], Some(Get(conf, "canpark", VBool(true))))
    case GetCanSetAltitude => Done(map[], Some(Get(conf, "cansetaltitude", VBool(true))))
    case GetCanSetAzimuth => Done(map[], Some(Get(conf, "cansetazimuth", VBool(true))))
    case GetCanSetPark => Done(map[], Some(Get(conf, "cansetpark", VBool(true))))
    case GetCanSetShutter => Done(map[], Some(Get(conf, "cansetshutter", VBool(true))))
    case GetCanSlave => Done(map[], Some(Get(conf, "canslave", VBool(true))))
    case GetCanSyncAzimuth => Done(map[], Some(Get(conf, "cansyncazimuth", VBool(true))))
    case GetShutterStatus => Done(map[], Some(Get(cur, "shutterstatus", VInt(ShutterClosed))))
    case GetSlaved => Done(map[], Some(Get(cur, "slaved", VBool(false))))
    case SetSlaved(b) => Done(map["slaved" := VBool(b)], None)
    case GetSlewing => Done(map[], Some(Get(cur, "slewing", VBool(false))))
    case AbortSlew => Done(map["slewing" := VBool(false)], None)
    case CloseShutter => Done(map["shutterstatus" := VInt(ShutterClosed)], None)
    case FindHome => Done(map["athome" := VBool(true), "slewing" := VBool(false), "azimuth" := VReal(0.0)], None)
    case OpenShutter => Done(map["shutterstatus" := VInt(ShutterOpen)], None)
    case Park => ParkDecision(conf, cur)
    case SetPark => SetParkDecision(cur)
    case SlewToAltitude(alt) =>
      if alt < 0.0 || alt > 90.0 then Raise(OutOfRange("Altitude must be between 0 and 90 degrees"))
      else Done(map["altitude" := VReal(alt), "slewing" := VBool(false), "atpark" := VBool(false)], None)
    case SlewToAzimuth(az) =>
      AzimuthDecision(az, map["azimuth" := VReal(az), "slewing" := VBool(false), "atpark" := VBool(false)])
    case SyncToAzimuth(az) => AzimuthDecision(az, map["azimuth" := VReal(az)])
  }

  /** The shutter commands set the shutter status and nothing else. */
  lemma ShutterCommands(conf: Props, cur: Props)
    ensures var shutterOpen := Apply(cur, Decide(conf, cur, OpenShutter));
      Decide(conf, shutterOpen, GetShutterStatus).value == Some(VInt(ShutterOpen))
      && OnlyChanged(cur, shutterOpen, {"shutterstatus"})
    ensures var closed := Apply(cur, Decide(conf, cur, CloseShutter));
      Decide(conf, closed, GetShutterStatus).value == Some(VInt(ShutterClosed))
      && OnlyChanged(cur, closed, {"shutterstatus"})
  {
  }

  /**
   * The slews and the sync are refused with 0x402 exactly outside their
   * ranges, and the store is then untouched; a slew sets its coordinate and
   * clears `slewing` and `atpark`; a sync sets only the azimuth.
   */
  lemma SlewsAndSync(conf: Props, cur: Props, cmd: Command)
    requires cmd.SlewToAltitude? || cmd.SlewToAzimuth? || cmd.SyncToAzimuth?
    ensures var d := Decide(conf, cur, cmd);
      var ok := if cmd.SlewToAltitude? then ValidAltitude(cmd.altitude) else ValidAzimuth(cmd.azimuth);
      && (d.Raise? <==> !ok)
      && (d.Raise? ==> RaisesCode(d, 0x402) && Apply(cur, d) == cur)
      && (d.Done? ==> match cmd
            case SlewToAltitude(alt) =>
              Apply(cur, d)["altitude"] == VReal(alt) && Apply(cur, d)["slewing"] == VBool(false)
              && Apply(cur, d)["atpark"] == VBool(false)
              && OnlyChanged(cur, Apply(cur, d), {"altitude", "slewing", "atpark"})
            case SlewToAzimuth(az) =>
              Apply(cur, d)["azimuth"] == VReal(az) && Apply(cur, d)["slewing"] == VBool(false)
              && Apply(cur, d)["atpark"] == VBool(false)
              && OnlyChanged(cur, Apply(cur, d), {"azimuth", "slewing", "atpark"})
            case SyncToAzimuth(az) =>
              Apply(cur, d)["azimuth"] == VReal(az) && OnlyChanged(cur, Apply(cur, d), {"azimuth"})
            case _ => true)
  {
  }

  /** `findhome` goes to azimuth 0 and reports being home; `abortslew` only clears `slewing`. */
  lemma HomeAndAbort(conf: Props, cur: Props)
    ensures var home := Apply(cur, Decide(conf, cur, FindHome));
      && home["athome"] == VBool(true) && home["slewing"] == VBool(false) && home["azimuth"] == VReal(0.0)
      && OnlyChanged(cur, home, {"athome", "slewing", "azimuth"})
    ensures var stopped := Apply(cur, Decide(conf, cur, AbortSlew));
      stopped["slewing"] == VBool(false) && OnlyChanged(cur, stopped, {"slewing"})
  {
  }

  /** The commands that do not change the dome's pointing or park position. */
  predicate KeepsParkPosition(cmd: Command)
  {
    !cmd.SetPark?
  }

  /**
   * `setpark`, then any commands other than `setpark`, then `park`: the dome
   * returns to the azimuth it had at `setpark`.
   */
  lemma {:induction false} ParkReturnsToSetPark(conf: Props, cur: Props, later: seq<Command>)
    requires forall i :: 0 <= i < |later| ==> KeepsParkPosition(later[i])
    ensures var marked := Apply(cur, Decide(conf, cur, SetPark));
      var moved := Run(conf, marked, later);
      Apply(moved, Decide(conf, moved, Park))["azimuth"] == Get(cur, "azimuth", VReal(0.0))
  {
    var marked := Apply(cur, Decide(conf, cur, SetPark));
    SetParkMarks(conf, cur);
    KeepsParkAzimuth(conf, marked, later);
    ParkGoesToMark(conf, Run(conf, marked, later));
  }

  /** After `setpark`, `parkazimuth` holds the azimuth the dome had. */
  lemma SetParkMarks(conf: Props, cur: Props)
    ensures var marked := Apply(cur, Decide(conf, cur, SetPark));
      "parkazimuth" in marked && marked["parkazimuth"] == Get(cur, "azimuth", VReal(0.0))
  {
    assert Decide(conf, cur, SetPark) == SetParkDecision(cur);
  }

  /** `park` on a state with a `parkazimuth` goes to that azimuth. */
  lemma ParkGoesToMark(conf: Props, cur: Props)
    requires "parkazimuth" in cur
    ensures Apply(cur, Decide(conf, cur, Park))["azimuth"] == cur["parkazimuth"]
  {
    assert Decide(conf, cur, Park) == ParkDecision(conf, cur);
  }

  /** The state after a sequence of commands, each applied to the state the previous one left. */
  function Run(conf: Props, cur: Props, cmds: seq<Command>): Props
    decreases |cmds|
  {
    if cmds == [] then cur else Run(conf, Apply(cur, Decide(conf, cur, cmds[0])), cmds[1..])
  }

  /** No command but `setpark` writes `parkazimuth`. */
  lemma {:induction false} KeepsParkAzimuth(conf: Props, cur: Props, cmds: seq<Command>)
    requires "parkazimuth" in cur
    requires forall i :: 0 <= i < |cmds| ==> KeepsParkPosition(cmds[i])
    ensures "parkazimuth" in Run(conf, cur, cmds)
    ensures Run(conf, cur, cmds)["parkazimuth"] == cur["parkazimuth"]
    decreases |cmds|
  {
    if cmds != [] {
      var next := Apply(cur, Decide(conf, cur, cmds[0]));
      assert "parkazimuth" in next && next["parkazimuth"] == cur["parkazimuth"];
      KeepsParkAzimuth(conf, next, cmds[1..]);
    }
  }

  /**
   * As written, `park` ignores `setpark`: with no `parkazimuth` setting, a
   * dome at azimuth 90 that is marked as parked there and then parked goes to
   * azimuth 0.
   */
  lemma ParkAsWrittenIgnoresSetPark()
    ensures var cur := map["azimuth" := VReal(90.0)];
      var marked := Apply(cur, SetParkDecision(cur));
      Apply(marked, ParkAsWritten(map[]))["azimuth"] == VReal(0.0)
  {
  }

  /**
   * Until `setpark` is used, the corrected `park` behaves exactly as the
   * written one on a freshly created dome state.
   */
  lemma ParkAgreesOnFreshState(cfg: DeviceConfig, number: nat)
    ensures var id := DeviceId(Kind, number);
      ParkDecision(DeviceConfigOf(cfg, id), InitialState(cfg, id)) == ParkAsWritten(DeviceConfigOf(cfg, id))
  {
    var id := DeviceId(Kind, number);
    assert Defaults(Kind) == DomeDefaults();
    assert "parkazimuth" !in BaseState(Kind, DeviceConfigOf(cfg, id));
  }

  /** Guard, read, decide, merge, reply. */
  method Handle(s: Store, number: nat, cmd: Command, rq: Request) returns (r: Reply)
    requires s.Valid()
    modifies s`store, s`txid
    ensures s.Valid()
    ensures Served(s.config, old(s.store), s.store, old(s.txid), s.txid, DeviceId(Kind, number),
                   Decide(DeviceConfigOf(s.config, DeviceId(Kind, number)), old(s.Current(DeviceId(Kind, number))), cmd),
                   rq, r)
  {
    var id := DeviceId(Kind, number);
    var conf := DeviceConfigOf(s.config, id);
    r := Serve(s, id, cur => Decide(conf, cur, cmd), rq);
  }
}
