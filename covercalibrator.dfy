/**
 * The cover/calibrator: a flat-field light whose brightness is bounded by
 * the `maxbrightness` setting, and a dust cover; both change state
 * instantly.
 */
module CoverCalibrator {
  import opened Wrappers
  import opened Values
  import opened State
  import opened Envelope
  import opened Common

  const Kind: string := "covercalibrator"

  datatype Command =
    | GetBrightness | GetCalibratorChanging | GetCalibratorState | GetCoverMoving | GetCoverState
    | GetMaxBrightness | CalibratorOff | CalibratorOn(brightness: int) | CloseCover | HaltCover
    | OpenCover

  /** The `maxbrightness` setting, 255 when absent. */
  function MaxBrightness(conf: Props): Value
  {
    Get(conf, "maxbrightness", VInt(255))
  }

  /**
   * `calibratoron`: a negative brightness is refused first; otherwise it is
   * compared with `maxbrightness` (raising when that is not a number) and
   * accepted up to and including it, leaving the calibrator READY.
   */
  function CalibratorOnDecision(conf: Props, brightness: int): (d: Decision)
    ensures brightness < 0 ==> RaisesCode(d, 0x402)
    ensures brightness >= 0 && Num(MaxBrightness(conf)).None? ==> d == Raise(TypeError())
    ensures forall m :: Num(MaxBrightness(conf)) == Some(m) ==>
      (d.Done? <==> 0 <= brightness && brightness as real <= m)
    ensures d.Raise? && Num(MaxBrightness(conf)).Some? ==> RaisesCode(d, 0x402)
    ensures d.Done? ==> d.value == None && d.patch == map[
      "brightness" := VInt(brightness), "calibratorstate" := VInt(CalibratorReady),
      "calibratorchanging" := VBool(false)]
  {
    var maxBrightness := MaxBrightness(conf);
    var message := "Brightness out of range (0-" + Show(maxBrightness) + ")";
    if brightness < 0 then Raise(OutOfRange(message))
    else match Num(maxBrightness)
      case None => Raise(TypeError())
      case Some(m) =>
        if brightness as real > m then Raise(OutOfRange(message))
        else Done(map["brightness" := VInt(brightness), "calibratorstate" := VInt(CalibratorReady),
                      "calibratorchanging" := VBool(false)], None)
  }

  /** What each cover/calibrator endpoint decides with settings `conf` and state `cur`. */
  function Decide(conf: Props, cur: Props, cmd: Command): (d: Decision)
    ensures d.Raise? ==> cmd.CalibratorOn?
    ensures d.Done? && d.value.Some? ==> d.patch == map[]
  {
    match cmd
    case GetBrightness => Done(map[], Some(Get(cur, "brightness", VInt(0))))
    case GetCalibratorChanging => Done(map[], Some(Get(cur, "calibratorchanging", VBool(false))))
    case GetCalibratorState => Done(map[], Some(Get(cur, "calibratorstate", VInt(CalibratorNotPresent))))
    case GetCoverMoving => Done(map[], Some(Get(cur, "covermoving", VBool(false))))
    case GetCoverState => Done(map[], Some(Get(cur, "coverstate", VInt(CoverClosed))))
    case GetMaxBrightness => Done(map[], Some(MaxBrightness(conf)))
    case CalibratorOff =>
      Done(map["brightness" := VInt(0), "calibratorstate" := VInt(State.CalibratorOff),
               "calibratorchanging" := VBool(false)], None)
    case CalibratorOn(b) => CalibratorOnDecision(conf, b)
    case CloseCover => Done(map["coverstate" := VInt(CoverClosed), "covermoving" := VBool(false)], None)
    case HaltCover => Done(map["covermoving" := VBool(false)], None)
    case OpenCover => Done(map["coverstate" := VInt(CoverOpen), "covermoving" := VBool(false)], None)
  }

  /**
   * Turning the calibrator on and then off: on reads back the brightness and
   * READY, off reads back 0 and OFF; neither touches the cover.
   */
  lemma CalibratorOnThenOff(conf: Props, cur: Props, brightness: int)
    requires CalibratorOnDecision(conf, brightness).Done?
    ensures var on := Apply(cur, Decide(conf, cur, CalibratorOn(brightness)));
      var off := Apply(on, Decide(conf, on, CalibratorOff));
      && Decide(conf, on, GetBrightness).value == Some(VInt(brightness))
      && Decide(conf, on, GetCalibratorState).value == Some(VInt(CalibratorReady))
      && Decide(conf, off, GetBrightness).value == Some(VInt(0))
      && Decide(conf, off, GetCalibratorState).value == Some(VInt(State.CalibratorOff))
      && Decide(conf, off, GetCalibratorChanging).value == Some(VBool(false))
      && OnlyChanged(cur, off, {"brightness", "calibratorstate", "calibratorchanging"})
  {
    CalibratorOnReads(conf, cur, brightness);
    var on := Apply(cur, Decide(conf, cur, CalibratorOn(brightness)));
    CalibratorOffReads(conf, on);
    MergeTwice(cur, CalibratorOnDecision(conf, brightness).patch, Decide(conf, on, CalibratorOff).patch,
               {"brightness", "calibratorstate", "calibratorchanging"});
  }

  /** An accepted `calibratoron` reads back the brightness and READY. */
  lemma CalibratorOnReads(conf: Props, cur: Props, brightness: int)
    requires CalibratorOnDecision(conf, brightness).Done?
    ensures var on := Apply(cur, Decide(conf, cur, CalibratorOn(brightness)));
      && on == Merge(cur, CalibratorOnDecision(conf, brightness).patch)
      && Decide(conf, on, GetBrightness).value == Some(VInt(brightness))
      && Decide(conf, on, GetCalibratorState).value == Some(VInt(CalibratorReady))
  {
  }

  /** `calibratoroff` reads back 0, OFF and not changing, writing only those three. */
  lemma CalibratorOffReads(conf: Props, cur: Props)
    ensures var off := Apply(cur, Decide(conf, cur, CalibratorOff));
      && Decide(conf, cur, CalibratorOff).Done?
      && Decide(conf, cur, CalibratorOff).patch.Keys == {"brightness", "calibratorstate", "calibratorchanging"}
      && off == Merge(cur, Decide(conf, cur, CalibratorOff).patch)
      && Decide(conf, off, GetBrightness).value == Some(VInt(0))
      && Decide(conf, off, GetCalibratorState).value == Some(VInt(State.CalibratorOff))
      && Decide(conf, off, GetCalibratorChanging).value == Some(VBool(false))
  {
  }

  /**
   * The cover commands: open reads back OPEN, close reads back CLOSED, halt
   * keeps the cover state; all leave the cover not moving and the calibrator
   * untouched.
   */
  lemma CoverCommands(conf: Props, cur: Props, cmd: Command)
    requires cmd.OpenCover? || cmd.CloseCover? || cmd.HaltCover?
    ensures var after := Apply(cur, Decide(conf, cur, cmd));
      && Decide(conf, after, GetCoverMoving).value == Some(VBool(false))
      && Decide(conf, after, GetCoverState).value ==
         (if cmd.OpenCover? then Some(VInt(CoverOpen))
          else if cmd.CloseCover? then Some(VInt(CoverClosed))
          else Decide(conf, cur, GetCoverState).value)
      && OnlyChanged(cur, after, {"coverstate", "covermoving"})
  {
  }

  /** A calibrator without settings of its own starts NOT_PRESENT at brightness 0 with its cover CLOSED. */
  lemma InitialCoverCalibrator(cfg: DeviceConfig, number: nat)
    requires DeviceConfigOf(cfg, DeviceId(Kind, number)) == map[]
    ensures var init := InitialState(cfg, DeviceId(Kind, number));
      var conf := DeviceConfigOf(cfg, DeviceId(Kind, number));
      && Decide(conf, init, GetBrightness).value == Some(VInt(0))
      && Decide(conf, init, GetCalibratorState).value == Some(VInt(CalibratorNotPresent))
      && Decide(conf, init, GetCoverState).value == Some(VInt(CoverClosed))
  {
    assert Defaults(Kind) == CoverCalibratorDefaults();
  }

  /** Guard, read, decide, merge, reply. */
  method Handle(s: Store, number: nat, cmd: Command, rq: Request) returns (r: Reply)
    requires s.Valid()
    modifies s`store, s`txid
    ensures s.Valid()
    ensures Served(s.config, old(s.store), s.store, old(s.txid), s.txid, DeviceId(Kind, number),
                   Decide(DeviceConfigOf(s.config, DeviceId(Kind, number)), old(s.Current(DeviceId(Kind, number))), cmd),
                   rq, r)
  {
    var id := DeviceId(Kind, number);
    var conf := DeviceConfigOf(s.config, id);
    r := Serve(s, id, cur => Decide(conf, cur, cmd), rq);
  }
}
