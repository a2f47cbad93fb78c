/**
 * The focuser: an absolute position in steps, moved instantly; its limits
 * and capabilities (`absolute`, `maxstep`, `maxincrement`, `stepsize`,
 * `tempcompavailable`) come from the settings, never from the state.
 */
module Focuser {
  import opened Wrappers
  import opened Values
  import opened State
  import opened Envelope
  import opened Common

  const Kind: string := "focuser"

  datatype Command =
    | GetAbsolute | GetIsMoving | GetMaxIncrement | GetMaxStep | GetPosition | GetStepSize
    | GetTempComp | SetTempComp(tempComp: bool) | GetTempCompAvailable | GetTemperature
    | Halt | Move(position: int)

  /** The `maxstep` setting, 100000 when absent. */
  function MaxStep(conf: Props): Value
  {
    Get(conf, "maxstep", VInt(100000))
  }

  /**
   * `move`: a negative position is refused first; otherwise the position is
   * compared with `maxstep` (which raises when that is not a number) and is
   * accepted up to and including it.
   */
  function MoveDecision(conf: Props, position: int): (d: Decision)
    ensures position < 0 ==> RaisesCode(d, 0x402)
    ensures position >= 0 && Num(MaxStep(conf)).None? ==> d == Raise(TypeError())
    ensures forall m :: Num(MaxStep(conf)) == Some(m) ==> (d.Done? <==> 0 <= position && position as real <= m)
    ensures d.Raise? && Num(MaxStep(conf)).Some? ==> RaisesCode(d, 0x402)
    ensures d.Done? ==> d == Done(map["position" := VInt(position), "ismoving" := VBool(false)], None)
  {
    var maxStep := MaxStep(conf);
    var message := "Position out of range (0-" + Show(maxStep) + ")";
    if position < 0 then Raise(OutOfRange(message))
    else match Num(maxStep)
      case None => Raise(TypeError())
      case Some(m) =>
        if position as real > m then Raise(OutOfRange(message))
        else Done(map["position" := VInt(position), "ismoving" := VBool(false)], None)
  }

  /** `set_tempcomp`: refused with 0x401 when `tempcompavailable` (default True) is falsy. */
  function SetTempCompDecision(conf: Props, tempComp: bool): (d: Decision)
    ensures d.Raise? <==> !Truthy(Get(conf, "tempcompavailable", VBool(true)))
    ensures d.Raise? ==> RaisesCode(d, 0x401)
    ensures d.Done? ==> d == Done(map["tempcomp" := VBool(tempComp)], None)
  {
    if !Truthy(Get(conf, "tempcompavailable", VBool(true))) then
      Raise(NotImplemented("Temperature compensation not available"))
    else Done(map["tempcomp" := VBool(tempComp)], None)
  }

  /** What each focuser endpoint decides with settings `conf` and state `cur`. */
  function Decide(conf: Props, cur: Props, cmd: Command): (d: Decision)
    ensures d.Raise? ==> cmd.SetTempComp? || cmd.Move?
    ensures d.Done? && d.value.Some? ==> d.patch == map[]
  {
    match cmd
    case GetAbsolute => Done(map[], Some(Get(conf, "absolute", VBool(true))))
    case GetIsMoving => Done(map[], Some(Get(cur, "ismoving", VBool(false))))
    case GetMaxIncrement => Done(map[], Some(Get(conf, "maxincrement", VInt(1000))))
    case GetMaxStep => Done(map[], Some(MaxStep(conf)))
    case GetPosition => Done(map[], Some(Get(cur, "position", VInt(50000))))
    case GetStepSize => Done(map[], Some(Get(conf, "stepsize", VReal(1.0))))
    case GetTempComp => Done(map[], Some(Get(cur, "tempcomp", VBool(false))))
    case SetTempComp(b) => SetTempCompDecision(conf, b)
    case GetTempCompAvailable => Done(map[], Some(Get(conf, "tempcompavailable", VBool(true))))
    case GetTemperature => Done(map[], Some(Get(cur, "temperature", VReal(20.0))))
    case Halt => Done(map["ismoving" := VBool(false)], None)
    case Move(p) => MoveDecision(conf, p)
  }

  /** Which endpoints write, and what each may write. */
  lemma WritesAreConfined(conf: Props, cur: Props, cmd: Command)
    ensures var d := Decide(conf, cur, cmd);
      d.Done? ==> d.patch.Keys <= (match cmd
        case SetTempComp(_) => {"tempcomp"}
        case Halt => {"ismoving"}
        case Move(_) => {"position", "ismoving"}
        case _ => {})
  {
  }

  /**
   * The limits and capabilities are read from the settings alone: two states
   * give the same answers.
   */
  lemma SettingsGettersIgnoreState(conf: Props, cur1: Props, cur2: Props, cmd: Command)
    requires cmd.GetAbsolute? || cmd.GetMaxIncrement? || cmd.GetMaxStep? || cmd.GetStepSize?
          || cmd.GetTempCompAvailable?
    ensures Decide(conf, cur1, cmd) == Decide(conf, cur2, cmd)
  {
  }

  /** `move` is absolute: the position read back is the one asked for, and moving twice is moving once. */
  lemma MoveIsAbsolute(conf: Props, cur: Props, position: int)
    requires MoveDecision(conf, position).Done?
    ensures var once := Apply(cur, Decide(conf, cur, Move(position)));
      && Decide(conf, once, GetPosition).value == Some(VInt(position))
      && Decide(conf, once, GetIsMoving).value == Some(VBool(false))
      && Apply(once, Decide(conf, once, Move(position))) == once
      && OnlyChanged(cur, once, {"position", "ismoving"})
  {
    var d := Decide(conf, cur, Move(position));
    assert Merge(Merge(cur, d.patch), d.patch) == Merge(cur, d.patch);
  }

  /** With the default limit, the accepted positions are exactly 0 through 100000. */
  lemma DefaultMoveRange(conf: Props, position: int)
    requires "maxstep" !in conf
    ensures MoveDecision(conf, position).Done? <==> 0 <= position <= 100000
  {
  }

  /** Guard, read, decide, merge, reply. */
  method Handle(s: Store, number: nat, cmd: Command, rq: Request) returns (r: Reply)
    requires s.Valid()
    modifies s`store, s`txid
    ensures s.Valid()
    ensures Served(s.config, old(s.store), s.store, old(s.txid), s.txid, DeviceId(Kind, number),
                   Decide(DeviceConfigOf(s.config, DeviceId(Kind, number)), old(s.Current(DeviceId(Kind, number))), cmd),
                   rq, r)
  {
    var id := DeviceId(Kind, number);
    var conf := DeviceConfigOf(s.config, id);
    r := Serve(s, id, cur => Decide(conf, cur, cmd), rq);
  }
}
