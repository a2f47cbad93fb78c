/**
 * The rotator: a sky position, a mechanical position and a target, all in
 * degrees and normalised into [0, 360) by Python's float `%`; every move is
 * instantaneous.
 */
module Rotator {
  import opened Wrappers
  import opened Values
  import opened State
  import opened Envelope
  import opened Common

  const Kind: string := "rotator"

  datatype Command =
    | GetCanReverse | GetIsMoving | GetMechanicalPosition | GetPosition | GetReverse
    | SetReverse(reverse: bool) | GetStepSize | GetTargetPosition | Halt
    | Move(offset: real) | MoveAbsolute(position: real) | MoveMechanical(position: real)
    | Sync(position: real)

  /** `x % 360.0`. */
  function Normalize(x: real): (r: real)
    ensures 0.0 <= r < 360.0
  {
    FloatMod(x, 360.0)
  }

  /** The patch of every move: all three positions at `p`, and not moving. */
  function MovedTo(p: real): Props
  {
    map["position" := VReal(p), "mechanicalposition" := VReal(p), "targetposition" := VReal(p),
        "ismoving" := VBool(false)]
  }

  /**
   * `move`: relative to the stored position (which raises when that is not
   * a number), then normalised.
   */
  function MoveDecision(cur: Props, offset: real): (d: Decision)
    ensures Num(Get(cur, "position", VReal(0.0))).None? ==> d == Raise(TypeError())
    ensures forall p :: Num(Get(cur, "position", VReal(0.0))) == Some(p) ==>
      d == Done(MovedTo(Normalize(p + offset)), None)
  {
    match Num(Get(cur, "position", VReal(0.0)))
    case None => Raise(TypeError())
    case Some(p) => Done(MovedTo(Normalize(p + offset)), None)
  }

  /** `set_reverse`: refused with 0x401 when `canreverse` (default True) is falsy. */
  function SetReverseDecision(conf: Props, reverse: bool): (d: Decision)
    ensures d.Raise? <==> !Truthy(Get(conf, "canreverse", VBool(true)))
    ensures d.Raise? ==> RaisesCode(d, 0x401)
    ensures d.Done? ==> d == Done(map["reverse" := VBool(reverse)], None)
  {
    if !Truthy(Get(conf, "canreverse", VBool(true))) then Raise(NotImplemented("Rotator cannot reverse"))
    else Done(map["reverse" := VBool(reverse)], None)
  }

  /** What each rotator endpoint decides with settings `conf` and state `cur`. */
  function Decide(conf: Props, cur: Props, cmd: Command): (d: Decision)
    ensures d.Raise? ==> cmd.SetReverse? || cmd.Move?
    ensures d.Done? && d.value.Some? ==> d.patch == map[]
  {
    match cmd
    case GetCanReverse => Done(map[], Some(Get(conf, "canreverse", VBool(true))))
    case GetIsMoving => Done(map[], Some(Get(cur, "ismoving", VBool(false))))
    case GetMechanicalPosition => Done(map[], Some(Get(cur, "mechanicalposition", VReal(0.0))))
    case GetPosition => Done(map[], Some(Get(cur, "position", VReal(0.0))))
    case GetReverse => Done(map[], Some(Get(cur, "reverse", VBool(false))))
    case SetReverse(b) => SetReverseDecision(conf, b)
    case GetStepSize => Done(map[], Some(Get(conf, "stepsize", VReal(0.1))))
    case GetTargetPosition => Done(map[], Some(Get(cur, "targetposition", VReal(0.0))))
    case Halt => Done(map["ismoving" := VBool(false)], None)
    case Move(offset) => MoveDecision(cur, offset)
    case MoveAbsolute(p) => Done(MovedTo(Normalize(p)), None)
    case MoveMechanical(p) => Done(MovedTo(Normalize(p)), None)
    case Sync(p) => Done(map["position" := VReal(Normalize(p)), "targetposition" := VReal(Normalize(p))], None)
  }

  /**
   * Every successful move leaves the three positions equal, inside
   * [0, 360), a whole number of turns away from the requested angle, and the
   * rotator not moving; nothing else changes.
   */
  lemma MovesAgree(conf: Props, cur: Props, cmd: Command)
    requires cmd.Move? || cmd.MoveAbsolute? || cmd.MoveMechanical?
    requires Decide(conf, cur, cmd).Done?
    ensures var after := Apply(cur, Decide(conf, cur, cmd));
      var requested := if cmd.Move? then Num(Get(cur, "position", VReal(0.0))).value + cmd.offset
                       else cmd.position;
      && after["position"] == after["mechanicalposition"] == after["targetposition"]
      && after["position"].VReal?
      && 0.0 <= after["position"].r < 360.0
      && ((requested - after["position"].r) / 360.0).Floor as real == (requested - after["position"].r) / 360.0
      && after["ismoving"] == VBool(false)
      && OnlyChanged(cur, after, {"position", "mechanicalposition", "targetposition", "ismoving"})
  {
  }

  /** `moveabsolute` depends on its argument only, and doing it twice is doing it once. */
  lemma MoveAbsoluteIdempotent(conf: Props, cur1: Props, cur2: Props, p: real)
    ensures Decide(conf, cur1, MoveAbsolute(p)) == Decide(conf, cur2, MoveAbsolute(p))
    ensures var once := Apply(cur1, Decide(conf, cur1, MoveAbsolute(p)));
      Apply(once, Decide(conf, once, MoveAbsolute(p))) == once
  {
    var patch := MovedTo(Normalize(p));
    assert Merge(Merge(cur1, patch), patch) == Merge(cur1, patch);
  }

  /** An angle already in [0, 360) is stored as given, and a relative move by 0 keeps such a position. */
  lemma NormalisedAnglesAreKept(conf: Props, cur: Props, p: real)
    requires 0.0 <= p < 360.0
    ensures Decide(conf, cur, MoveAbsolute(p)).patch["position"] == VReal(p)
    ensures Get(cur, "position", VReal(0.0)) == VReal(p) ==>
      Decide(conf, cur, Move(0.0)) == Decide(conf, cur, MoveAbsolute(p))
  {
    FloatModOfInRange(p, 360.0);
    assert p + 0.0 == p;
  }

  /** `sync` moves the sky position and the target but not the mechanical position. */
  lemma SyncKeepsMechanicalPosition(conf: Props, cur: Props, p: real)
    ensures var after := Apply(cur, Decide(conf, cur, Sync(p)));
      && Get(after, "mechanicalposition", VReal(0.0)) == Get(cur, "mechanicalposition", VReal(0.0))
      && after["position"] == after["targetposition"] == VReal(Normalize(p))
      && OnlyChanged(cur, after, {"position", "targetposition"})
  {
  }

  /** `halt` clears `ismoving` and changes nothing else. */
  lemma HaltOnlyStops(conf: Props, cur: Props)
    ensures var after := Apply(cur, Decide(conf, cur, Halt));
      after["ismoving"] == VBool(false) && OnlyChanged(cur, after, {"ismoving"})
  {
  }

  /** Guard, read, decide, merge, reply. */
  method Handle(s: Store, number: nat, cmd: Command, rq: Request) returns (r: Reply)
    requires s.Valid()
    modifies s`store, s`txid
    ensures s.Valid()
    ensures Served(s.config, old(s.store), s.store, old(s.txid), s.txid, DeviceId(Kind, number),
                   Decide(DeviceConfigOf(s.config, DeviceId(Kind, number)), old(s.Current(DeviceId(Kind, number))), cmd),
                   rq, r)
  {
    var id := DeviceId(Kind, number);
    var conf := DeviceConfigOf(s.config, id);
    r := Serve(s, id, cur => Decide(conf, cur, cmd), rq);
  }
}
