/**
 * The filter wheel: the filter names and focus offsets come from the
 * settings, the selected position from the state; a position is valid when
 * it indexes the configured names.
 */
module FilterWheel {
  import opened Wrappers
  import opened Values
  import opened Text
  import opened State
  import opened Envelope
  import opened Common

  const Kind: string := "filterwheel"

  datatype Command = GetFocusOffsets | GetNames | GetPosition | SetPosition(position: int)

  /**
   * `set_position`: the highest position is one less than the number of
   * configured names; a `names` setting without a length raises.
   */
  function SetPositionDecision(conf: Props, position: int): (d: Decision)
    ensures Len(Get(conf, "names", VList([]))).None? ==> d == Raise(TypeError())
    ensures forall n :: Len(Get(conf, "names", VList([]))) == Some(n) ==>
      (d.Done? <==> 0 <= position < n)
    ensures d.Raise? && Len(Get(conf, "names", VList([]))).Some? ==> RaisesCode(d, 0x402)
    ensures d.Done? ==> d.patch == map["position" := VInt(position)] && d.value == None
  {
    match Len(Get(conf, "names", VList([])))
    case None => Raise(TypeError())
    case Some(n) =>
      var maxPosition := n - 1;
      if position < 0 || position > maxPosition then
        Raise(OutOfRange("Position out of range (0-" + IntToString(maxPosition) + ")"))
      else Done(map["position" := VInt(position)], None)
  }

  /** What each filter wheel endpoint decides with settings `conf` and state `cur`. */
  function Decide(conf: Props, cur: Props, cmd: Command): (d: Decision)
    ensures cmd.GetFocusOffsets? ==> d == Done(map[], Some(Get(conf, "focusoffsets", VList([]))))
    ensures cmd.GetNames? ==> d == Done(map[], Some(Get(conf, "names", VList([]))))
    ensures cmd.GetPosition? ==> d == Done(map[], Some(Get(cur, "position", VInt(0))))
    ensures cmd.SetPosition? ==> d == SetPositionDecision(conf, cmd.position)
  {
    match cmd
    case GetFocusOffsets => Done(map[], Some(Get(conf, "focusoffsets", VList([]))))
    case GetNames => Done(map[], Some(Get(conf, "names", VList([]))))
    case GetPosition => Done(map[], Some(Get(cur, "position", VInt(0))))
    case SetPosition(p) => SetPositionDecision(conf, p)
  }

  /** With no names configured (or an empty list) every position is refused. */
  lemma EmptyWheelRefusesEveryPosition(conf: Props, position: int)
    requires "names" !in conf || conf["names"] == VList([])
    ensures RaisesCode(SetPositionDecision(conf, position), 0x402)
  {
  }

  /** An accepted position is read back, and nothing else changes. */
  lemma SetThenGet(conf: Props, cur: Props, position: int)
    requires SetPositionDecision(conf, position).Done?
    ensures var after := Apply(cur, Decide(conf, cur, SetPosition(position)));
      && Decide(conf, after, GetPosition).value == Some(VInt(position))
      && OnlyChanged(cur, after, {"position"})
  {
  }

  /** Guard, read, decide, merge, reply. */
  method Handle(s: Store, number: nat, cmd: Command, rq: Request) returns (r: Reply)
    requires s.Valid()
    modifies s`store, s`txid
    ensures s.Valid()
    ensures Served(s.config, old(s.store), s.store, old(s.txid), s.txid, DeviceId(Kind, number),
                   Decide(DeviceConfigOf(s.config, DeviceId(Kind, number)), old(s.Current(DeviceId(Kind, number))), cmd),
                   rq, r)
  {
    var id := DeviceId(Kind, number);
    var conf := DeviceConfigOf(s.config, id);
    r := Serve(s, id, cur => Decide(conf, cur, cmd), rq);
  }
}
