/** The safety monitor: one flag, `issafe`, that clients read and write. */
module SafetyMonitor {
  import opened Wrappers
  import opened Values
  import opened State
  import opened Envelope
  import opened Common

  const Kind: string := "safetymonitor"

  datatype Command = GetIsSafe | SetIsSafe(isSafe: bool)

  /** What `get_issafe` and `set_issafe` decide on the monitor's state. */
  function Decide(cur: Props, cmd: Command): (d: Decision)
    ensures d.Done?
    ensures cmd.GetIsSafe? ==> d.patch == map[] && d.value == Some(Get(cur, "issafe", VBool(true)))
    ensures cmd.SetIsSafe? ==> d.patch.Keys == {"issafe"} && d.value == None
  {
    match cmd
    case GetIsSafe => Done(map[], Some(Get(cur, "issafe", VBool(true))))
    case SetIsSafe(v) => Done(map["issafe" := VBool(v)], None)
  }

  /** A write is read back, and it changes no other property. */
  lemma SetThenGet(cur: Props, v: bool)
    ensures var after := Apply(cur, Decide(cur, SetIsSafe(v)));
      && Decide(after, GetIsSafe).value == Some(VBool(v))
      && OnlyChanged(cur, after, {"issafe"})
  {
  }

  /** A monitor that has never been written, and whose settings do not say otherwise, reads as safe. */
  lemma SafeByDefault(cfg: DeviceConfig, number: nat)
    requires "issafe" !in DeviceConfigOf(cfg, DeviceId(Kind, number))
    ensures Decide(InitialState(cfg, DeviceId(Kind, number)), GetIsSafe).value == Some(VBool(true))
  {
    assert Defaults(Kind) == SafetyMonitorDefaults();
  }

  /** Guard, read, decide, merge, reply. */
  method Handle(s: Store, number: nat, cmd: Command, rq: Request) returns (r: Reply)
    requires s.Valid()
    modifies s`store, s`txid
    ensures s.Valid()
    ensures Served(s.config, old(s.store), s.store, old(s.txid), s.txid, DeviceId(Kind, number),
                   Decide(old(s.Current(DeviceId(Kind, number))), cmd), rq, r)
  {
    r := Serve(s, DeviceId(Kind, number), cur => Decide(cur, cmd), rq);
  }
}
