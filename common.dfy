/**
 * What every device endpoint shares: the existence guard `validate_device`,
 * the shape of one request (guard, read the state, decide, merge a patch,
 * reply with one fresh server transaction id), and the endpoints every
 * device type has (connected, description, name, devicestate, ...).
 */
module Common {
  import opened Wrappers
  import opened Values
  import opened Text
  import opened State
  import opened Envelope

  /** The error `validate_device` raises for an identity that is not configured. */
  function NotFound(id: DeviceId): (f: Failure)
    ensures f.AlpacaError? && f.code == 0x400
  {
    AlpacaError(0x400, "Device " + id.kind + ":" + IntToString(id.number) + " not found")
  }

  /** `validate_device`: None when the device is configured, its error otherwise. */
  function ValidateDevice(cfg: DeviceConfig, id: DeviceId): (r: Option<Failure>)
    ensures r.None? <==> Configured(cfg, id)
    ensures r.Some? ==> r.value == NotFound(id)
  {
    if Configured(cfg, id) then None else Some(NotFound(id))
  }

  /** An out-of-range argument (0x402). */
  function OutOfRange(message: string): (f: Failure)
    ensures f.AlpacaError? && f.code == 0x402
  {
    AlpacaError(0x402, message)
  }

  /** An unsupported capability (0x401). */
  function NotImplemented(message: string): (f: Failure)
    ensures f.AlpacaError? && f.code == 0x401
  {
    AlpacaError(0x401, message)
  }

  /**
   * A `TypeError` or `ValueError` raised by Python itself inside a handler
   * (comparing a string with a number, `len()` of a number, `int()` of a
   * text that is no decimal literal): it reaches the client as an internal
   * error. The detail is a placeholder naming the exception's class; Python's
   * own wording of the message is not modelled.
   */
  function TypeError(): (f: Failure)
    ensures f.Internal?
  {
    Internal("TypeError")
  }

  /**
   * `f"{v}"` inside an error message: integers, booleans, strings and None
   * as Python writes them; floats, lists and dicts by a placeholder, since
   * Python's float formatting is not modelled.
   */
  function Show(v: Value): string
  {
    match v
    case VInt(i) => IntToString(i)
    case VBool(b) => if b then "True" else "False"
    case VStr(t) => t
    case VNone => "None"
    case _ => "<value>"
  }

  /**
   * What a handler does once the guard has passed: merge `patch` into the
   * device's state and answer with `value`, or raise.
   */
  datatype Decision =
    | Done(patch: Props, value: Option<Value>)
    | Raise(failure: Failure)

  /** The decision raises the `AlpacaError` with this code. */
  predicate RaisesCode(d: Decision, code: int)
  {
    d.Raise? && d.failure.AlpacaError? && d.failure.code == code
  }

  /** The device state after a decision. */
  function Apply(cur: Props, d: Decision): (r: Props)
    ensures d.Raise? ==> r == cur
    ensures d.Done? ==> r == Merge(cur, d.patch)
  {
    if d.Done? then Merge(cur, d.patch) else cur
  }

  /** The reply to a decision, drawn with server transaction id `tx`. */
  function ReplyFor(d: Decision, rq: Request, tx: int): (r: Reply)
    ensures d.Done? ==> r == SuccessReply(d.value, rq, tx)
    ensures d.Raise? ==> r == FailureReply(d.failure, rq.query, tx)
  {
    match d
    case Done(_, value) => SuccessReply(value, rq, tx)
    case Raise(f) => FailureReply(f, rq.query, tx)
  }

  /**
   * One request to device `id` whose handler decides `d` on the device's
   * current state: exactly one server transaction id is drawn and is the
   * one in the reply; an identity that is not configured leaves the store as
   * it was and gets the 0x400 error; otherwise the device's state becomes
   * the decision applied to its current state, and no other entry changes.
   */
  predicate Served(cfg: DeviceConfig, before: map<DeviceId, Props>, after: map<DeviceId, Props>,
                   tx0: int, tx1: int, id: DeviceId, d: Decision, rq: Request, r: Reply)
  {
    && tx1 == tx0 + 1
    && if Configured(cfg, id) then
         after == before[id := Apply(CurrentIn(cfg, before, id), d)] && r == ReplyFor(d, rq, tx1)
       else
         after == before && r == FailureReply(NotFound(id), rq.query, tx1)
  }

  /**
   * What a served request means for every later read: the addressed device
   * reads as the decision applied (as before, if it is not configured), and
   * every other device reads as before.
   */
  lemma ServedReads(cfg: DeviceConfig, before: map<DeviceId, Props>, after: map<DeviceId, Props>,
                    tx0: int, tx1: int, id: DeviceId, d: Decision, rq: Request, r: Reply, other: DeviceId)
    requires Served(cfg, before, after, tx0, tx1, id, d, rq, r)
    ensures CurrentIn(cfg, after, id) ==
      if Configured(cfg, id) then Apply(CurrentIn(cfg, before, id), d) else CurrentIn(cfg, before, id)
    ensures other != id ==> CurrentIn(cfg, after, other) == CurrentIn(cfg, before, other)
  {
    if Configured(cfg, id) {
      var cur := CurrentIn(cfg, before, id);
      assert Apply(cur, d).Keys >= cur.Keys;
      assert Apply(cur, d) != map[];
    }
  }

  /** The 0x400 reply to a device that is not configured; the store is not touched. */
  method Reject(s: Store, id: DeviceId, rq: Request) returns (r: Reply)
    modifies s`txid
    ensures s.txid == old(s.txid) + 1
    ensures r == FailureReply(NotFound(id), rq.query, s.txid)
  {
    r := HandleException(s, NotFound(id), rq.query);
  }

  /**
   * The end of a request whose device state has been read: merge the
   * decision's patch (a handler that writes nothing does not call
   * `update_device_state`) and reply with a fresh transaction id.
   */
  method Finish(s: Store, id: DeviceId, d: Decision, rq: Request) returns (r: Reply)
    requires s.Valid() && id in s.store
    modifies s`store, s`txid
    ensures s.Valid()
    ensures s.store == old(s.store)[id := Apply(old(s.store[id]), d)]
    ensures s.txid == old(s.txid) + 1 && r == ReplyFor(d, rq, s.txid)
  {
    if d.Done? && d.patch != map[] {
      s.UpdateDeviceState(id, d.patch);
    } else {
      assert Apply(s.store[id], d) == s.store[id];
      assert s.store[id := s.store[id]] == s.store;
    }
    var tx := s.NextTransactionId();
    r := ReplyFor(d, rq, tx);
  }

  /**
   * The request pipeline every device endpoint follows: validate the
   * identity, read the device state, decide on it, merge the decision's
   * patch and reply. `decide` is the endpoint's own decision on the state.
   */
  method Serve(s: Store, id: DeviceId, decide: Props -> Decision, rq: Request) returns (r: Reply)
    requires s.Valid()
    modifies s`store, s`txid
    ensures s.Valid()
    ensures Served(s.config, old(s.store), s.store, old(s.txid), s.txid, id, decide(old(s.Current(id))), rq, r)
  {
    if ValidateDevice(s.config, id).Some? {
      r := Reject(s, id, rq);
      return;
    }
    var cur := s.GetDeviceState(id);
    r := Finish(s, id, decide(cur), rq);
  }

  /** `connected_bool`: the Connected form text is one of four words, in any letter case. */
  predicate ConnectedFlag(text: string)
  {
    Lower(text) in {"true", "1", "yes", "on"}
  }

  /** Case does not matter to the Connected text, and only the four words mean True. */
  lemma ConnectedFlagIgnoresCase(text: string)
    ensures ConnectedFlag(Upper(text)) == ConnectedFlag(text)
    ensures ConnectedFlag(text) ==> |text| in {1, 2, 3, 4}
  {
    LowerOfUpper(text);
  }

  /** The endpoints every device type has. */
  datatype CommonCommand =
    | GetConnected
    | SetConnected(connected: string)
    | GetDescription
    | GetDriverInfo
    | GetDriverVersion
    | GetInterfaceVersion
    | GetName
    | GetSupportedActions
    | Action(action: string, parameters: string)
    | CommandBlind(command: string, raw: bool)
    | CommandBool(command: string, raw: bool)
    | CommandString(command: string, raw: bool)
    | Connect
    | GetConnecting
    | Disconnect
    | GetDeviceStateSnapshot

  /** The description a device without a configured one reports. */
  function DefaultDescription(kind: string): string
  {
    "Simulated " + Title(kind) + " Device"
  }

  /** The name a device without a configured one reports. */
  function DefaultName(id: DeviceId): string
  {
    "Simulator " + Title(id.kind) + " #" + IntToString(id.number)
  }

  /** What each common endpoint decides for device `id` with settings `conf` and state `cur`. */
  function CommonDecision(id: DeviceId, conf: Props, cur: Props, cmd: CommonCommand): (d: Decision)
    ensures d.Done?
    ensures "connected" in d.patch <==> cmd.SetConnected? || cmd.Connect? || cmd.Disconnect?
    ensures d.patch.Keys <= {"connected"}
  {
    match cmd
    case GetConnected => Done(map[], Some(Get(cur, "connected", VBool(false))))
    case SetConnected(text) => Done(map["connected" := VBool(ConnectedFlag(text))], None)
    case GetDescription => Done(map[], Some(Get(conf, "description", VStr(DefaultDescription(id.kind)))))
    case GetDriverInfo =>
      Done(map[], Some(Get(conf, "driverinfo", VStr("ASCOM Alpaca Observatory Simulator Driver v1.0"))))
    case GetDriverVersion => Done(map[], Some(Get(conf, "driverversion", VStr("1.0.0"))))
    case GetInterfaceVersion => Done(map[], Some(Get(conf, "interfaceversion", VInt(3))))
    case GetName => Done(map[], Some(Get(conf, "name", VStr(DefaultName(id)))))
    case GetSupportedActions => Done(map[], Some(VList([])))
    case Action(_, _) => Done(map[], Some(VStr("")))
    case CommandBlind(_, _) => Done(map[], None)
    case CommandBool(_, _) => Done(map[], Some(VBool(false)))
    case CommandString(_, _) => Done(map[], Some(VStr("")))
    case Connect => Done(map["connected" := VBool(true)], None)
    case GetConnecting => Done(map[], Some(VBool(false)))
    case Disconnect => Done(map["connected" := VBool(false)], None)
    case GetDeviceStateSnapshot => Done(map[], Some(VMap(cur)))
  }

  /**
   * Connect, disconnect and set_connected write `connected` and nothing else,
   * and a later `connected` read returns what they wrote; `devicestate` then
   * returns the whole state.
   */
  lemma ConnectionRoundTrip(id: DeviceId, conf: Props, cur: Props, cmd: CommonCommand)
    requires cmd.SetConnected? || cmd.Connect? || cmd.Disconnect?
    ensures var after := Apply(cur, CommonDecision(id, conf, cur, cmd));
      && OnlyChanged(cur, after, {"connected"})
      && CommonDecision(id, conf, after, GetConnected).value ==
         Some(VBool(if cmd.SetConnected? then ConnectedFlag(cmd.connected) else cmd.Connect?))
      && CommonDecision(id, conf, after, GetDeviceStateSnapshot).value == Some(VMap(after))
  {
  }

  /** A device that was never connected reads as disconnected. */
  lemma InitiallyDisconnected(cfg: DeviceConfig, id: DeviceId)
    requires "connected" !in DeviceConfigOf(cfg, id)
    ensures CommonDecision(id, DeviceConfigOf(cfg, id), InitialState(cfg, id), GetConnected).value ==
      Some(VBool(false))
  {
    assert "connected" in BaseState(id.kind, DeviceConfigOf(cfg, id));
  }

  /**
   * Without configured text, a device's name is "Simulator <Type> #<n>" and
   * names the number it was asked for; the answers of the custom-command
   * endpoints are fixed.
   */
  lemma CommonDefaults(id: DeviceId, conf: Props, cur: Props, a: string, p: string, c: string, raw: bool)
    ensures "name" !in conf ==> CommonDecision(id, conf, cur, GetName).value == Some(VStr(DefaultName(id)))
    ensures "name" !in conf ==> DefaultName(id)[|DefaultName(id)| - |IntToString(id.number)|..] == IntToString(id.number)
    ensures CommonDecision(id, conf, cur, GetSupportedActions).value == Some(VList([]))
    ensures CommonDecision(id, conf, cur, Action(a, p)).value == Some(VStr(""))
    ensures CommonDecision(id, conf, cur, CommandBool(c, raw)).value == Some(VBool(false))
    ensures CommonDecision(id, conf, cur, CommandString(c, raw)).value == Some(VStr(""))
  {
  }

  /**
   * A common endpoint: guard, read the state, decide, merge, reply. A device
   * that is not configured is never read or written.
   */
  method HandleCommon(s: Store, id: DeviceId, cmd: CommonCommand, rq: Request) returns (r: Reply)
    requires s.Valid()
    modifies s`store, s`txid
    ensures s.Valid()
    ensures Served(s.config, old(s.store), s.store, old(s.txid), s.txid, id,
                   CommonDecision(id, DeviceConfigOf(s.config, id), old(s.Current(id)), cmd), rq, r)
  {
    var conf := DeviceConfigOf(s.config, id);
    r := Serve(s, id, cur => CommonDecision(id, conf, cur, cmd), rq);
  }
}
