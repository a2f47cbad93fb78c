/**
 * The switch device: a table of switches, configured under `switches` by
 * the decimal text of their Id, each with its own limits and permissions.
 * Writes go into the state's own `switches` table, which starts out as the
 * configured one.
 */
module Switch {
  import opened Wrappers
  import opened Values
  import opened Text
  import opened State
  import opened Envelope
  import opened Common

  const Kind: string := "switch"

  datatype Command =
    | MaxSwitch
    | CanAsync(id: int)
    | CanWrite(id: int)
    | GetSwitch(id: int)
    | GetSwitchDescription(id: int)
    | GetSwitchName(id: int)
    | GetSwitchValue(id: int)
    | MinSwitchValue(id: int)
    | MaxSwitchValue(id: int)
    | SwitchStep(id: int)
    | StateChangeComplete(id: int)
    | SetSwitch(id: int, state: bool)
    | SetSwitchValue(id: int, value: real)
    | SetSwitchName(id: int, name: string)
    | SetAsync(id: int, state: bool)
    | SetAsyncValue(id: int, value: real)

  /** The commands that address one switch and check its Id first. */
  predicate Addressed(cmd: Command)
  {
    !cmd.MaxSwitch? && !cmd.StateChangeComplete?
  }

  function InvalidId(id: int): (f: Failure)
    ensures f.AlpacaError? && f.code == 0x402
  {
    AlpacaError(0x402, "Invalid switch ID: " + IntToString(id))
  }

  /** Calling `.get` on a switch entry that is not a dict. */
  function NotADict(): (f: Failure)
    ensures f.Internal?
  {
    Internal("AttributeError")
  }

  /** The outcome of looking switch `id` up in a table. */
  datatype Lookup = Found(entry: Value) | Failed(failure: Failure)

  /**
   * Python `key in table` for a switches table: a key of a dict, an element
   * of a list, a substring of a string; None when the value does not
   * support `in` and the test raises a TypeError.
   */
  function Listed(table: Value, key: string): (r: Option<bool>)
    ensures table.VMap? ==> r == Some(key in table.entries)
    ensures table.VList? ==> r == Some(VStr(key) in table.items)
    ensures table.VStr? ==> r == Some(Contains(table.s, key))
    ensures r.None? <==> !(table.VMap? || table.VList? || table.VStr?)
  {
    match table
    case VMap(e) => Some(key in e)
    case VList(items) => Some(VStr(key) in items)
    case VStr(t) => Some(Contains(t, key))
    case _ => None
  }

  /**
   * `switches[str(Id)]` after the `str(Id) not in switches` test: an Id the
   * `in` test does not find gives 0x402, whatever kind of value the table
   * is; a table that does not support `in`, or one that passes it but
   * cannot be indexed by a string (a list or a string), raises a TypeError.
   */
  function ConfigEntry(conf: Props, id: int): (r: Lookup)
    ensures Get(conf, "switches", VMap(map[])).VMap? ==>
      (r.Failed? <==> IntToString(id) !in Get(conf, "switches", VMap(map[])).entries)
    ensures r.Failed? && Get(conf, "switches", VMap(map[])).VMap? ==> r.failure == InvalidId(id)
    ensures r.Found? ==> Get(conf, "switches", VMap(map[])).VMap?
    ensures r.Failed? ==>
      (r.failure == InvalidId(id) <==> Listed(Get(conf, "switches", VMap(map[])), IntToString(id)) == Some(false))
  {
    var table := Get(conf, "switches", VMap(map[]));
    var key := IntToString(id);
    match Listed(table, key)
    case None => Failed(TypeError())
    case Some(listed) =>
      if !listed then Failed(InvalidId(id))
      else if table.VMap? then Found(table.entries[key])
      else Failed(TypeError())
  }

  /** `entry.get(key, default)`; None when the entry is not a dict. */
  function EntryGet(entry: Value, key: string, default: Value): (r: Option<Value>)
    ensures r.Some? <==> entry.VMap?
    ensures entry.VMap? ==> r == Some(Get(entry.entries, key, default))
  {
    if entry.VMap? then Some(Get(entry.entries, key, default)) else None
  }

  /** A configuration getter: the entry's `key`, or `default`. */
  function Setting(conf: Props, id: int, key: string, default: Value): (d: Decision)
    ensures d.Done? ==> d.patch == map[]
  {
    match ConfigEntry(conf, id)
    case Failed(f) => Raise(f)
    case Found(entry) =>
      match EntryGet(entry, key, default)
      case None => Raise(NotADict())
      case Some(v) => Done(map[], Some(v))
  }

  /**
   * The current `value` of switch `id`: from the state's table when the
   * `in` test finds the Id there, otherwise from the configuration entry;
   * `default` when the chosen entry has no `value`. A state table that
   * finds the Id but is not a dict, or that does not support `in`, raises
   * a TypeError.
   */
  function CurrentValue(cur: Props, entry: Value, id: int, default: Value): (r: Lookup)
    ensures Get(cur, "switches", VMap(map[])).VMap? && IntToString(id) !in Get(cur, "switches", VMap(map[])).entries ==>
      r == (if entry.VMap? then Found(Get(entry.entries, "value", default)) else Failed(NotADict()))
    ensures Listed(Get(cur, "switches", VMap(map[])), IntToString(id)).None? ==> r == Failed(TypeError())
  {
    var states := Get(cur, "switches", VMap(map[]));
    var key := IntToString(id);
    match Listed(states, key)
    case None => Failed(TypeError())
    case Some(listed) =>
      if listed && !states.VMap? then Failed(TypeError())
      else
        var source := if listed then states.entries[key] else entry;
        match EntryGet(source, "value", default)
        case None => Failed(NotADict())
        case Some(v) => Found(v)
  }

  /** `bool(value)` if the value is an int or a float, the value itself otherwise. */
  function AsSwitchState(v: Value): (r: Value)
    ensures v.VInt? || v.VReal? ==> r == VBool(Truthy(v))
    ensures !(v.VInt? || v.VReal?) ==> r == v
  {
    if v.VInt? || v.VReal? then VBool(Truthy(v)) else v
  }

  /**
   * `switch_states[str(Id)]["value"] = value` followed by merging the table
   * into the state: the table with the Id's entry updated (or created).
   */
  function Write(cur: Props, id: int, v: Value): (d: Decision)
    ensures d.Done? ==> d.patch.Keys == {"switches"} && d.value == None
  {
    match Get(cur, "switches", VMap(map[]))
    case VMap(states) =>
      var key := IntToString(id);
      var entry := if key in states then states[key] else VMap(map[]);
      if entry.VMap? then Done(map["switches" := VMap(states[key := VMap(entry.entries["value" := v])])], None)
      else Raise(TypeError())
    case _ => Raise(TypeError())
  }

  /** `setswitch` and `setasync`: Id, then the permission, then the write. */
  function SetState(conf: Props, cur: Props, id: int, gate: string, open: bool, message: string, v: bool): (d: Decision)
  {
    match ConfigEntry(conf, id)
    case Failed(f) => Raise(f)
    case Found(entry) =>
      match EntryGet(entry, gate, VBool(open))
      case None => Raise(NotADict())
      case Some(allowed) =>
        if !Truthy(allowed) then Raise(NotImplemented("Switch " + IntToString(id) + message))
        else Write(cur, id, VBool(v))
  }

  /**
   * `setswitchvalue` and `setasyncvalue`: Id, then the permission, then
   * `Value < minimum or Value > maximum` (left to right, so a value below
   * the minimum is refused before the maximum is looked at), then the write.
   */
  function SetValue(conf: Props, cur: Props, id: int, gate: string, open: bool, message: string, v: real): (d: Decision)
  {
    match ConfigEntry(conf, id)
    case Failed(f) => Raise(f)
    case Found(entry) =>
      if !entry.VMap? then Raise(NotADict())
      else
        var e := entry.entries;
        if !Truthy(Get(e, gate, VBool(open))) then Raise(NotImplemented("Switch " + IntToString(id) + message))
        else
          var lo := Get(e, "minimum", VReal(0.0));
          var hi := Get(e, "maximum", VReal(1.0));
          var refused := OutOfRange("Value " + Show(VReal(v)) + " out of range (" + Show(lo) + "-" + Show(hi) + ")");
          match Num(lo)
          case None => Raise(TypeError())
          case Some(low) =>
            if v < low then Raise(refused)
            else
              match Num(hi)
              case None => Raise(TypeError())
              case Some(high) => if v > high then Raise(refused) else Write(cur, id, VReal(v))
  }

  const ReadOnly: string := " is read-only"
  const NoAsync: string := " does not support async operation"

  /** What each switch endpoint decides on configuration `conf` and state `cur`. */
  function Decide(conf: Props, cur: Props, cmd: Command): (d: Decision)
    ensures d.Done? && !(cmd.SetSwitch? || cmd.SetSwitchValue? || cmd.SetAsync? || cmd.SetAsyncValue?) ==> d.patch == map[]
  {
    match cmd
    case MaxSwitch => Done(map[], Some(Get(conf, "maxswitch", VInt(0))))
    case CanAsync(id) => Setting(conf, id, "canasync", VBool(false))
    case CanWrite(id) => Setting(conf, id, "canwrite", VBool(true))
    case GetSwitchDescription(id) => Setting(conf, id, "description", VStr(""))
    case GetSwitchName(id) => Setting(conf, id, "name", VStr("Switch " + IntToString(id)))
    case MinSwitchValue(id) => Setting(conf, id, "minimum", VReal(0.0))
    case MaxSwitchValue(id) => Setting(conf, id, "maximum", VReal(1.0))
    case SwitchStep(id) => Setting(conf, id, "step", VReal(1.0))
    case GetSwitch(id) =>
      (match ConfigEntry(conf, id)
       case Failed(f) => Raise(f)
       case Found(entry) =>
         match CurrentValue(cur, entry, id, VBool(false))
         case Failed(f) => Raise(f)
         case Found(v) => Done(map[], Some(AsSwitchState(v))))
    case GetSwitchValue(id) =>
      (match ConfigEntry(conf, id)
       case Failed(f) => Raise(f)
       case Found(entry) =>
         match CurrentValue(cur, entry, id, VReal(0.0))
         case Failed(f) => Raise(f)
         case Found(v) => if Num(v).None? then Raise(TypeError()) else Done(map[], Some(VReal(Num(v).value))))
    case StateChangeComplete(_) => Done(map[], Some(VBool(true)))
    case SetSwitchName(id, _) =>
      (match Listed(Get(conf, "switches", VMap(map[])), IntToString(id))
       case None => Raise(TypeError())
       case Some(listed) => if listed then Done(map[], None) else Raise(InvalidId(id)))
    case SetSwitch(id, v) => SetState(conf, cur, id, "canwrite", true, ReadOnly, v)
    case SetAsync(id, v) => SetState(conf, cur, id, "canasync", false, NoAsync, v)
    case SetSwitchValue(id, v) => SetValue(conf, cur, id, "canwrite", true, ReadOnly, v)
    case SetAsyncValue(id, v) => SetValue(conf, cur, id, "canasync", false, NoAsync, v)
  }

  /** The Id a command addresses. */
  function IdOf(cmd: Command): int
    requires Addressed(cmd)
  {
    cmd.id
  }

  /**
   * Every per-switch endpoint refuses an Id that the `in` test does not
   * find in the configured table (not a key of a dict, not an element of a
   * list, not inside a string) with 0x402 and changes nothing;
   * `statechangecomplete` answers True for any Id, and `maxswitch` needs no
   * Id.
   */
  lemma UnknownIdRefused(conf: Props, cur: Props, cmd: Command)
    requires Addressed(cmd)
    requires Listed(Get(conf, "switches", VMap(map[])), IntToString(IdOf(cmd))) == Some(false)
    ensures Decide(conf, cur, cmd) == Raise(InvalidId(IdOf(cmd)))
  {
  }

  lemma StateChangeAlwaysComplete(conf: Props, cur: Props, id: int)
    ensures Decide(conf, cur, StateChangeComplete(id)) == Done(map[], Some(VBool(true)))
  {
  }

  /** The switch's configuration entry, when it is a dict. */
  predicate HasEntry(conf: Props, id: int)
  {
    && Get(conf, "switches", VMap(map[])).VMap?
    && IntToString(id) in Get(conf, "switches", VMap(map[])).entries
    && Get(conf, "switches", VMap(map[])).entries[IntToString(id)].VMap?
  }

  function EntryOf(conf: Props, id: int): Props
    requires HasEntry(conf, id)
  {
    Get(conf, "switches", VMap(map[])).entries[IntToString(id)].entries
  }

  /**
   * A switch whose `canwrite` is falsy refuses both synchronous writes with
   * 0x401, whatever the value, and one whose `canasync` is falsy (the
   * default) refuses both asynchronous writes.
   */
  lemma PermissionsComeBeforeValues(conf: Props, cur: Props, id: int, b: bool, v: real)
    requires HasEntry(conf, id)
    ensures !Truthy(Get(EntryOf(conf, id), "canwrite", VBool(true))) ==>
      RaisesCode(Decide(conf, cur, SetSwitch(id, b)), 0x401) && RaisesCode(Decide(conf, cur, SetSwitchValue(id, v)), 0x401)
    ensures !Truthy(Get(EntryOf(conf, id), "canasync", VBool(false))) ==>
      RaisesCode(Decide(conf, cur, SetAsync(id, b)), 0x401) && RaisesCode(Decide(conf, cur, SetAsyncValue(id, v)), 0x401)
    ensures "canasync" !in EntryOf(conf, id) ==> RaisesCode(Decide(conf, cur, SetAsync(id, b)), 0x401)
  {
  }

  /** The state's table can take a write for this Id. */
  predicate Writable(cur: Props, id: int)
  {
    && Get(cur, "switches", VMap(map[])).VMap?
    && var states := Get(cur, "switches", VMap(map[])).entries;
       IntToString(id) in states ==> states[IntToString(id)].VMap?
  }

  /**
   * On a writable switch with numeric limits, a value write succeeds exactly
   * when minimum <= value <= maximum (both ends included), and is otherwise
   * refused with 0x402.
   */
  lemma ValueRangeIsInclusive(conf: Props, cur: Props, id: int, v: real, low: real, high: real)
    requires HasEntry(conf, id) && Writable(cur, id)
    requires Truthy(Get(EntryOf(conf, id), "canwrite", VBool(true)))
    requires Num(Get(EntryOf(conf, id), "minimum", VReal(0.0))) == Some(low)
    requires Num(Get(EntryOf(conf, id), "maximum", VReal(1.0))) == Some(high)
    ensures Decide(conf, cur, SetSwitchValue(id, v)).Done? <==> low <= v <= high
    ensures !(low <= v <= high) ==> RaisesCode(Decide(conf, cur, SetSwitchValue(id, v)), 0x402)
  {
  }

  /** A value write that succeeds is the table write of that value. */
  lemma SuccessfulWritesAreTableWrites(conf: Props, cur: Props, id: int, v: real, b: bool)
    ensures Decide(conf, cur, SetSwitchValue(id, v)).Done? ==>
      Decide(conf, cur, SetSwitchValue(id, v)) == Write(cur, id, VReal(v))
    ensures Decide(conf, cur, SetSwitch(id, b)).Done? ==> Decide(conf, cur, SetSwitch(id, b)) == Write(cur, id, VBool(b))
  {
  }

  /**
   * After a table write of `v` to switch `id`, the state's table gives `v`
   * for that Id and what it gave before for every other Id.
   */
  lemma WriteUpdatesOneEntry(cur: Props, entry: Value, id: int, other: int, v: Value, default: Value)
    requires Write(cur, id, v).Done?
    ensures var after := Apply(cur, Write(cur, id, v));
      && CurrentValue(after, entry, id, default) == Found(v)
      && (other != id ==> CurrentValue(after, entry, other, default) == CurrentValue(cur, entry, other, default))
      && OnlyChanged(cur, after, {"switches"})
  {
    if other != id && IntToString(id) == IntToString(other) {
      IntToStringInjective(id, other);
    }
  }

  /**
   * A successful write of a value is read back by `getswitchvalue` as that
   * value and by `getswitch` as its truth, and only the `switches` property
   * changes.
   */
  lemma WriteValueThenRead(conf: Props, cur: Props, id: int, v: real)
    requires Decide(conf, cur, SetSwitchValue(id, v)).Done?
    ensures var after := Apply(cur, Decide(conf, cur, SetSwitchValue(id, v)));
      && Decide(conf, after, GetSwitchValue(id)) == Done(map[], Some(VReal(v)))
      && Decide(conf, after, GetSwitch(id)) == Done(map[], Some(VBool(v != 0.0)))
      && OnlyChanged(cur, after, {"switches"})
  {
    SuccessfulWritesAreTableWrites(conf, cur, id, v, false);
    var entry := ConfigEntry(conf, id).entry;
    WriteUpdatesOneEntry(cur, entry, id, id, VReal(v), VReal(0.0));
    WriteUpdatesOneEntry(cur, entry, id, id, VReal(v), VBool(false));
  }

  /** A successful write of a value leaves every other switch reading as before. */
  lemma WriteValueKeepsOthers(conf: Props, cur: Props, id: int, other: int, v: real)
    requires Decide(conf, cur, SetSwitchValue(id, v)).Done?
    requires other != id
    ensures var after := Apply(cur, Decide(conf, cur, SetSwitchValue(id, v)));
      && Decide(conf, after, GetSwitchValue(other)) == Decide(conf, cur, GetSwitchValue(other))
      && Decide(conf, after, GetSwitch(other)) == Decide(conf, cur, GetSwitch(other))
  {
    SuccessfulWritesAreTableWrites(conf, cur, id, v, false);
    if ConfigEntry(conf, other).Found? {
      var e2 := ConfigEntry(conf, other).entry;
      WriteUpdatesOneEntry(cur, e2, id, other, VReal(v), VReal(0.0));
      WriteUpdatesOneEntry(cur, e2, id, other, VReal(v), VBool(false));
    }
  }

  /** A successful write of a state is read back by `getswitch`, and by `getswitchvalue` as 1.0 or 0.0. */
  lemma WriteStateThenRead(conf: Props, cur: Props, id: int, b: bool)
    requires Decide(conf, cur, SetSwitch(id, b)).Done?
    ensures var after := Apply(cur, Decide(conf, cur, SetSwitch(id, b)));
      && Decide(conf, after, GetSwitch(id)) == Done(map[], Some(VBool(b)))
      && Decide(conf, after, GetSwitchValue(id)) == Done(map[], Some(VReal(if b then 1.0 else 0.0)))
      && OnlyChanged(cur, after, {"switches"})
  {
    SuccessfulWritesAreTableWrites(conf, cur, id, 0.0, b);
    var entry := ConfigEntry(conf, id).entry;
    WriteUpdatesOneEntry(cur, entry, id, id, VBool(b), VReal(0.0));
    WriteUpdatesOneEntry(cur, entry, id, id, VBool(b), VBool(false));
  }

  /**
   * `setswitchname` only checks the Id; it changes nothing, and it succeeds
   * exactly when the `in` test finds the Id (it never indexes the table).
   */
  lemma SetSwitchNameChangesNothing(conf: Props, cur: Props, id: int, name: string)
    ensures Apply(cur, Decide(conf, cur, SetSwitchName(id, name))) == cur
    ensures Decide(conf, cur, SetSwitchName(id, name)).Done? <==>
      Listed(Get(conf, "switches", VMap(map[])), IntToString(id)) == Some(true)
    ensures Decide(conf, cur, SetSwitchName(id, name)).Raise? ==>
      Decide(conf, cur, SetSwitchName(id, name)) ==
        Raise(if Listed(Get(conf, "switches", VMap(map[])), IntToString(id)).None? then TypeError() else InvalidId(id))
  {
  }

  /**
   * A switch that has never been written reads the value its configuration
   * entry gives (False, or 0.0, when the entry has none), because the state
   * starts with the configured table.
   */
  lemma FreshSwitchReadsConfiguration(cfg: DeviceConfig, number: nat, id: int)
    requires HasEntry(DeviceConfigOf(cfg, DeviceId(Kind, number)), id)
    ensures var conf := DeviceConfigOf(cfg, DeviceId(Kind, number));
      var cur := InitialState(cfg, DeviceId(Kind, number));
      Decide(conf, cur, GetSwitch(id)) == Done(map[], Some(AsSwitchState(Get(EntryOf(conf, id), "value", VBool(false)))))
  {
    var conf := DeviceConfigOf(cfg, DeviceId(Kind, number));
    var cur := InitialState(cfg, DeviceId(Kind, number));
    assert "switches" in conf;
    assert cur["switches"] == conf["switches"];
  }

  /** Guard, read, decide, merge, reply. */
  method Handle(s: Store, number: nat, cmd: Command, rq: Request) returns (r: Reply)
    requires s.Valid()
    modifies s`store, s`txid
    ensures s.Valid()
    ensures Served(s.config, old(s.store), s.store, old(s.txid), s.txid, DeviceId(Kind, number),
                   Decide(DeviceConfigOf(s.config, DeviceId(Kind, number)), old(s.Current(DeviceId(Kind, number))), cmd), rq, r)
  {
    var id := DeviceId(Kind, number);
    var conf := DeviceConfigOf(s.config, id);
    r := Serve(s, id, cur => Decide(conf, cur, cmd), rq);
  }
}
