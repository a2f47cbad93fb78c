/**
 * Python values as they appear in a device's property map and in the YAML
 * configuration, and the few Python operations on them that the simulator's
 * handlers rely on: `dict.get` with a default, `dict.update`, truthiness,
 * numeric comparison (where a non-number raises `TypeError`), `int()` of a
 * number, and the float remainder `%`.
 */
module Values {
  import opened Wrappers
  import Text

  /** A value of the property store or of the configuration document. */
  datatype Value =
    | VBool(b: bool)
    | VInt(i: int)
    | VReal(r: real)
    | VStr(s: string)
    | VNone
    | VList(items: seq<Value>)
    | VMap(entries: map<string, Value>)

  /** A property map: a device's state, or its section of the configuration. */
  type Props = map<string, Value>

  /** `m.get(key, default)`. */
  function Get(m: Props, key: string, default: Value): (v: Value)
    ensures key in m ==> v == m[key]
    ensures key !in m ==> v == default
  {
    if key in m then m[key] else default
  }

  /** `m.update(patch)`: every key of the patch takes the patch's value, every other key keeps its own. */
  function Merge(m: Props, patch: Props): (r: Props)
    ensures r.Keys == m.Keys + patch.Keys
    ensures forall k :: k in patch ==> r[k] == patch[k]
    ensures forall k :: k in m && k !in patch ==> r[k] == m[k]
  {
    m + patch
  }

  /** `after` agrees with `before` on every key outside `keys` and has no keys besides those. */
  predicate OnlyChanged(before: Props, after: Props, keys: set<string>)
  {
    && before.Keys <= after.Keys
    && after.Keys <= before.Keys + keys
    && forall k :: k in before && k !in keys ==> after[k] == before[k]
  }

  /** Two merges one after the other change only the keys of their two patches. */
  lemma MergeTwice(m: Props, p: Props, q: Props, keys: set<string>)
    requires p.Keys + q.Keys <= keys
    ensures OnlyChanged(m, Merge(Merge(m, p), q), keys)
  {
  }

  /** Python truthiness, as used by `if not config.get(...)`. */
  predicate Truthy(v: Value)
  {
    match v
    case VBool(b) => b
    case VInt(i) => i != 0
    case VReal(r) => r != 0.0
    case VStr(s) => s != ""
    case VNone => false
    case VList(xs) => xs != []
    case VMap(m) => m != map[]
  }

  /**
   * The number a value stands for in Python arithmetic and ordering: `bool`
   * is the integer 0 or 1, `int` and `float` are themselves, and anything else
   * makes the comparison raise `TypeError`.
   */
  function Num(v: Value): (r: Option<real>)
    ensures r.Some? <==> (v.VBool? || v.VInt? || v.VReal?)
  {
    match v
    case VBool(b) => Some(if b then 1.0 else 0.0)
    case VInt(i) => Some(i as real)
    case VReal(x) => Some(x)
    case _ => None
  }

  /** Python `v == x` for a numeric constant `x`: false for every non-number. */
  predicate NumEq(v: Value, x: real)
  {
    Num(v) == Some(x)
  }

  /** Python `int(x)` of a float: truncation toward zero. */
  function Trunc(x: real): (r: int)
    ensures 0.0 <= x ==> r as real <= x < r as real + 1.0
    ensures x < 0.0 ==> r as real - 1.0 < x <= r as real
  {
    if x >= 0.0 then x.Floor else -((-x).Floor)
  }

  /**
   * Python `int(v)`: a number converts (a float truncated toward zero), a
   * string is read as a decimal literal, and anything else raises.
   */
  function IntOf(v: Value): (r: Option<int>)
    ensures Num(v).Some? ==> r.Some?
    ensures v.VInt? ==> r == Some(v.i)
    ensures v.VReal? ==> r == Some(Trunc(v.r))
    ensures v.VStr? ==> r == Text.ParseInt(v.s)
    ensures v.VNone? || v.VList? || v.VMap? ==> r.None?
  {
    match v
    case VBool(b) => Some(if b then 1 else 0)
    case VInt(i) => Some(i)
    case VReal(x) => Some(Trunc(x))
    case VStr(t) => Text.ParseInt(t)
    case _ => None
  }

  /** `int()` reads back the decimal text `str()` writes. */
  lemma IntOfDecimalText(n: int)
    ensures IntOf(VStr(Text.IntToString(n))) == Some(n)
  {
    Text.IntToStringRoundTrip(n);
  }

  /** Python `len(v)`: defined for lists, strings and dicts; anything else raises `TypeError`. */
  function Len(v: Value): (r: Option<nat>)
    ensures r.Some? <==> (v.VList? || v.VStr? || v.VMap?)
    ensures v.VList? ==> r == Some(|v.items|)
  {
    match v
    case VList(xs) => Some(|xs|)
    case VStr(s) => Some(|s|)
    case VMap(m) => Some(|m|)
    case _ => None
  }

  /**
   * Python's float remainder `x % m` for a positive modulus: the result lies
   * in [0, m) and differs from `x` by a whole multiple of `m`.
   */
  function FloatMod(x: real, m: real): (r: real)
    requires m > 0.0
    ensures 0.0 <= r < m
    ensures ((x - r) / m).Floor as real == (x - r) / m
  {
    var q := (x / m).Floor;
    QuotientBounds(x, m, q);
    x - m * (q as real)
  }

  /** The bounds on `x - m * floor(x / m)` that FloatMod needs. */
  lemma QuotientBounds(x: real, m: real, q: int)
    requires m > 0.0 && q == (x / m).Floor
    ensures 0.0 <= x - m * (q as real) < m
    ensures (x - (x - m * (q as real))) / m == q as real
  {
    var d := x / m;
    assert d * m == x;
    var lo := d - q as real;
    assert 0.0 <= lo < 1.0;
    assert x - m * (q as real) == lo * m;
    assert 0.0 <= lo * m;
    assert lo * m < m by {
      assert (1.0 - lo) * m > 0.0;
    }
  }

  /** A remainder of a value already in [0, m) is that value. */
  lemma FloatModOfInRange(x: real, m: real)
    requires m > 0.0 && 0.0 <= x < m
    ensures FloatMod(x, m) == x
  {
    var d := x / m;
    assert d * m == x;
    assert 0.0 <= d;
    var a := 1.0 - d;
    assert a * m == m - x;
    assert m - x > 0.0;
    PositiveFactor(a, m);
    assert d.Floor == 0;
  }

  /** A product with a positive factor is positive only if the other factor is. */
  lemma PositiveFactor(a: real, m: real)
    requires m > 0.0 && a * m > 0.0
    ensures a > 0.0
  {
  }
}
