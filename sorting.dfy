/**
 * Python's `sorted` on strings: ascending in the lexicographic order of
 * code points, which is the order `<` gives Python strings.
 */
module Sorting {

  /** `a < b` on Python strings: the first differing character decides, and a proper prefix comes first. */
  predicate Below(a: string, b: string)
    decreases |a|
  {
    if a == [] then b != []
    else if b == [] then false
    else if a[0] != b[0] then a[0] < b[0]
    else Below(a[1..], b[1..])
  }

  lemma {:induction false} BelowIrreflexive(a: string)
    ensures !Below(a, a)
    decreases |a|
  {
    if a != [] {
      BelowIrreflexive(a[1..]);
    }
  }

  lemma {:induction false} BelowTransitive(a: string, b: string, c: string)
    requires Below(a, b) && Below(b, c)
    ensures Below(a, c)
    decreases |a|
  {
    if a != [] && b != [] && c != [] && a[0] == b[0] && b[0] == c[0] {
      BelowTransitive(a[1..], b[1..], c[1..]);
    }
  }

  lemma {:induction false} BelowTotal(a: string, b: string)
    ensures a == b || Below(a, b) || Below(b, a)
    decreases |a|
  {
    if a != [] && b != [] && a[0] == b[0] {
      assert a == [a[0]] + a[1..] && b == [b[0]] + b[1..];
      BelowTotal(a[1..], b[1..]);
    }
  }

  lemma BelowAsymmetric(a: string, b: string)
    ensures !(Below(a, b) && Below(b, a))
  {
    if Below(a, b) && Below(b, a) {
      BelowTransitive(a, b, a);
      BelowIrreflexive(a);
    }
  }

  /** Each element strictly below the next: ascending, and no element twice. */
  predicate StrictlySorted(s: seq<string>)
  {
    forall i, j :: 0 <= i < j < |s| ==> Below(s[i], s[j])
  }

  /** `x` put into its place in an ascending list; nothing changes when it is already there. */
  function Insert(s: seq<string>, x: string): (r: seq<string>)
    requires StrictlySorted(s)
    ensures StrictlySorted(r)
    ensures forall y :: y in r <==> y in s || y == x
    decreases |s|
  {
    if s == [] then [x]
    else if x == s[0] then s
    else if Below(x, s[0]) then
      assert forall j :: 0 < j < |s| ==> Below(x, s[j]) by {
        forall j | 0 < j < |s| ensures Below(x, s[j]) { BelowTransitive(x, s[0], s[j]); }
      }
      [x] + s
    else
      BelowTotal(x, s[0]);
      var rest := Insert(s[1..], x);
      assert forall y :: y in rest ==> Below(s[0], y);
      [s[0]] + rest
  }

  /** `sorted(set(xs))`: every element of `xs` once, ascending. */
  function SortedUnique(xs: seq<string>): (r: seq<string>)
    ensures StrictlySorted(r)
    ensures forall y :: y in r <==> y in xs
    decreases |xs|
  {
    if xs == [] then [] else Insert(SortedUnique(xs[..|xs| - 1]), xs[|xs| - 1])
  }

  /** Nothing in an ascending listing is below its first element. */
  lemma NotBelowFirst(s: seq<string>, x: string)
    requires StrictlySorted(s) && x in s
    ensures !Below(x, s[0])
  {
    var j :| 0 <= j < |s| && s[j] == x;
    BelowAsymmetric(x, s[0]);
    BelowIrreflexive(x);
  }

  /** There is one ascending duplicate-free listing of a collection: the two orders agree. */
  lemma {:induction false} SortedListingIsUnique(r: seq<string>, t: seq<string>)
    requires StrictlySorted(r) && StrictlySorted(t)
    requires forall y :: y in r <==> y in t
    ensures r == t
    decreases |r|
  {
    FirstIsMember(r);
    FirstIsMember(t);
    if r != [] {
      NotBelowFirst(t, r[0]);
      NotBelowFirst(r, t[0]);
      BelowTotal(r[0], t[0]);
      assert r[0] == t[0];
      forall y
        ensures y in r[1..] <==> y in t[1..]
      {
        if y in r[1..] {
          var i :| 1 <= i < |r| && r[i] == y;
          assert Below(r[0], y);
          BelowIrreflexive(y);
          assert y in t;
          var j :| 0 <= j < |t| && t[j] == y;
          assert t[1..][j - 1] == y;
        }
        if y in t[1..] {
          var i :| 1 <= i < |t| && t[i] == y;
          assert Below(t[0], y);
          BelowIrreflexive(y);
          assert y in r;
          var j :| 0 <= j < |r| && r[j] == y;
          assert r[1..][j - 1] == y;
        }
      }
      SortedListingIsUnique(r[1..], t[1..]);
      assert r == [r[0]] + r[1..] && t == [t[0]] + t[1..];
    }
  }

  lemma FirstIsMember(s: seq<string>)
    ensures s != [] ==> s[0] in s
  {
  }
}
