/** Small facts about sequences and sets used by several modules. */
module Collections {

  /** No element occurs twice. */
  predicate Distinct<T(==)>(s: seq<T>)
  {
    forall i, j :: 0 <= i < j < |s| ==> s[i] != s[j]
  }

  /** `list(m.keys())`: every key once, in some order. */
  method KeyList<V>(m: map<int, V>) returns (ks: seq<int>)
    ensures Distinct(ks)
    ensures forall n :: n in ks <==> n in m
  {
    ks := [];
    var todo := m.Keys;
    while todo != {}
      invariant todo <= m.Keys
      invariant Distinct(ks)
      invariant forall n :: n in ks <==> n in m && n !in todo
      decreases |todo|
    {
      ghost var w := Pick(todo);
      var k :| k in todo;
      ks := ks + [k];
      todo := todo - {k};
    }
  }

  /** A sequence without repetitions has as many distinct elements as it is long. */
  lemma {:induction false} DistinctCardinality<T>(s: seq<T>)
    requires Distinct(s)
    ensures |set x | x in s| == |s|
  {
    if s != [] {
      var t := s[..|s| - 1];
      var last := s[|s| - 1];
      assert Distinct(t);
      DistinctCardinality(t);
      assert (set x | x in s) == (set x | x in t) + {last};
      assert last !in (set x | x in t);
    }
  }

  /** Some element of a nonempty set. */
  lemma Pick<T>(s: set<T>) returns (x: T)
    requires s != {}
    ensures x in s
  {
    x :| x in s;
  }
}
