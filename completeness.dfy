/**
 * The completeness analysis: the endpoints the API description lists for a
 * device type are compared with the endpoints the implementation declares.
 * Paths are normalised first, the comparison is on sets of (method, path)
 * pairs, and the completion rate is the share of expected endpoints that
 * are implemented. The common endpoints are compared without
 * normalisation, and the summary adds up the per-device counts.
 */
module Completeness {
  import opened Wrappers
  import opened Text

  /** One endpoint: its HTTP method and its path. */
  datatype Call = Call(verb: string, path: string)

  /** The counts one analysis reports. */
  datatype Stats = Stats(expected: nat, implemented: nat, missing: nat, completionRate: real)

  /** A device type's report. */
  datatype DeviceStats = DeviceStats(deviceType: string, stats: Stats)

  const DeviceNumber := "{device_number}"
  const Placeholder := "{N}"
  const TypePlaceholder := "{device_type}"

  /**
   * `normalize_path`: a path that starts with `/<device type>/` has every
   * `/<device type>/` rewritten to `/{device_type}/`; any other path has
   * every `{device_number}` rewritten to `{N}`.
   */
  function NormalizePath(path: string, deviceType: string): (r: string)
    ensures StartsWith(path, "/" + deviceType + "/") ==> StartsWith(r, "/" + TypePlaceholder + "/")
    ensures !StartsWith(path, "/" + deviceType + "/") ==> !Contains(r, DeviceNumber)
  {
    var prefix := "/" + deviceType + "/";
    var normalized := Replace(path, DeviceNumber, Placeholder);
    if StartsWith(path, prefix) then
      ReplaceLeading(path, prefix, "/" + TypePlaceholder + "/");
      Replace(path, prefix, "/" + TypePlaceholder + "/")
    else
      ReplaceClearsDeviceNumber(path);
      normalized
  }

  /** A brace-free prefix of a rewritten string was a prefix before the rewrite: every `{N}` starts with a brace. */
  lemma {:induction false} PrefixOfReplaced(q: string, t: string)
    requires '{' !in q && q <= Replace(t, DeviceNumber, Placeholder)
    ensures q <= t
    decreases |t|
  {
    assert q != [] ==> q[0] in q;
    if q != [] && t != [] && !(DeviceNumber <= t) {
      assert Replace(t, DeviceNumber, Placeholder) == [t[0]] + Replace(t[1..], DeviceNumber, Placeholder);
      PrefixOfReplaced(q[1..], t[1..]);
      assert q == [q[0]] + q[1..] && t == [t[0]] + t[1..];
    }
  }

  /** After the rewrite no `{device_number}` is left: the scan rewrites each one, and `{N}` cannot help form a new one. */
  lemma {:induction false} ReplaceClearsDeviceNumber(s: string)
    ensures !Contains(Replace(s, DeviceNumber, Placeholder), DeviceNumber)
    decreases |s|
  {
    if s != [] {
      if DeviceNumber <= s {
        ReplaceClearsDeviceNumber(s[|DeviceNumber|..]);
        PlaceholderFormsNoMatch(Replace(s[|DeviceNumber|..], DeviceNumber, Placeholder));
      } else {
        var rest := Replace(s[1..], DeviceNumber, Placeholder);
        ReplaceClearsDeviceNumber(s[1..]);
        KeptCharacterFormsNoMatch(s);
        ContainsSkip(s[0], rest, DeviceNumber);
      }
    }
  }

  /** `{N}` in front of a string adds no occurrence of `{device_number}`. */
  lemma PlaceholderFormsNoMatch(rest: string)
    ensures Contains(Placeholder + rest, DeviceNumber) == Contains(rest, DeviceNumber)
  {
    assert Placeholder + rest == ['{'] + (['N'] + (['}'] + rest));
    assert DeviceNumber[0] == '{' && DeviceNumber[1] == 'd';
    assert (['}'] + rest)[0] == '}';
    assert (['N'] + (['}'] + rest))[0] == 'N';
    assert (['{'] + (['N'] + (['}'] + rest)))[1] == 'N';
    ContainsSkip('}', rest, DeviceNumber);
    ContainsSkip('N', ['}'] + rest, DeviceNumber);
    ContainsSkip('{', ['N'] + (['}'] + rest), DeviceNumber);
  }

  /** Where the scan keeps a character, no occurrence starts there after the rewrite. */
  lemma KeptCharacterFormsNoMatch(s: string)
    requires s != [] && !(DeviceNumber <= s)
    ensures !(DeviceNumber <= [s[0]] + Replace(s[1..], DeviceNumber, Placeholder))
  {
    var rest := Replace(s[1..], DeviceNumber, Placeholder);
    if DeviceNumber <= [s[0]] + rest {
      assert DeviceNumber[1..] <= rest;
      PrefixOfReplaced(DeviceNumber[1..], s[1..]);
    }
  }

  /** A path outside the device's own prefix comes out without `{device_number}`. */
  lemma OtherPathsLoseDeviceNumber(path: string, deviceType: string)
    requires !StartsWith(path, "/" + deviceType + "/")
    ensures !Contains(NormalizePath(path, deviceType), DeviceNumber)
  {
    ReplaceClearsDeviceNumber(path);
  }

  /** A path outside the device's own prefix and without `{device_number}` is left as it is. */
  lemma OtherPathsWithoutNumberUnchanged(path: string, deviceType: string)
    requires !StartsWith(path, "/" + deviceType + "/") && !Contains(path, DeviceNumber)
    ensures NormalizePath(path, deviceType) == path
  {
    ReplaceAbsent(path, DeviceNumber, Placeholder);
  }

  /**
   * A path `/<device type>/<rest>` whose rest does not repeat the prefix
   * becomes `/{device_type}/<rest>`: the rest, `{device_number}` included,
   * is kept as written.
   */
  lemma DevicePathsGetTypePlaceholder(deviceType: string, rest: string)
    requires !Contains(rest, "/" + deviceType + "/")
    ensures NormalizePath("/" + deviceType + "/" + rest, deviceType) == "/" + TypePlaceholder + "/" + rest
  {
    var prefix := "/" + deviceType + "/";
    var path := prefix + rest;
    assert path[|prefix|..] == rest;
    ReplaceLeading(path, prefix, "/" + TypePlaceholder + "/");
    ReplaceAbsent(rest, prefix, "/" + TypePlaceholder + "/");
  }

  /** The normalised (method, path) pairs of a list of endpoints. */
  function Normalized(calls: seq<Call>, deviceType: string): set<Call>
  {
    set c | c in calls :: Call(c.verb, NormalizePath(c.path, deviceType))
  }

  /** The (method, path) pairs of a list of endpoints, as written. */
  function AsSet(calls: seq<Call>): set<Call>
  {
    set c | c in calls
  }

  /** Deduplicating a list leaves at most as many pairs as it has entries. */
  lemma {:induction false} NormalizedAtMost(calls: seq<Call>, deviceType: string)
    ensures |Normalized(calls, deviceType)| <= |calls|
    decreases |calls|
  {
    if calls != [] {
      var init := calls[..|calls| - 1];
      var last := calls[|calls| - 1];
      NormalizedAtMost(init, deviceType);
      assert calls == init + [last];
      assert Normalized(calls, deviceType) == Normalized(init, deviceType) + {Call(last.verb, NormalizePath(last.path, deviceType))};
    }
  }

  lemma {:induction false} AsSetAtMost(calls: seq<Call>)
    ensures |AsSet(calls)| <= |calls|
    decreases |calls|
  {
    if calls != [] {
      var init := calls[..|calls| - 1];
      var last := calls[|calls| - 1];
      AsSetAtMost(init);
      assert calls == init + [last];
      assert AsSet(calls) == AsSet(init) + {last};
    }
  }

  /** The loops that fill `expected_normalized` and `implemented_normalized`. */
  method NormalizeAll(calls: seq<Call>, deviceType: string) returns (r: set<Call>)
    ensures r == Normalized(calls, deviceType)
  {
    r := {};
    var i := 0;
    while i < |calls|
      invariant 0 <= i <= |calls|
      invariant r == Normalized(calls[..i], deviceType)
    {
      var c := calls[i];
      assert calls[..i + 1] == calls[..i] + [c];
      r := r + {Call(c.verb, NormalizePath(c.path, deviceType))};
      i := i + 1;
    }
    assert calls[..|calls|] == calls;
  }

  /** The loops that fill `expected_set` and `implemented_set`. */
  method CollectAll(calls: seq<Call>) returns (r: set<Call>)
    ensures r == AsSet(calls)
  {
    r := {};
    var i := 0;
    while i < |calls|
      invariant 0 <= i <= |calls|
      invariant r == AsSet(calls[..i])
    {
      assert calls[..i + 1] == calls[..i] + [calls[i]];
      r := r + {calls[i]};
      i := i + 1;
    }
    assert calls[..|calls|] == calls;
  }

  /** The completion rate: the expected pairs that are not missing, as a percentage, or 0 when nothing is expected. */
  function CompletionRate(expected: set<Call>, missing: set<Call>): (r: real)
    ensures |expected| == 0 ==> r == 0.0
    ensures missing <= expected ==> 0.0 <= r <= 100.0
    ensures missing <= expected && |expected| > 0 ==> (r == 100.0 <==> missing == {})
  {
    if |expected| > 0 then
      var rate := ((|expected| - |missing|) as real / |expected| as real) * 100.0;
      if missing <= expected then
        SubsetAtMost(missing, expected);
        ShareBounds((|expected| - |missing|) as real, |expected| as real);
        rate
      else rate
    else 0.0
  }

  /** A subset is no larger than its superset. */
  lemma SubsetAtMost(a: set<Call>, b: set<Call>)
    requires a <= b
    ensures |a| <= |b|
  {
    assert b == a + (b - a);
  }

  /** Missing and extra pairs never overlap, and every missing pair was expected. */
  lemma MissingAndExtra(expected: set<Call>, implemented: set<Call>, c: Call)
    ensures c in expected - implemented ==> c in expected && c !in implemented - expected
    ensures c in implemented - expected ==> c in implemented && c !in expected - implemented
  {
  }

  /** The pairs found are the expected ones less the missing ones. */
  lemma FoundCount(expected: set<Call>, implemented: set<Call>)
    ensures |expected| - |expected - implemented| == |expected * implemented|
  {
    assert expected == (expected - implemented) + (expected * implemented);
    assert (expected - implemented) * (expected * implemented) == {};
  }

  /**
   * The completion rate is a percentage: the share of expected pairs that
   * are implemented, 100 exactly when none is missing, 0 when none is found.
   */
  lemma RateBounds(expected: set<Call>, implemented: set<Call>)
    ensures var rate := CompletionRate(expected, expected - implemented);
      0.0 <= rate <= 100.0
      && (|expected| > 0 ==> (rate == 100.0 <==> expected <= implemented))
      && (expected * implemented == {} ==> rate == 0.0)
  {
    var missing := expected - implemented;
    FoundCount(expected, implemented);
    assert missing <= expected;
    if |expected| > 0 {
      var e := |expected| as real;
      var found := (|expected| - |missing|) as real;
      ShareBounds(found, e);
      if missing == {} {
        forall x | x in expected
          ensures x in implemented
        {
          assert x !in missing;
        }
      }
    }
  }

  /** A part of a positive whole is a share between 0 and 1, and 1 only when it is the whole. */
  lemma ShareBounds(part: real, whole: real)
    requires 0.0 <= part <= whole && whole > 0.0
    ensures 0.0 <= part / whole <= 1.0
    ensures part / whole == 1.0 <==> part == whole
  {
    var q := part / whole;
    assert q * whole == part;
  }

  /** The counts one analysis reports: the list lengths, the number of missing pairs and the rate. */
  function Report(expected: seq<Call>, implemented: seq<Call>, expectedSet: set<Call>, implementedSet: set<Call>): (r: Stats)
    ensures r.expected == |expected| && r.implemented == |implemented|
    ensures r.missing <= |expectedSet|
    ensures 0.0 <= r.completionRate <= 100.0
    ensures |expectedSet| > 0 ==> (r.completionRate == 100.0 <==> expectedSet <= implementedSet)
    ensures expectedSet * implementedSet == {} ==> r.completionRate == 0.0
  {
    var missing := expectedSet - implementedSet;
    RateBounds(expectedSet, implementedSet);
    SubsetAtMost(missing, expectedSet);
    Stats(|expected|, |implemented|, |missing|, CompletionRate(expectedSet, missing))
  }

  /**
   * `analyze_device_completeness`: nothing when the description or the
   * implementation of the device type is absent, otherwise the counts over
   * the normalised pairs.
   */
  method AnalyzeDevice(deviceType: string, expected: Option<seq<Call>>, implemented: Option<seq<Call>>)
    returns (r: Option<DeviceStats>)
    ensures r.None? <==> expected.None? || implemented.None?
    ensures r.Some? ==> r.value == DeviceStats(deviceType,
      Report(expected.value, implemented.value,
        Normalized(expected.value, deviceType), Normalized(implemented.value, deviceType)))
  {
    if expected.None? {
      return None;
    }
    if implemented.None? {
      return None;
    }
    var expectedNormalized := NormalizeAll(expected.value, deviceType);
    var implementedNormalized := NormalizeAll(implemented.value, deviceType);
    var missing := expectedNormalized - implementedNormalized;
    var rate := CompletionRate(expectedNormalized, missing);
    r := Some(DeviceStats(deviceType, Stats(|expected.value|, |implemented.value|, |missing|, rate)));
  }

  /** `analyze_common_endpoints`: the same comparison over the pairs as written. */
  method AnalyzeCommon(expected: Option<seq<Call>>, implemented: Option<seq<Call>>) returns (r: Option<Stats>)
    ensures r.None? <==> expected.None? || implemented.None?
    ensures r.Some? ==> r.value == Report(expected.value, implemented.value, AsSet(expected.value), AsSet(implemented.value))
  {
    if expected.None? {
      return None;
    }
    if implemented.None? {
      return None;
    }
    var expectedSet := CollectAll(expected.value);
    var implementedSet := CollectAll(implemented.value);
    var missing := expectedSet - implementedSet;
    r := Some(Stats(|expected.value|, |implemented.value|, |missing|, CompletionRate(expectedSet, missing)));
  }

  /** A report never counts more missing pairs than the description lists endpoints. */
  lemma DeviceMissingAtMostExpected(deviceType: string, expected: seq<Call>, implemented: seq<Call>)
    ensures var s := Report(expected, implemented, Normalized(expected, deviceType), Normalized(implemented, deviceType));
      s.missing <= s.expected && 0.0 <= s.completionRate <= 100.0
  {
    NormalizedAtMost(expected, deviceType);
    var e := Normalized(expected, deviceType);
    var i := Normalized(implemented, deviceType);
    assert e - i <= e;
    RateBounds(e, i);
  }

  /** Sum of the per-device expected counts. */
  function TotalExpected(stats: seq<DeviceStats>): nat
    decreases |stats|
  {
    if stats == [] then 0 else TotalExpected(stats[..|stats| - 1]) + stats[|stats| - 1].stats.expected
  }

  function TotalImplemented(stats: seq<DeviceStats>): nat
    decreases |stats|
  {
    if stats == [] then 0 else TotalImplemented(stats[..|stats| - 1]) + stats[|stats| - 1].stats.implemented
  }

  function TotalMissing(stats: seq<DeviceStats>): nat
    decreases |stats|
  {
    if stats == [] then 0 else TotalMissing(stats[..|stats| - 1]) + stats[|stats| - 1].stats.missing
  }

  /** The overall device figure as the summary computes it: implemented over expected, as a percentage. */
  function OverallAsWritten(stats: seq<DeviceStats>): (r: real)
    ensures TotalExpected(stats) == 0 ==> r == 0.0
    ensures 0.0 <= r
    ensures TotalImplemented(stats) > TotalExpected(stats) > 0 ==> r > 100.0
  {
    if TotalExpected(stats) > 0 then
      QuotientBounds(TotalImplemented(stats) as real, TotalExpected(stats) as real);
      (TotalImplemented(stats) as real / TotalExpected(stats) as real) * 100.0
    else 0.0
  }

  /** A quotient of non-negative numbers is non-negative, and above 1 when the dividend is above the divisor. */
  lemma QuotientBounds(part: real, whole: real)
    requires 0.0 <= part && whole > 0.0
    ensures 0.0 <= part / whole
    ensures part > whole ==> part / whole > 1.0
  {
    var q := part / whole;
    assert q * whole == part;
  }

  /** The overall device figure as a completion share: expected endpoints not missing, over expected. */
  function OverallCompletion(stats: seq<DeviceStats>): (r: real)
    ensures TotalExpected(stats) == 0 ==> r == 0.0
    ensures TotalMissing(stats) <= TotalExpected(stats) ==> 0.0 <= r <= 100.0
    ensures TotalMissing(stats) <= TotalExpected(stats) && TotalExpected(stats) > 0 ==>
      (r == 100.0 <==> TotalMissing(stats) == 0)
  {
    if TotalExpected(stats) > 0 then
      var share := (TotalExpected(stats) as real - TotalMissing(stats) as real) / TotalExpected(stats) as real * 100.0;
      if TotalMissing(stats) <= TotalExpected(stats) then
        ShareBounds(TotalExpected(stats) as real - TotalMissing(stats) as real, TotalExpected(stats) as real);
        share
      else share
    else 0.0
  }

  /**
   * The summary loop of `main`: the totals over the device reports and, when
   * there is at least one report, the overall figure it prints.
   */
  method Summarize(stats: seq<DeviceStats>)
    returns (totalExpected: nat, totalImplemented: nat, totalMissing: nat, overall: Option<real>)
    ensures totalExpected == TotalExpected(stats)
    ensures totalImplemented == TotalImplemented(stats)
    ensures totalMissing == TotalMissing(stats)
    ensures overall == if stats == [] then None else Some(OverallAsWritten(stats))
  {
    totalExpected, totalImplemented, totalMissing := 0, 0, 0;
    var i := 0;
    while i < |stats|
      invariant 0 <= i <= |stats|
      invariant totalExpected == TotalExpected(stats[..i])
      invariant totalImplemented == TotalImplemented(stats[..i])
      invariant totalMissing == TotalMissing(stats[..i])
    {
      assert stats[..i + 1][..i] == stats[..i];
      totalExpected := totalExpected + stats[i].stats.expected;
      totalImplemented := totalImplemented + stats[i].stats.implemented;
      totalMissing := totalMissing + stats[i].stats.missing;
      i := i + 1;
    }
    assert stats[..|stats|] == stats;
    overall := None;
    if |stats| > 0 {
      overall := Some(if totalExpected > 0 then (totalImplemented as real / totalExpected as real) * 100.0 else 0.0);
    }
  }

  /**
   * The summary's figure can pass 100%: one device whose description lists
   * one endpoint and whose implementation declares that one and another
   * reports 200%.
   */
  lemma OverallCanExceedFull(get: Call, put: Call)
    requires get != put
    ensures var s := Report([get], [get, put], AsSet([get]), AsSet([get, put]));
      OverallAsWritten([DeviceStats("camera", s)]) == 200.0
  {
    var s := Report([get], [get, put], AsSet([get]), AsSet([get, put]));
    assert AsSet([get]) == {get};
    assert AsSet([get, put]) == {get, put};
    assert AsSet([get]) - AsSet([get, put]) == {};
    var stats := [DeviceStats("camera", s)];
    assert stats[..0] == [];
    assert TotalExpected(stats) == 1;
    assert TotalImplemented(stats) == 2;
  }

  /** With every report counting no more missing pairs than expected endpoints, the completion share is a percentage. */
  lemma {:induction false} TotalMissingAtMostExpected(stats: seq<DeviceStats>)
    requires forall k :: 0 <= k < |stats| ==> stats[k].stats.missing <= stats[k].stats.expected
    ensures TotalMissing(stats) <= TotalExpected(stats)
    decreases |stats|
  {
    if stats != [] {
      TotalMissingAtMostExpected(stats[..|stats| - 1]);
    }
  }

  lemma OverallCompletionBounded(stats: seq<DeviceStats>)
    requires forall k :: 0 <= k < |stats| ==> stats[k].stats.missing <= stats[k].stats.expected
    ensures 0.0 <= OverallCompletion(stats) <= 100.0
  {
    TotalMissingAtMostExpected(stats);
  }
}
