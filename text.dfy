/**
 * The string operations of Python that the simulator's code applies to
 * device type names, paths and query strings, over ASCII: case mapping,
 * `str.title()`, `str()` and `int()` of integers, `split`, `strip`,
 * `replace`, `in`, `startswith` and `endswith`.
 */
module Text {
  import opened Wrappers

  predicate IsUpperChar(c: char) { 'A' <= c <= 'Z' }
  predicate IsLowerChar(c: char) { 'a' <= c <= 'z' }

  /** A cased character in the sense of `str.title()`, restricted to ASCII letters. */
  predicate IsCased(c: char) { IsUpperChar(c) || IsLowerChar(c) }

  predicate IsDigit(c: char) { '0' <= c <= '9' }

  function LowerChar(c: char): (r: char)
    ensures IsUpperChar(c) ==> IsLowerChar(r) && r as int == c as int + 32
    ensures !IsUpperChar(c) ==> r == c
  {
    if IsUpperChar(c) then (c as int + 32) as char else c
  }

  function UpperChar(c: char): (r: char)
    ensures IsLowerChar(c) ==> IsUpperChar(r) && r as int == c as int - 32
    ensures !IsLowerChar(c) ==> r == c
  {
    if IsLowerChar(c) then (c as int - 32) as char else c
  }

  /** `s.lower()`: every character mapped on its own. */
  function Lower(s: string): (r: string)
    ensures |r| == |s|
    ensures forall i :: 0 <= i < |s| ==> r[i] == LowerChar(s[i])
  {
    if s == [] then [] else [LowerChar(s[0])] + Lower(s[1..])
  }

  /** `s.upper()`: every character mapped on its own. */
  function Upper(s: string): (r: string)
    ensures |r| == |s|
    ensures forall i :: 0 <= i < |s| ==> r[i] == UpperChar(s[i])
  {
    if s == [] then [] else [UpperChar(s[0])] + Upper(s[1..])
  }

  /** Case-folding forgets an earlier upper-casing: `s.upper().lower() == s.lower()`. */
  lemma LowerOfUpper(s: string)
    ensures Lower(Upper(s)) == Lower(s)
  {
    var u := Upper(s);
    forall i | 0 <= i < |s| ensures Lower(u)[i] == Lower(s)[i] {
      assert LowerChar(UpperChar(s[i])) == LowerChar(s[i]);
    }
  }

  /** Whether the character before position `i` of `s` is cased, `before` standing for position -1. */
  predicate CasedBefore(s: string, i: nat, before: bool)
    requires i <= |s|
  {
    if i == 0 then before else IsCased(s[i - 1])
  }

  /** `str.title()` carried on after a prefix whose last character was cased (`afterCased`) or not. */
  function TitleFrom(s: string, afterCased: bool): (r: string)
    ensures |r| == |s|
    ensures forall i :: 0 <= i < |s| ==>
      r[i] == if CasedBefore(s, i, afterCased) then LowerChar(s[i]) else UpperChar(s[i])
  {
    if s == [] then []
    else
      var c := if afterCased then LowerChar(s[0]) else UpperChar(s[0]);
      var rest := TitleFrom(s[1..], IsCased(s[0]));
      var r := [c] + rest;
      assert forall i :: 0 <= i < |s| ==>
        r[i] == if CasedBefore(s, i, afterCased) then LowerChar(s[i]) else UpperChar(s[i])
      by {
        forall i | 1 <= i < |s|
          ensures r[i] == if CasedBefore(s, i, afterCased) then LowerChar(s[i]) else UpperChar(s[i])
        {
          assert r[i] == rest[i - 1] && s[1..][i - 1] == s[i];
          assert CasedBefore(s[1..], i - 1, IsCased(s[0])) == CasedBefore(s, i, afterCased);
        }
      }
      r
  }

  /**
   * `s.title()`: a letter that follows a letter is lower-cased, every other
   * letter (the first one, and any after a digit, `-`, space, ...) upper-cased.
   */
  function Title(s: string): (r: string)
    ensures |r| == |s|
    ensures forall i :: 0 <= i < |s| ==>
      r[i] == if i > 0 && IsCased(s[i - 1]) then LowerChar(s[i]) else UpperChar(s[i])
  {
    TitleFrom(s, false)
  }

  /** Title-casing an already title-cased string changes nothing. */
  lemma TitleIdempotent(s: string)
    ensures Title(Title(s)) == Title(s)
  {
    var t := Title(s);
    forall i | 0 <= i < |s| ensures Title(t)[i] == t[i] {
      if i > 0 {
        assert IsCased(t[i - 1]) == IsCased(s[i - 1]);
      }
    }
  }

  function DigitChar(d: nat): (c: char)
    requires d < 10
    ensures IsDigit(c)
  {
    ('0' as int + d) as char
  }

  function DigitValue(c: char): (d: nat)
    requires IsDigit(c)
    ensures d < 10 && DigitChar(d) == c
  {
    c as int - '0' as int
  }

  predicate AllDigits(s: string)
  {
    forall i :: 0 <= i < |s| ==> IsDigit(s[i])
  }

  /** `str(n)` of a natural number: its shortest decimal digits. */
  function NatToString(n: nat): (r: string)
    ensures |r| >= 1 && AllDigits(r)
    ensures |r| > 1 ==> r[0] != '0'
    decreases n
  {
    if n < 10 then [DigitChar(n)] else NatToString(n / 10) + [DigitChar(n % 10)]
  }

  /** `str(i)` of an integer: a minus sign before the digits of a negative number. */
  function IntToString(i: int): (r: string)
    ensures |r| >= 1
    ensures i < 0 <==> r[0] == '-'
  {
    if i < 0 then "-" + NatToString(-i) else NatToString(i)
  }

  /** The number a string of decimal digits spells. */
  function DigitsValue(s: string): nat
    requires AllDigits(s)
  {
    if s == [] then 0 else DigitsValue(s[..|s| - 1]) * 10 + DigitValue(s[|s| - 1])
  }

  /** The whitespace `int()` skips around a number: space, tab, newline, vertical tab, form feed, carriage return. */
  predicate IsSpace(c: char) { c == ' ' || '\t' <= c <= '\r' }

  predicate AllSpaces(s: string)
  {
    forall i :: 0 <= i < |s| ==> IsSpace(s[i])
  }

  /** `s` without its leading whitespace. */
  function TrimStart(s: string): (r: string)
    ensures |r| <= |s| && r == s[|s| - |r|..]
    ensures r == [] || !IsSpace(r[0])
    ensures AllSpaces(s[..|s| - |r|])
    decreases |s|
  {
    if s != [] && IsSpace(s[0]) then
      var r := TrimStart(s[1..]);
      assert s[1..][..|s| - 1 - |r|] == s[1..|s| - |r|];
      r
    else s
  }

  /** `s` without its trailing whitespace. */
  function TrimEnd(s: string): (r: string)
    ensures |r| <= |s| && r == s[..|r|]
    ensures r == [] || !IsSpace(r[|r| - 1])
    decreases |s|
  {
    if s != [] && IsSpace(s[|s| - 1]) then TrimEnd(s[..|s| - 1]) else s
  }

  /**
   * The digits of a decimal literal as `int()` reads them: one or more
   * digits, where a single underscore may stand between two digits.
   */
  predicate Numeral(s: string)
  {
    && |s| >= 1 && IsDigit(s[0]) && IsDigit(s[|s| - 1])
    && (forall i :: 0 <= i < |s| ==> IsDigit(s[i]) || s[i] == '_')
    && (forall i :: 0 <= i < |s| - 1 ==> IsDigit(s[i]) || IsDigit(s[i + 1]))
  }

  /** `s` with its underscores removed. */
  function DropUnderscores(s: string): (r: string)
    ensures (forall i :: 0 <= i < |s| ==> IsDigit(s[i]) || s[i] == '_') ==> AllDigits(r)
    ensures AllDigits(s) ==> r == s
    decreases |s|
  {
    if s == [] then []
    else
      var rest := DropUnderscores(s[1..]);
      if s[0] == '_' then rest else [s[0]] + rest
  }

  /** A literal with no whitespace around it: an optional sign, then digits grouped by single underscores. */
  function ParseLiteral(t: string): (r: Option<int>)
    ensures t == "" ==> r == None
    ensures r.Some? && t[0] != '-' ==> r.value >= 0
  {
    if t == "" then None
    else
      var body := if t[0] == '-' || t[0] == '+' then t[1..] else t;
      if !Numeral(body) then None
      else
        var v: int := DigitsValue(DropUnderscores(body));
        Some(if t[0] == '-' then -v else v)
  }

  /**
   * `int(s)` of a text: the literal between the surrounding whitespace.
   * Anything else raises `ValueError`, modelled as None.
   */
  function ParseInt(s: string): (r: Option<int>)
    ensures AllSpaces(s) ==> r == None
    ensures r.Some? && '-' !in s ==> r.value >= 0
  {
    var u := TrimStart(s);
    var t := TrimEnd(u);
    assert t != [] ==> t[0] == s[|s| - |u|];
    ParseLiteral(t)
  }

  /** A text without whitespace at its ends is read as a literal. */
  lemma ParseIntOfTrimmed(s: string)
    requires s != [] && !IsSpace(s[0]) && !IsSpace(s[|s| - 1])
    ensures ParseInt(s) == ParseLiteral(s)
  {
    assert TrimStart(s) == s;
    assert TrimEnd(s) == s;
  }

  /** Whitespace before a text goes. */
  lemma {:induction false} TrimStartSkips(pre: string, s: string)
    requires AllSpaces(pre) && (s == [] || !IsSpace(s[0]))
    ensures TrimStart(pre + s) == s
    decreases |pre|
  {
    if pre != [] {
      assert (pre + s)[1..] == pre[1..] + s;
      TrimStartSkips(pre[1..], s);
    } else {
      assert pre + s == s;
    }
  }

  /** Whitespace after a text goes. */
  lemma {:induction false} TrimEndSkips(s: string, post: string)
    requires AllSpaces(post) && (s == [] || !IsSpace(s[|s| - 1]))
    ensures TrimEnd(s + post) == s
    decreases |post|
  {
    if post != [] {
      assert (s + post)[..|s + post| - 1] == s + post[..|post| - 1];
      TrimEndSkips(s, post[..|post| - 1]);
    } else {
      assert s + post == s;
    }
  }

  /** `int()` ignores the whitespace around a literal. */
  lemma SurroundingSpaceIgnored(pre: string, s: string, post: string)
    requires AllSpaces(pre) && AllSpaces(post)
    requires s != [] && !IsSpace(s[0]) && !IsSpace(s[|s| - 1])
    ensures ParseInt(pre + s + post) == ParseInt(s)
  {
    TrimStartSkips(pre, s + post);
    assert pre + s + post == pre + (s + post);
    TrimEndSkips(s, post);
    assert ParseInt(pre + s + post) == ParseLiteral(s);
    ParseIntOfTrimmed(s);
  }

  /** Removing underscores from a concatenation removes them from each part. */
  lemma {:induction false} DropUnderscoresAppend(a: string, b: string)
    ensures DropUnderscores(a + b) == DropUnderscores(a) + DropUnderscores(b)
    decreases |a|
  {
    if a != [] {
      assert (a + b)[1..] == a[1..] + b;
      DropUnderscoresAppend(a[1..], b);
    } else {
      assert a + b == b;
    }
  }

  /** Two groups of digits joined by one underscore form a literal. */
  lemma JoinedNumeral(a: string, b: string)
    requires a != [] && b != [] && AllDigits(a) && AllDigits(b)
    ensures Numeral(a + "_" + b)
  {
    var s := a + "_" + b;
    assert forall i :: 0 <= i < |a| ==> s[i] == a[i];
    assert s[|a|] == '_';
    assert forall i :: |a| < i < |s| ==> s[i] == b[i - |a| - 1];
  }

  /** The underscore between two groups of digits is dropped. */
  lemma DropJoined(a: string, b: string)
    requires AllDigits(a) && AllDigits(b)
    ensures DropUnderscores(a + "_" + b) == a + b
  {
    var au := a + "_";
    DropUnderscoresAppend(au, b);
    DropUnderscoresAppend(a, "_");
    var u := DropUnderscores("_");
    assert u == [] by {
      assert "_"[0] == '_' && "_"[1..] == [];
    }
    var da := DropUnderscores(a);
    var db := DropUnderscores(b);
    assert da == a && db == b;
    calc {
      DropUnderscores(a + "_" + b);
      DropUnderscores(au) + db;
      (da + u) + db;
      { assert da + u == a; }
      a + b;
    }
  }

  /** An unsigned literal is read as the number its digits spell. */
  lemma UnsignedLiteral(s: string)
    requires Numeral(s)
    ensures ParseInt(s) == Some(DigitsValue(DropUnderscores(s)))
  {
    ParseIntOfTrimmed(s);
  }

  /** An underscore between two groups of digits is skipped: `int("1_000") == 1000`. */
  lemma UnderscoreBetweenDigits(a: string, b: string)
    requires a != [] && b != [] && AllDigits(a) && AllDigits(b)
    ensures ParseInt(a + "_" + b) == Some(DigitsValue(a + b))
  {
    JoinedNumeral(a, b);
    DropJoined(a, b);
    UnsignedLiteral(a + "_" + b);
  }

  /** The digits of `str(n)` spell `n` again. */
  lemma {:induction false} NatToStringValue(n: nat)
    ensures DigitsValue(NatToString(n)) == n
    decreases n
  {
    var r := NatToString(n);
    if n >= 10 {
      NatToStringValue(n / 10);
      assert r[..|r| - 1] == NatToString(n / 10);
    }
  }

  /** `int(str(i)) == i`. */
  lemma IntToStringRoundTrip(i: int)
    ensures ParseInt(IntToString(i)) == Some(i)
  {
    var s := IntToString(i);
    var digits := NatToString(if i < 0 then -i else i);
    NatToStringValue(if i < 0 then -i else i);
    assert digits[0] != '-' && digits[0] != '+';
    if i < 0 {
      assert s == "-" + digits;
      assert s[1..] == digits;
    }
    assert s[|s| - 1] == digits[|digits| - 1];
    assert ParseLiteral(s) == Some(i);
    ParseIntOfTrimmed(s);
  }

  /** `str` of integers is injective: distinct numbers have distinct texts. */
  lemma IntToStringInjective(i: int, j: int)
    requires IntToString(i) == IntToString(j)
    ensures i == j
  {
    IntToStringRoundTrip(i);
    IntToStringRoundTrip(j);
  }

  /** `sub in s`: `sub` occurs at some position of `s`. */
  predicate Contains(s: string, sub: string)
    decreases |s|
  {
    sub <= s || (s != [] && Contains(s[1..], sub))
  }

  /** An occurrence shifted by a prefix is still an occurrence. */
  lemma {:induction false} ContainsAppend(pre: string, s: string, sub: string)
    requires Contains(s, sub)
    ensures Contains(pre + s, sub)
    decreases |pre|
  {
    if pre != [] {
      ContainsAppend(pre[1..], s, sub);
      assert (pre + s)[1..] == pre[1..] + s;
      assert Contains((pre + s)[1..], sub);
    } else {
      assert pre + s == s;
    }
  }

  /** A string that `sub` does not start contains `sub` exactly when its tail does. */
  lemma ContainsSkip(c: char, x: string, sub: string)
    requires !(sub <= [c] + x)
    ensures Contains([c] + x, sub) == Contains(x, sub)
  {
    assert ([c] + x)[1..] == x;
  }

  /** A string contains whatever occurs at one of its positions. */
  lemma {:induction false} ContainsAt(s: string, sub: string, i: nat)
    requires i + |sub| <= |s| && s[i..i + |sub|] == sub
    ensures Contains(s, sub)
    decreases i
  {
    if i > 0 {
      ContainsAt(s[1..], sub, i - 1);
      assert s[1..][i - 1..i - 1 + |sub|] == s[i..i + |sub|];
    } else {
      assert sub <= s;
    }
  }

  /** `s.startswith(p)`. */
  predicate StartsWith(s: string, p: string) { p <= s }

  /** `s.endswith(suffix)`. */
  predicate EndsWith(s: string, suffix: string)
  {
    |suffix| <= |s| && s[|s| - |suffix|..] == suffix
  }

  /** The position of the first `c` in `s`. */
  function FirstIndex(s: string, c: char): (i: nat)
    requires c in s
    ensures i < |s| && s[i] == c && c !in s[..i]
  {
    if s[0] == c then 0 else 1 + FirstIndex(s[1..], c)
  }

  /** `s.split(sep)` for a one-character separator: the pieces between separators, at least one. */
  function Split(s: string, sep: char): (parts: seq<string>)
    ensures |parts| >= 1
    ensures forall k :: 0 <= k < |parts| ==> sep !in parts[k]
    decreases |s|
  {
    if sep !in s then [s]
    else
      var i := FirstIndex(s, sep);
      [s[..i]] + Split(s[i + 1..], sep)
  }

  /** Splitting at a first separator: the piece before it, then the pieces of the rest. */
  lemma SplitAt(a: string, sep: char, rest: string)
    requires sep !in a
    ensures Split(a + [sep] + rest, sep) == [a] + Split(rest, sep)
  {
    var s := a + [sep] + rest;
    assert s[|a|] == sep;
    var i := FirstIndex(s, sep);
    assert s[..i] == a && s[i + 1..] == rest;
  }

  /**
   * `sep.join(parts)`: the result starts with the first piece, and pieces
   * free of `sep` are joined with exactly one separator between each pair.
   */
  function Join(parts: seq<string>, sep: char): (r: string)
    requires |parts| >= 1
    ensures parts[0] <= r
    ensures (forall i :: 0 <= i < |parts| ==> sep !in parts[i]) ==> Count(r, sep) == |parts| - 1
  {
    if |parts| == 1 then
      (if sep !in parts[0] then CountAbsent(parts[0], sep); parts[0] else parts[0])
    else
      var rest := Join(parts[1..], sep);
      CountAppend(parts[0] + [sep], rest, sep);
      CountAppend(parts[0], [sep], sep);
      assert [sep][1..] == [];
      if sep !in parts[0] then
        CountAbsent(parts[0], sep);
        parts[0] + [sep] + rest
      else
        parts[0] + [sep] + rest
  }

  /** Joining a piece in front of at least one more puts a separator between them. */
  lemma JoinCons(p: string, rest: seq<string>, sep: char)
    requires |rest| >= 1
    ensures Join([p] + rest, sep) == p + [sep] + Join(rest, sep)
  {
    assert ([p] + rest)[1..] == rest;
  }

  /** Joining the pieces of a split with the same separator gives the string back. */
  lemma {:induction false} JoinSplit(s: string, sep: char)
    ensures Join(Split(s, sep), sep) == s
    decreases |s|
  {
    if sep in s {
      var i := FirstIndex(s, sep);
      var rest := s[i + 1..];
      assert Split(s, sep) == [s[..i]] + Split(rest, sep);
      JoinCons(s[..i], Split(rest, sep), sep);
      JoinSplit(rest, sep);
      assert s == s[..i] + [sep] + rest;
    }
  }

  /** Splitting the join of separator-free pieces gives the pieces back. */
  lemma {:induction false} SplitJoin(parts: seq<string>, sep: char)
    requires |parts| >= 1
    requires forall k :: 0 <= k < |parts| ==> sep !in parts[k]
    ensures Split(Join(parts, sep), sep) == parts
    decreases |parts|
  {
    if |parts| > 1 {
      var rest := Join(parts[1..], sep);
      assert Join(parts, sep) == parts[0] + [sep] + rest;
      SplitJoin(parts[1..], sep);
      SplitAt(parts[0], sep, rest);
      assert parts == [parts[0]] + parts[1..];
    }
  }

  /** The number of occurrences of `c` in `s`. */
  function Count(s: string, c: char): nat
  {
    if s == [] then 0 else (if s[0] == c then 1 else 0) + Count(s[1..], c)
  }

  lemma {:induction false} CountAppend(a: string, b: string, c: char)
    ensures Count(a + b, c) == Count(a, c) + Count(b, c)
    decreases |a|
  {
    if a != [] {
      CountAppend(a[1..], b, c);
      assert (a + b)[1..] == a[1..] + b;
      assert (a + b)[0] == a[0];
    } else {
      assert a + b == b;
    }
  }

  lemma {:induction false} CountAbsent(s: string, c: char)
    requires c !in s
    ensures Count(s, c) == 0
    decreases |s|
  {
    if s != [] {
      CountAbsent(s[1..], c);
    }
  }

  /** `s.split(sep)` has one piece more than `s` has separators. */
  lemma {:induction false} SplitLength(s: string, sep: char)
    ensures |Split(s, sep)| == Count(s, sep) + 1
    decreases |s|
  {
    if sep !in s {
      CountAbsent(s, sep);
    } else {
      var i := FirstIndex(s, sep);
      SplitLength(s[i + 1..], sep);
      assert s == s[..i] + ([sep] + s[i + 1..]);
      CountAppend(s[..i], [sep] + s[i + 1..], sep);
      assert ([sep] + s[i + 1..])[1..] == s[i + 1..];
      assert Count([sep] + s[i + 1..], sep) == 1 + Count(s[i + 1..], sep);
      CountAbsent(s[..i], sep);
      assert Count(s, sep) == 1 + Count(s[i + 1..], sep);
      assert Split(s, sep) == [s[..i]] + Split(s[i + 1..], sep);
    }
  }

  /** `s.lstrip(c)`: the leading run of `c` removed. */
  function LStrip(s: string, c: char): (r: string)
    ensures |r| <= |s| && r == s[|s| - |r|..]
    ensures r == [] || r[0] != c
    ensures forall i :: 0 <= i < |s| - |r| ==> s[i] == c
  {
    if s != [] && s[0] == c then LStrip(s[1..], c) else s
  }

  /** `s.rstrip(c)`: the trailing run of `c` removed. */
  function RStrip(s: string, c: char): (r: string)
    ensures |r| <= |s| && r == s[..|r|]
    ensures r == [] || r[|r| - 1] != c
    ensures forall i :: |r| <= i < |s| ==> s[i] == c
  {
    if s != [] && s[|s| - 1] == c then RStrip(s[..|s| - 1], c) else s
  }

  /** A single leading `c` in front of a string that does not start with `c` is all `lstrip` removes. */
  lemma LStripOne(s: string, c: char)
    requires s != [] && s[0] != c
    ensures LStrip([c] + s, c) == s
  {
    assert ([c] + s)[1..] == s;
  }

  /** `rstrip` only reaches into the last piece when that piece has a character other than `c`. */
  lemma {:induction false} RStripKeepsFront(a: string, b: string, c: char, k: nat)
    requires k < |b| && b[k] != c
    ensures RStrip(a + b, c) == a + RStrip(b, c)
    decreases |b|
  {
    if b[|b| - 1] == c {
      var b' := b[..|b| - 1];
      assert (a + b)[..|a + b| - 1] == a + b';
      RStripKeepsFront(a, b', c, k);
    }
  }

  /**
   * `s.strip(c)`: both runs removed. What remains is a slice of `s` neither
   * end of which is `c`, and everything cut off around it is `c`.
   */
  function Strip(s: string, c: char): (r: string)
    ensures r == [] || (r[0] != c && r[|r| - 1] != c)
    ensures Contains(s, r)
    ensures exists i, j :: SliceWithin(s, r, c, i, j)
  {
    var l := LStrip(s, c);
    var r := RStrip(l, c);
    ContainsAt(s, r, |s| - |l|);
    StripCutsRuns(s, l, r, c);
    r
  }

  /** `r` is the slice `s[i..j]`, and every character of `s` outside it is `c`. */
  ghost predicate SliceWithin(s: string, r: string, c: char, i: int, j: int)
  {
    0 <= i <= j <= |s| && r == s[i..j] && forall k :: (0 <= k < i || j <= k < |s|) ==> s[k] == c
  }

  /** The slice `lstrip` then `rstrip` leave, with the runs of `c` around it. */
  lemma StripCutsRuns(s: string, l: string, r: string, c: char)
    requires l == LStrip(s, c) && r == RStrip(l, c)
    ensures exists i, j :: SliceWithin(s, r, c, i, j)
  {
    var i := |s| - |l|;
    var j := i + |r|;
    assert l == s[i..] && r == l[..|r|];
    assert r == s[i..j];
    forall k | 0 <= k < i || j <= k < |s|
      ensures s[k] == c
    {
      if j <= k {
        assert s[k] == l[k - i];
      }
    }
    assert SliceWithin(s, r, c, i, j);
  }

  /** `s.replace(pat, rep)`: every non-overlapping occurrence of `pat`, left to right, replaced by `rep`. */
  function Replace(s: string, pat: string, rep: string): (r: string)
    requires pat != []
    ensures !Contains(s, pat) ==> r == s
    ensures rep == pat ==> r == s
    decreases |s|
  {
    if s == [] then []
    else if pat <= s then
      assert s == pat + s[|pat|..];
      rep + Replace(s[|pat|..], pat, rep)
    else
      assert s == [s[0]] + s[1..];
      [s[0]] + Replace(s[1..], pat, rep)
  }

  /** A string without an occurrence of the pattern is left as it is. */
  lemma {:induction false} ReplaceAbsent(s: string, pat: string, rep: string)
    requires pat != [] && !Contains(s, pat)
    ensures Replace(s, pat, rep) == s
    decreases |s|
  {
    if s != [] {
      ReplaceAbsent(s[1..], pat, rep);
    }
  }

  /** A leading occurrence is rewritten and the replacement goes on after it. */
  lemma ReplaceLeading(s: string, pat: string, rep: string)
    requires pat != [] && StartsWith(s, pat)
    ensures Replace(s, pat, rep) == rep + Replace(s[|pat|..], pat, rep)
  {
  }
}
