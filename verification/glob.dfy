/**
 The greedy pattern matcher of the IAM checker (tools/iam-validation/main.go:94-123) against the language its
 patterns denote, in which '*' stands for any text.
 */
module Glob {

  const STAR := '*'

  /** What a pattern means. */
  ghost predicate InLanguage(pattern: string, value: string)
    decreases pattern
  {
    if pattern == [] then value == []
    else if pattern[0] == STAR then exists k | 0 <= k <= |value| :: InLanguage(pattern[1..], value[k..])
    else value != [] && value[0] == pattern[0] && InLanguage(pattern[1..], value[1..])
  }

  /** strings.Split(pattern, "*") */
  function Split(pattern: string): (parts: seq<string>)
    ensures |parts| >= 1
    ensures |parts| == 1 <==> STAR !in pattern
    ensures |parts| == 1 ==> parts[0] == pattern
  {
    if pattern == [] then [[]]
    else
      var rest := Split(pattern[1..]);
      if pattern[0] == STAR then [[]] + rest else [[pattern[0]] + rest[0]] + rest[1..]
  }

  predicate HasPrefix(s: string, p: string) {
    |p| <= |s| && s[..|p|] == p
  }

  predicate HasSuffix(s: string, p: string) {
    |p| <= |s| && s[|s| - |p|..] == p
  }

  predicate At(s: string, p: string, k: int) {
    0 <= k && k + |p| <= |s| && s[k..k + |p|] == p
  }

  /** The texts made of any text, then the first part, any text, the second part, and so on to the last part. */
  ghost predicate AfterStar(parts: seq<string>, s: string)
    requires |parts| >= 1
  {
    if |parts| == 1 then HasSuffix(s, parts[0])
    else exists k | At(s, parts[0], k) :: AfterStar(parts[1..], s[k + |parts[0]|..])
  }

  ghost predicate FromStart(parts: seq<string>, s: string)
    requires |parts| >= 1
  {
    if |parts| == 1 then s == parts[0] else HasPrefix(s, parts[0]) && AfterStar(parts[1..], s[|parts[0]|..])
  }

  /** A leading star can swallow more. */
  lemma {:induction false} StarSwallows(parts: seq<string>, s: string, j: nat)
    requires |parts| >= 1 && j <= |s| && AfterStar(parts, s[j..])
    ensures AfterStar(parts, s)
  {
    if |parts| > 1 {
      var k :| At(s[j..], parts[0], k) && AfterStar(parts[1..], s[j..][k + |parts[0]|..]);
      assert s[j..][k..k + |parts[0]|] == s[j + k..j + k + |parts[0]|];
      assert At(s, parts[0], j + k);
      assert s[j..][k + |parts[0]|..] == s[j + k + |parts[0]|..];
    }
  }

  /** What follows a star is the rest of the pattern from some point on. */
  lemma {:induction false} StarMeans(parts: seq<string>, s: string)
    requires |parts| >= 1
    ensures AfterStar(parts, s) <==> exists k | 0 <= k <= |s| :: FromStart(parts, s[k..])
  {
    if |parts| == 1 {
      if HasSuffix(s, parts[0]) {
        assert FromStart(parts, s[|s| - |parts[0]|..]);
      }
      if k :| 0 <= k <= |s| && FromStart(parts, s[k..]) {
        assert |s| - |parts[0]| == k;
      }
    } else {
      if k :| At(s, parts[0], k) && AfterStar(parts[1..], s[k + |parts[0]|..]) {
        assert s[k..][..|parts[0]|] == s[k..k + |parts[0]|] && s[k..][|parts[0]|..] == s[k + |parts[0]|..];
        assert FromStart(parts, s[k..]);
      }
      if k :| 0 <= k <= |s| && FromStart(parts, s[k..]) {
        assert s[k..][..|parts[0]|] == s[k..k + |parts[0]|] && s[k..][|parts[0]|..] == s[k + |parts[0]|..];
        assert At(s, parts[0], k);
      }
    }
  }

  /** Splitting at the stars keeps the meaning. */
  lemma {:induction false} SplitMeans(pattern: string, value: string)
    ensures InLanguage(pattern, value) <==> FromStart(Split(pattern), value)
    decreases pattern
  {
    if pattern == [] {
    } else {
      var parts, rest := Split(pattern), Split(pattern[1..]);
      if pattern[0] == STAR {
        assert parts[1..] == rest && value[0..] == value;
        StarMeans(rest, value);
        forall k | 0 <= k <= |value| ensures InLanguage(pattern[1..], value[k..]) <==> FromStart(rest, value[k..]) {
          SplitMeans(pattern[1..], value[k..]);
        }
      } else if value != [] {
        SplitMeans(pattern[1..], value[1..]);
        assert parts[0] == [pattern[0]] + rest[0] && parts[1..] == rest[1..];
        assert value == [value[0]] + value[1..];
        if HasPrefix(value, parts[0]) {
          assert value[1..][..|rest[0]|] == value[..|parts[0]|][1..] == rest[0];
        }
        if HasPrefix(value[1..], rest[0]) && value[0] == pattern[0] {
          assert value[..|parts[0]|] == [value[0]] + value[1..][..|rest[0]|];
        }
        if |rest[0]| <= |value| - 1 {
          assert value[1..][|rest[0]|..] == value[|parts[0]|..];
        }
      }
    }
  }

  // ---------------------------------------------------------------- the greedy search

  /** strings.Index: the first place where `p` occurs. */
  ghost predicate First(s: string, p: string, i: int) {
    At(s, p, i) && forall k | 0 <= k < i :: !At(s, p, k)
  }

  method Index(s: string, p: string) returns (i: int)
    ensures i == FirstIn(s, p)
  {
    i := 0;
    while i + |p| <= |s|
      invariant 0 <= i && forall k | 0 <= k < i :: !At(s, p, k)
    {
      if s[i..i + |p|] == p {
        assert First(s, p, i);
        return;
      }
      i := i + 1;
    }
    i := -1;
  }

  ghost function FirstIn(s: string, p: string): (i: int)
    ensures i == -1 || First(s, p, i)
    ensures i == -1 <==> forall k :: !At(s, p, k)
    ensures forall k | First(s, p, k) :: k == i
  {
    if k :| At(s, p, k) then Earliest(s, p, k) else -1
  }

  ghost function Earliest(s: string, p: string, k: nat): (i: nat)
    requires At(s, p, k)
    ensures First(s, p, i)
    decreases k
  {
    if j :| 0 <= j < k && At(s, p, j) then Earliest(s, p, j) else k
  }

  /** Taking the first occurrence loses nothing. */
  lemma FirstIsBest(parts: seq<string>, s: string, i: nat)
    requires |parts| > 1 && First(s, parts[0], i)
    ensures AfterStar(parts, s) <==> AfterStar(parts[1..], s[i + |parts[0]|..])
  {
    if k :| At(s, parts[0], k) && AfterStar(parts[1..], s[k + |parts[0]|..]) {
      assert i <= k;
      var t := s[i + |parts[0]|..];
      assert t[k - i..] == s[k + |parts[0]|..];
      StarSwallows(parts[1..], t, k - i);
    }
  }

  /** Where the search for the middle parts, in turn and from `start` on, ends; -1 when one is not found. */
  ghost function SearchEnd(middle: seq<string>, s: string, start: nat): (pos: int)
    requires start <= |s|
    ensures pos == -1 || start <= pos <= |s|
    decreases middle
  {
    if middle == [] then start
    else
      var i := FirstIn(s[start..], middle[0]);
      if i < 0 then -1 else SearchEnd(middle[1..], s, start + i + |middle[0]|)
  }

  /** The greedy search decides the language, if its final position leaves room for the last part. */
  lemma {:induction false} SearchDecides(middle: seq<string>, last: string, s: string, start: nat)
    requires start <= |s|
    ensures AfterStar(middle + [last], s[start..]) <==>
      SearchEnd(middle, s, start) >= 0 && SearchEnd(middle, s, start) + |last| <= |s| && HasSuffix(s, last)
    decreases middle
  {
    var parts := middle + [last];
    if middle == [] {
      LastPartDecides(last, s, start);
    } else {
      hide AfterStar;
      assert parts[0] == middle[0] && parts[1..] == middle[1..] + [last];
      var i := FirstIn(s[start..], middle[0]);
      if i >= 0 {
        FirstIsBest(parts, s[start..], i);
        assert s[start..][i + |middle[0]|..] == s[start + i + |middle[0]|..];
        SearchDecides(middle[1..], last, s, start + i + |middle[0]|);
      } else {
        NothingFound(parts, s[start..]);
      }
    }
  }

  lemma LastPartDecides(last: string, s: string, start: nat)
    requires start <= |s|
    ensures AfterStar([last], s[start..]) <==> start + |last| <= |s| && HasSuffix(s, last)
  {
    if |last| <= |s| - start {
      assert s[start..][|s| - start - |last|..] == s[|s| - |last|..];
    }
  }

  lemma NothingFound(parts: seq<string>, s: string)
    requires |parts| > 1 && forall k :: !At(s, parts[0], k)
    ensures !AfterStar(parts, s)
  {
  }

  /** Where the search through the parts between the first and the last ends. */
  ghost function FinalPosition(parts: seq<string>, value: string): int
    requires |parts| > 1 && HasPrefix(value, parts[0])
  {
    SearchEnd(parts[1..|parts| - 1], value, |parts[0]|)
  }

  /** The answer of `matches`. */
  ghost predicate Accepts(pattern: string, value: string) {
    var parts := Split(pattern);
    || pattern == value
    || (|parts| > 1 && HasPrefix(value, parts[0]) && HasSuffix(value, parts[|parts| - 1]) &&
        FinalPosition(parts, value) >= 0)
  }

  /** The last part would begin before the place the search came to. */
  ghost predicate Overlaps(pattern: string, value: string) {
    var parts := Split(pattern);
    |parts| > 1 && HasPrefix(value, parts[0]) && FinalPosition(parts, value) + |parts[|parts| - 1]| > |value|
  }

  /** The matcher decides the language, except that it also accepts what only fits with an overlap. */
  lemma MatcherDecides(pattern: string, value: string)
    ensures InLanguage(pattern, value) <==> Accepts(pattern, value) && !Overlaps(pattern, value)
  {
    hide InLanguage, Split, AfterStar, SearchEnd;
    var parts := Split(pattern);
    SplitMeans(pattern, value);
    if pattern == value {
      MatchesItself(pattern);
    }
    if |parts| > 1 && HasPrefix(value, parts[0]) {
      var middle, last := parts[1..|parts| - 1], parts[|parts| - 1];
      assert parts[1..] == middle + [last];
      SearchDecides(middle, last, value, |parts[0]|);
    }
  }

  /** A star can stand for itself. */
  lemma {:induction false} MatchesItself(pattern: string)
    ensures InLanguage(pattern, pattern)
  {
    if pattern == [] {
    } else {
      MatchesItself(pattern[1..]);
      if pattern[0] == STAR {
        assert InLanguage(pattern[1..], pattern[1..]);
      }
    }
  }

  /** The overlap is real: "a*a" is taken to match "a". */
  lemma OverlapIsAccepted()
    ensures Accepts("a*a", "a") && !InLanguage("a*a", "a")
  {
    assert Split("") == [""];
    assert "a"[1..] == "";
    assert Split("a") == ["a"];
    assert "*a"[1..] == "a";
    assert Split("*a") == ["", "a"];
    assert "a*a"[1..] == "*a";
    assert Split("a*a") == ["a", "a"];
    assert ["a", "a"][1..1] == [];
    MatcherDecides("a*a", "a");
  }

  method Matches(pattern: string, value: string) returns (ok: bool)
    ensures ok == Accepts(pattern, value)
  {
    if pattern == value {
      return true;
    }
    if STAR !in pattern {
      return false;
    }
    var parts := Split(pattern);
    if !HasPrefix(value, parts[0]) || !HasSuffix(value, parts[|parts| - 1]) {
      return false;
    }
    var pos := |parts[0]|;
    for n := 1 to |parts| - 1
      invariant 0 <= pos <= |value|
      invariant FinalPosition(parts, value) == SearchEnd(parts[n..|parts| - 1], value, pos)
    {
      var i := Index(value[pos..], parts[n]);
      assert parts[n..|parts| - 1][0] == parts[n] && parts[n..|parts| - 1][1..] == parts[n + 1..|parts| - 1];
      if i < 0 {
        return false;
      }
      pos := pos + i + |parts[n]|;
    }
    ok := true;
  }

  /** containsPattern */
  method ContainsPattern(patterns: seq<string>, value: string) returns (ok: bool)
    ensures ok <==> exists i :: 0 <= i < |patterns| && Accepts(patterns[i], value)
    ensures (exists i :: 0 <= i < |patterns| && InLanguage(patterns[i], value)) ==> ok
  {
    for n := 0 to |patterns|
      invariant forall i | 0 <= i < n :: !Accepts(patterns[i], value)
    {
      var matched := Matches(patterns[n], value);
      if matched {
        return true;
      }
    }
    forall i | 0 <= i < |patterns| ensures !InLanguage(patterns[i], value) {
      MatcherDecides(patterns[i], value);
    }
    ok := false;
  }
}
