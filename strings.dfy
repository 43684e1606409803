/**
 * The few JavaScript string operations the proxy relies on, written out:
 * `startsWith`, `endsWith`, `indexOf`, `includes`, `replace` with a string
 * pattern, and the second piece of `split`.
 */
module Strings {
  import opened Wrappers

  /** An optional string is truthy in JavaScript: present and not the empty string. */
  predicate Truthy(value: Option<string>)
  {
    value.Some? && value.value != ""
  }

  predicate StartsWith(s: string, prefix: string)
  {
    |prefix| <= |s| && s[..|prefix|] == prefix
  }

  predicate EndsWith(s: string, suffix: string)
  {
    |suffix| <= |s| && s[|s| - |suffix|..] == suffix
  }

  /** `pat` occurs in `s` starting at index `i`. */
  predicate OccursAt(s: string, pat: string, i: nat)
  {
    i + |pat| <= |s| && s[i..i + |pat|] == pat
  }

  /** A string does not start with a prefix whose first character differs from its own. */
  lemma FirstCharDiffers(s: string, prefix: string)
    requires |s| > 0 && |prefix| > 0 && s[0] != prefix[0]
    ensures !StartsWith(s, prefix)
  {
  }

  /** `s.indexOf(pat, from)`: the least index at or after `from` where `pat` occurs. */
  function IndexOf(s: string, pat: string, from: nat): (r: Option<nat>)
    ensures r.Some? ==> from <= r.value && OccursAt(s, pat, r.value)
    ensures forall i :: from <= i && (r.None? || i < r.value) ==> !OccursAt(s, pat, i)
    decreases |s| - from
  {
    if from + |pat| > |s| then None
    else if s[from..from + |pat|] == pat then Some(from)
    else IndexOf(s, pat, from + 1)
  }

  /** `s.includes(pat)`. */
  predicate Contains(s: string, pat: string)
  {
    IndexOf(s, pat, 0).Some?
  }

  /** `s.replace(pat, rep)` with a string pattern: only the first occurrence is replaced. */
  function ReplaceFirst(s: string, pat: string, rep: string): (r: string)
    ensures !Contains(s, pat) ==> r == s
    ensures Contains(s, pat) ==>
      var i := IndexOf(s, pat, 0).value;
      r == s[..i] + rep + s[i + |pat|..] && (forall j :: 0 <= j < i ==> !OccursAt(s, pat, j))
  {
    match IndexOf(s, pat, 0)
    case None => s
    case Some(i) => s[..i] + rep + s[i + |pat|..]
  }

  /** `s.split(sep)[1]`: the text between the first and the second occurrence of `sep`
      (or up to the end), and `undefined` when `sep` does not occur at all. */
  function SplitSecond(s: string, sep: string): (r: Option<string>)
    requires |sep| > 0
    ensures r.None? <==> !Contains(s, sep)
    ensures r.Some? ==>
      var start := IndexOf(s, sep, 0).value + |sep|;
      && StartsWith(s[start..], r.value) && !Contains(r.value, sep)
      && (forall k :: start <= k < start + |r.value| ==> !OccursAt(s, sep, k))
      && (start + |r.value| == |s| || OccursAt(s, sep, start + |r.value|))
  {
    match IndexOf(s, sep, 0)
    case None => None
    case Some(i) =>
      var start := i + |sep|;
      match IndexOf(s, sep, start)
      case None =>
        NoOccurrenceInSuffix(s, sep, start);
        Some(s[start..])
      case Some(j) =>
        NoOccurrenceInSlice(s, sep, start, j);
        Some(s[start..j])
  }

  /** When `pat` occurs nowhere in `s` at or after `from`, it does not occur in `s[from..]`. */
  lemma NoOccurrenceInSuffix(s: string, pat: string, from: nat)
    requires from <= |s|
    requires forall i :: from <= i ==> !OccursAt(s, pat, i)
    ensures !Contains(s[from..], pat)
  {
    var t := s[from..];
    if IndexOf(t, pat, 0).Some? {
      var k := IndexOf(t, pat, 0).value;
      forall m | 0 <= m < |pat|
        ensures s[from + k..from + k + |pat|][m] == pat[m]
      {
        assert t[k..k + |pat|][m] == t[k + m];
      }
      assert OccursAt(s, pat, from + k);
    }
  }

  /** When the first occurrence of `pat` at or after `from` is at `j`, it does not occur in `s[from..j]`. */
  lemma NoOccurrenceInSlice(s: string, pat: string, from: nat, j: nat)
    requires |pat| > 0 && from <= j <= |s|
    requires forall i :: from <= i < j ==> !OccursAt(s, pat, i)
    ensures !Contains(s[from..j], pat)
  {
    var t := s[from..j];
    if IndexOf(t, pat, 0).Some? {
      var k := IndexOf(t, pat, 0).value;
      assert k + |pat| <= |t|;
      forall m | 0 <= m < |pat|
        ensures s[from + k..from + k + |pat|][m] == pat[m]
      {
        assert t[k..k + |pat|][m] == t[k + m];
      }
      assert OccursAt(s, pat, from + k);
    }
  }

  /** A string that starts with `pat` has its first occurrence at index 0, so `replace`
      swaps exactly that prefix. */
  lemma ReplaceFirstAtStart(s: string, pat: string, rep: string)
    requires StartsWith(s, pat)
    ensures ReplaceFirst(s, pat, rep) == rep + s[|pat|..]
  {
    assert OccursAt(s, pat, 0);
  }

  /** Searching a string for a pattern that first occurs right after a prefix `p`
      finds it there, and the text after it is searched as in `rest`. */
  lemma IndexOfAfterPrefix(p: string, pat: string, rest: string)
    requires forall i :: 0 <= i < |p| ==> !OccursAt(p + pat + rest, pat, i)
    ensures IndexOf(p + pat + rest, pat, 0) == Some(|p|)
  {
    var s := p + pat + rest;
    assert s[|p|..|p| + |pat|] == pat;
    assert OccursAt(s, pat, |p|);
  }

  /** Searching `a + b` from inside `b` finds what searching `b` finds, shifted by `|a|`. */
  lemma {:induction false} IndexOfShift(a: string, b: string, pat: string, k: nat)
    requires k <= |b|
    ensures IndexOf(a + b, pat, |a| + k) ==
      match IndexOf(b, pat, k)
      case None => None
      case Some(j) => Some(|a| + j)
    decreases |b| - k
  {
    var s := a + b;
    if |a| + k + |pat| <= |s| {
      assert s[|a| + k..|a| + k + |pat|] == b[k..k + |pat|];
      if b[k..k + |pat|] != pat {
        IndexOfShift(a, b, pat, k + 1);
      }
    }
  }

  /** When the first `sep` of `p + sep + rest` is the one right after `p`, the second
      piece of the split is `rest` up to its own first `sep`. */
  lemma SplitSecondAfterPrefix(p: string, sep: string, rest: string)
    requires |sep| > 0
    requires IndexOf(p + sep + rest, sep, 0) == Some(|p|)
    ensures SplitSecond(p + sep + rest, sep) ==
      Some(match IndexOf(rest, sep, 0) case None => rest case Some(j) => rest[..j])
  {
    var s := p + sep + rest;
    var start := |p| + |sep|;
    IndexOfShift(p + sep, rest, sep, 0);
    assert s[start..] == rest;
    match IndexOf(rest, sep, 0)
    case None =>
    case Some(j) =>
      assert s[start..start + j] == rest[..j];
  }
}
