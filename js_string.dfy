/**
 * The JavaScript string operations the URL loader relies on, on `seq<char>`:
 * `startsWith`, `endsWith`, `indexOf`, `replace` with a string pattern
 * (first occurrence only) and `split` on a one-character separator.
 */
module JsString {
  import opened Wrappers

  /** `s.startsWith(p)` */
  predicate StartsWith(s: string, p: string) {
    p <= s
  }

  /** `s.endsWith(p)` */
  predicate EndsWith(s: string, p: string) {
    |p| <= |s| && s[|s| - |p|..] == p
  }

  lemma EndsWithConcat(a: string, b: string)
    ensures EndsWith(a + b, b)
  {
    assert (a + b)[|a + b| - |b|..] == b;
  }

  /** `pat` occurs in `s` at index `i`. */
  predicate MatchesAt(s: string, pat: string, i: nat) {
    i <= |s| && pat <= s[i..]
  }

  predicate Contains(s: string, pat: string) {
    exists i: nat :: i <= |s| && MatchesAt(s, pat, i)
  }

  /** `i` is the first index at which `pat` occurs in `s`. */
  predicate FirstMatch(s: string, pat: string, i: nat) {
    MatchesAt(s, pat, i) && forall j: nat :: j < i ==> !MatchesAt(s, pat, j)
  }

  /** The least index at or after `from` where `pat` occurs. */
  function IndexFrom(s: string, pat: string, from: nat): (r: Option<nat>)
    ensures r.Some? ==> from <= r.value && MatchesAt(s, pat, r.value)
    ensures r.Some? ==> forall j: nat :: from <= j < r.value ==> !MatchesAt(s, pat, j)
    ensures r.None? ==> forall j: nat :: from <= j ==> !MatchesAt(s, pat, j)
    decreases |s| - from
  {
    if from > |s| then None
    else if MatchesAt(s, pat, from) then Some(from)
    else IndexFrom(s, pat, from + 1)
  }

  /** `s.indexOf(pat)`, with `None` for -1. */
  function IndexOf(s: string, pat: string): (r: Option<nat>)
    ensures r.Some? <==> Contains(s, pat)
    ensures r.Some? ==> FirstMatch(s, pat, r.value)
  {
    IndexFrom(s, pat, 0)
  }

  /** Occurrences in `s[1..]` are the occurrences in `s` after index 0, shifted. */
  lemma MatchesInTail(s: string, pat: string, j: nat)
    requires s != []
    ensures MatchesAt(s, pat, j + 1) <==> MatchesAt(s[1..], pat, j)
  {
    if j + 1 <= |s| {
      assert s[j + 1..] == s[1..][j..];
    }
  }

  function Shift(r: Option<nat>): Option<nat> {
    match r
    case None => None
    case Some(i) => Some(i + 1)
  }

  /** Searching `s` from `from + 1` is searching its tail from `from`. */
  lemma {:induction false} IndexFromTail(s: string, pat: string, from: nat)
    requires s != []
    ensures IndexFrom(s, pat, from + 1) == Shift(IndexFrom(s[1..], pat, from))
    decreases |s| - from
  {
    MatchesInTail(s, pat, from);
    if from + 1 <= |s| && !MatchesAt(s, pat, from + 1) {
      IndexFromTail(s, pat, from + 1);
    }
  }

  /** `s` with `rep` spliced in place of the `len` characters at index `i`. */
  function SpliceAt(s: string, i: nat, len: nat, rep: string): string
    requires i + len <= |s|
  {
    s[..i] + rep + s[i + len..]
  }

  /**
   * `s.replace(pat, rep)` with a string pattern: the first occurrence that
   * `indexOf` finds is replaced, and nothing else. The `$` sequences
   * JavaScript interprets in `rep` are not modelled.
   */
  function ReplaceFirst(s: string, pat: string, rep: string): string
    decreases |s|
  {
    if pat <= s then rep + s[|pat|..]
    else if s == [] then s
    else [s[0]] + ReplaceFirst(s[1..], pat, rep)
  }

  /** A miss at `from` moves the search on by one. */
  lemma IndexFromMiss(s: string, pat: string, from: nat)
    requires from <= |s| && !MatchesAt(s, pat, from)
    ensures IndexFrom(s, pat, from) == IndexFrom(s, pat, from + 1)
  {
  }

  /** Replacing past the first character keeps that character in front. */
  lemma SpliceTail(s: string, i: nat, len: nat, rep: string)
    requires s != [] && i + 1 + len <= |s|
    ensures SpliceAt(s, i + 1, len, rep) == [s[0]] + SpliceAt(s[1..], i, len, rep)
  {
    assert s[..i + 1] == [s[0]] + s[1..][..i];
    assert s[i + 1 + len..] == s[1..][i + len..];
  }

  /** The search result of `s` when no occurrence starts at index 0. */
  lemma IndexOfMiss(s: string, pat: string)
    requires s != [] && !(pat <= s)
    ensures IndexFrom(s, pat, 0) == Shift(IndexFrom(s[1..], pat, 0))
  {
    assert s[0..] == s;
    IndexFromMiss(s, pat, 0);
    IndexFromTail(s, pat, 0);
  }

  /** `s` with the occurrence reported by a search replaced, if there is one. */
  function ReplaceReported(s: string, pat: string, rep: string, found: Option<nat>): string
    requires found.Some? ==> found.value + |pat| <= |s|
  {
    match found
    case None => s
    case Some(i) => SpliceAt(s, i, |pat|, rep)
  }

  lemma ReplaceFirstHit(s: string, pat: string, rep: string)
    requires pat <= s
    ensures IndexFrom(s, pat, 0) == Some(0)
    ensures ReplaceFirst(s, pat, rep) == ReplaceReported(s, pat, rep, Some(0))
  {
    assert s[0..] == s && MatchesAt(s, pat, 0);
  }

  lemma ReplaceFirstEmpty(pat: string, rep: string)
    requires !(pat <= [])
    ensures IndexFrom([], pat, 0) == None
    ensures ReplaceFirst([], pat, rep) == []
  {
    assert !MatchesAt([], pat, 0);
  }

  /** The replaced occurrence is the one the search from 0 reports. */
  lemma {:induction false} ReplaceFirstFound(s: string, pat: string, rep: string)
    ensures var found := IndexFrom(s, pat, 0);
      (found.Some? ==> found.value + |pat| <= |s|) &&
      ReplaceFirst(s, pat, rep) == ReplaceReported(s, pat, rep, found)
    decreases |s|
  {
    if pat <= s {
      ReplaceFirstHit(s, pat, rep);
    } else if s == [] {
      ReplaceFirstEmpty(pat, rep);
    } else {
      ReplaceFirstStep(s, pat, rep);
      IndexOfMiss(s, pat);
      ReplaceFirstFound(s[1..], pat, rep);
      var r := IndexFrom(s[1..], pat, 0);
      if r.Some? {
        SpliceTail(s, r.value, |pat|, rep);
      }
    }
  }

  /** The replaced occurrence is the one `indexOf` reports; without one, `s` is kept. */
  lemma ReplaceFirstIndexOf(s: string, pat: string, rep: string)
    ensures IndexOf(s, pat).None? ==> ReplaceFirst(s, pat, rep) == s
    ensures IndexOf(s, pat).Some? ==>
      ReplaceFirst(s, pat, rep) == SpliceAt(s, IndexOf(s, pat).value, |pat|, rep)
  {
    ReplaceFirstFound(s, pat, rep);
  }

  /** No occurrence of `pat` can start inside `p` in `p + t`. */
  predicate NoMatchInside(p: string, t: string, pat: string)
    decreases |p|
  {
    p == [] || (!(pat <= p + t) && NoMatchInside(p[1..], t, pat))
  }

  /** Without an occurrence at index 0, the first character is kept. */
  lemma ReplaceFirstStep(s: string, pat: string, rep: string)
    requires s != [] && !(pat <= s)
    ensures ReplaceFirst(s, pat, rep) == [s[0]] + ReplaceFirst(s[1..], pat, rep)
  {
  }

  lemma ConsAppend(c: char, p: string, x: string)
    ensures [c] + (p + x) == ([c] + p) + x
  {
  }

  /** A prefix in which no occurrence starts is kept as it is. */
  lemma {:induction false} ReplaceFirstAfterPrefix(p: string, t: string, pat: string, rep: string)
    requires NoMatchInside(p, t, pat)
    ensures ReplaceFirst(p + t, pat, rep) == p + ReplaceFirst(t, pat, rep)
    decreases |p|
  {
    if p == [] {
      assert p + t == t;
    } else {
      var s := p + t;
      ReplaceFirstStep(s, pat, rep);
      assert s[0] == p[0] && s[1..] == p[1..] + t;
      ReplaceFirstAfterPrefix(p[1..], t, pat, rep);
      ConsAppend(p[0], p[1..], ReplaceFirst(t, pat, rep));
      assert [p[0]] + p[1..] == p;
    }
  }

  /** `p` and `pat` differ at an index both reach, so `pat` starts no extension of `p`. */
  predicate Diverges(p: string, pat: string)
    decreases |p|
  {
    p != [] && pat != [] && (p[0] != pat[0] || Diverges(p[1..], pat[1..]))
  }

  /** Two strings with a common prefix followed by different characters diverge. */
  lemma {:induction false} DivergesAfterCommonPrefix(x: string, a: string, b: string)
    requires a != [] && b != [] && a[0] != b[0]
    ensures Diverges(x + a, x + b)
    decreases |x|
  {
    if x != [] {
      assert (x + a)[0] == (x + b)[0];
      assert (x + a)[1..] == x[1..] + a && (x + b)[1..] == x[1..] + b;
      DivergesAfterCommonPrefix(x[1..], a, b);
    } else {
      assert x + a == a && x + b == b;
    }
  }

  /** No occurrence of `pat` can start inside `p`, whatever follows it. */
  predicate Screens(p: string, pat: string)
    decreases |p|
  {
    p == [] || (Diverges(p, pat) && Screens(p[1..], pat))
  }

  lemma {:induction false} DivergesNoPrefix(p: string, t: string, pat: string)
    requires Diverges(p, pat)
    ensures !(pat <= p + t)
    decreases |p|
  {
    assert (p + t)[0] == p[0];
    if p[0] == pat[0] {
      DivergesNoPrefix(p[1..], t, pat[1..]);
      assert (p + t)[1..] == p[1..] + t;
    }
  }

  lemma {:induction false} ScreensNoMatch(p: string, t: string, pat: string)
    requires Screens(p, pat)
    ensures NoMatchInside(p, t, pat)
    decreases |p|
  {
    if p != [] {
      DivergesNoPrefix(p, t, pat);
      ScreensNoMatch(p[1..], t, pat);
      assert p[1..] + t == (p + t)[1..];
    }
  }

  /** A prefix that lacks the pattern's first character screens it. */
  lemma {:induction false} ScreensByFirstChar(p: string, pat: string)
    requires |pat| > 0 && pat[0] !in p
    ensures Screens(p, pat)
    decreases |p|
  {
    if p != [] {
      assert p[0] != pat[0];
      ScreensByFirstChar(p[1..], pat);
    }
  }

  /** Without an occurrence, `replace` returns its input. */
  lemma ReplaceFirstAbsent(s: string, pat: string, rep: string)
    requires !Contains(s, pat)
    ensures ReplaceFirst(s, pat, rep) == s
  {
    ReplaceFirstIndexOf(s, pat, rep);
  }

  /** An occurrence at the very start is the one replaced. */
  lemma ReplaceFirstAtStart(pat: string, rep: string, t: string)
    ensures ReplaceFirst(pat + t, pat, rep) == rep + t
  {
    assert pat <= pat + t;
    assert (pat + t)[|pat|..] == t;
  }

  /** `parts.join([sep])`: the inverse of `Split`. */
  function Join(parts: seq<string>, sep: char): string {
    if |parts| == 0 then []
    else if |parts| == 1 then parts[0]
    else parts[0] + [sep] + Join(parts[1..], sep)
  }

  /** The joined string starts with the first part. */
  lemma {:induction false} JoinStartsWith(parts: seq<string>, sep: char)
    requires |parts| >= 1
    ensures StartsWith(Join(parts, sep), parts[0])
  {
    if |parts| > 1 {
      assert Join(parts, sep) == parts[0] + ([sep] + Join(parts[1..], sep));
    }
  }

  /** `s.split(sep)` for a one-character separator: never empty, and `"".split(sep) == [""]`. */
  function Split(s: string, sep: char): (parts: seq<string>)
    ensures |parts| >= 1
    ensures forall k :: 0 <= k < |parts| ==> sep !in parts[k]
    ensures Join(parts, sep) == s
  {
    if s == [] then [[]]
    else
      var rest := Split(s[1..], sep);
      if s[0] == sep then [[]] + rest
      else [[s[0]] + rest[0]] + rest[1..]
  }

  /** A separator after a separator-free prefix closes the first part. */
  lemma {:induction false} SplitAfterPart(a: string, sep: char, rest: string)
    requires sep !in a
    ensures Split(a + [sep] + rest, sep) == [a] + Split(rest, sep)
    decreases |a|
  {
    var s := a + [sep] + rest;
    if a == [] {
      assert s[0] == sep && s[1..] == rest;
    } else {
      assert s[0] == a[0] && s[1..] == a[1..] + [sep] + rest;
      SplitAfterPart(a[1..], sep, rest);
      assert [a[0]] + a[1..] == a;
    }
  }

  /** A separator-free string splits into itself alone. */
  lemma {:induction false} SplitWhole(a: string, sep: char)
    requires sep !in a
    ensures Split(a, sep) == [a]
    decreases |a|
  {
    if a != [] {
      SplitWhole(a[1..], sep);
      assert [a[0]] + a[1..] == a;
    }
  }

  /** `Split` undoes `Join` when no part holds the separator. */
  lemma {:induction false} SplitJoin(parts: seq<string>, sep: char)
    requires |parts| >= 1
    requires forall k :: 0 <= k < |parts| ==> sep !in parts[k]
    ensures Split(Join(parts, sep), sep) == parts
    decreases |parts|
  {
    if |parts| == 1 {
      SplitWhole(parts[0], sep);
    } else {
      SplitJoin(parts[1..], sep);
      SplitAfterPart(parts[0], sep, Join(parts[1..], sep));
      assert [parts[0]] + parts[1..] == parts;
    }
  }
}
