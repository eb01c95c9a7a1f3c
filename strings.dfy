/**
 * The Python string operations both front ends rely on: `str.strip()` with no
 * argument, `str.split(sep)` with a one-character separator, and `sep.join(parts)`.
 * The number of occurrences of a character `c` in `s` is written `multiset(s)[c]`.
 */
module Strings {

  /** The characters Python's `str.isspace()` accepts, which `str.strip()` removes. */
  predicate IsSpace(c: char) {
    c == ' ' || ('\t' <= c <= '\r') || ('\U{1C}' <= c <= '\U{1F}')
    || c == '\U{85}' || c == '\U{A0}' || c == '\U{1680}'
    || ('\U{2000}' <= c <= '\U{200A}')
    || c == '\U{2028}' || c == '\U{2029}' || c == '\U{202F}' || c == '\U{205F}' || c == '\U{3000}'
  }

  /** Neither end of `s` is whitespace: what `str.strip()` guarantees of its result. */
  predicate IsStripped(s: string) {
    s != [] ==> !IsSpace(s[0]) && !IsSpace(s[|s| - 1])
  }

  /** The index of the first non-whitespace character of `s` at or after `k`, or `|s|` when there is none. */
  function SkipSpace(s: string, k: nat): (i: nat)
    requires k <= |s|
    ensures k <= i <= |s|
    decreases |s| - k
  {
    if k < |s| && IsSpace(s[k]) then SkipSpace(s, k + 1) else k
  }

  /** Everything skipped is whitespace, and the character found is not. */
  lemma {:induction false} SkipSpaceFacts(s: string, k: nat)
    requires k <= |s|
    ensures var i := SkipSpace(s, k);
      (forall m :: k <= m < i ==> IsSpace(s[m])) && (i < |s| ==> !IsSpace(s[i]))
    decreases |s| - k
  {
    if k < |s| && IsSpace(s[k]) {
      SkipSpaceFacts(s, k + 1);
    }
  }

  /**
   * The index just past the last non-whitespace character of `s[lo..k]`, or `lo`
   * when there is none.
   */
  function SkipSpaceBack(s: string, lo: nat, k: nat): (j: nat)
    requires lo <= k <= |s|
    ensures lo <= j <= k
  {
    if k > lo && IsSpace(s[k - 1]) then SkipSpaceBack(s, lo, k - 1) else k
  }

  /** Everything skipped is whitespace, and the character before the result, if in range, is not. */
  lemma {:induction false} SkipSpaceBackFacts(s: string, lo: nat, k: nat)
    requires lo <= k <= |s|
    ensures var j := SkipSpaceBack(s, lo, k);
      (forall m :: j <= m < k ==> IsSpace(s[m])) && (j > lo ==> !IsSpace(s[j - 1]))
  {
    if k > lo && IsSpace(s[k - 1]) {
      SkipSpaceBackFacts(s, lo, k - 1);
    }
  }

  /** Where `str.strip()` starts what it keeps: the first non-whitespace character of `s`. */
  function StripStart(s: string): (i: nat)
    ensures i <= |s|
  {
    SkipSpace(s, 0)
  }

  /** Just past the last non-whitespace character of `s` (StripStart when there is none). */
  function StripEnd(s: string): (j: nat)
    ensures StripStart(s) <= j <= |s|
  {
    SkipSpaceBack(s, StripStart(s), |s|)
  }

  /** `str.strip()`: `s` without the whitespace at both ends; the result has none at its ends. */
  function Strip(s: string): (r: string)
    ensures |r| <= |s| && IsStripped(r)
  {
    SkipSpaceFacts(s, 0);
    SkipSpaceBackFacts(s, StripStart(s), |s|);
    s[StripStart(s)..StripEnd(s)]
  }

  /** Everything `str.strip()` removes, before and after what it keeps, is whitespace. */
  lemma StripInfix(s: string)
    ensures var i, j := StripStart(s), StripEnd(s);
      Strip(s) == s[i..j]
      && (forall k :: 0 <= k < i ==> IsSpace(s[k]))
      && (forall k :: j <= k < |s| ==> IsSpace(s[k]))
  {
    SkipSpaceFacts(s, 0);
    SkipSpaceBackFacts(s, StripStart(s), |s|);
  }

  /** A string with no whitespace at its ends is left alone by `str.strip()`. */
  lemma StripOfStripped(s: string)
    requires IsStripped(s)
    ensures Strip(s) == s
  {
    assert StripStart(s) == 0;
    assert StripEnd(s) == |s|;
    assert s[0..|s|] == s;
  }

  /** `str.strip()` is idempotent. */
  lemma StripIdempotent(s: string)
    ensures Strip(Strip(s)) == Strip(s)
  {
    StripOfStripped(Strip(s));
  }

  /** A text made only of whitespace holds no non-whitespace character. */
  lemma AllSpaceHasNo(t: string, c: char)
    requires !IsSpace(c)
    requires forall k :: 0 <= k < |t| ==> IsSpace(t[k])
    ensures multiset(t)[c] == 0
  {
    assert c !in t;
  }

  /** A character that is not whitespace is never removed by `str.strip()`. */
  lemma StripKeepsCount(s: string, c: char)
    requires !IsSpace(c)
    ensures multiset(Strip(s))[c] == multiset(s)[c]
  {
    StripInfix(s);
    var i, j := StripStart(s), StripEnd(s);
    var head, r, tail := s[..i], s[i..j], s[j..];
    assert s == head + r + tail;
    AllSpaceHasNo(head, c);
    AllSpaceHasNo(tail, c);
    assert multiset(s) == multiset(head) + multiset(r) + multiset(tail);
  }

  /** Every character of `Strip(s)` occurs in `s`. */
  lemma StripSubset(s: string, c: char)
    requires c !in s
    ensures c !in Strip(s)
  {
    StripInfix(s);
    var i, j := StripStart(s), StripEnd(s);
    assert forall k :: 0 <= k < j - i ==> Strip(s)[k] == s[i + k];
  }

  /** Gluing two stripped strings around a non-whitespace separator gives a stripped string. */
  lemma ConcatStripped(a: string, sep: char, b: string)
    requires IsStripped(a) && IsStripped(b) && !IsSpace(sep)
    ensures IsStripped(a + [sep] + b)
  {
    var s := a + [sep] + b;
    assert s[0] == if a != [] then a[0] else sep;
    assert s[|s| - 1] == if b != [] then b[|b| - 1] else sep;
  }

  /**
   * Python's `s.split(sep)`: the pieces between separators, in order, empty
   * pieces included (so `"".split(",") == [""]`). What the pieces are is stated
   * by the lemmas below: one more piece than separators (SplitCount), no piece
   * holds the separator (SplitPiecesFree), the first piece is the text before the
   * first separator (SplitFirst), and joining them gives `s` back (JoinSplit).
   */
  function Split(s: string, sep: char): (parts: seq<string>)
    ensures |parts| >= 1
  {
    if s == [] then [""]
    else
      var rest := Split(s[1..], sep);
      if s[0] == sep then [""] + rest
      else [[s[0]] + rest[0]] + rest[1..]
  }

  /** There is one piece more than there are separators. */
  lemma {:induction false} SplitCount(s: string, sep: char)
    ensures |Split(s, sep)| == multiset(s)[sep] + 1
  {
    if s != [] {
      assert s == [s[0]] + s[1..];
      SplitCount(s[1..], sep);
    }
  }

  /** No piece contains the separator. */
  lemma {:induction false} SplitPiecesFree(s: string, sep: char)
    ensures forall i :: 0 <= i < |Split(s, sep)| ==> sep !in Split(s, sep)[i]
  {
    if s != [] {
      SplitPiecesFree(s[1..], sep);
    }
  }

  /** The first piece is the prefix of `s` up to, and not including, the first separator. */
  lemma {:induction false} SplitFirst(s: string, sep: char)
    ensures var first := Split(s, sep)[0];
      |first| <= |s| && first == s[..|first|] && (|first| < |s| ==> s[|first|] == sep)
  {
    if s != [] {
      SplitFirst(s[1..], sep);
    }
  }

  /** Python's `sep.join(parts)`. */
  function Join(parts: seq<string>, sep: char): string {
    if |parts| == 0 then ""
    else if |parts| == 1 then parts[0]
    else parts[0] + [sep] + Join(parts[1..], sep)
  }

  /** Joining the pieces of `s` with the separator gives back `s`: split loses nothing. */
  lemma {:induction false} JoinSplit(s: string, sep: char)
    ensures Join(Split(s, sep), sep) == s
  {
    if s != [] {
      var rest := Split(s[1..], sep);
      JoinSplit(s[1..], sep);
      if s[0] == sep {
        assert ([""] + rest)[1..] == rest;
      } else if |rest| > 1 {
        var parts := [[s[0]] + rest[0]] + rest[1..];
        assert parts[1..] == rest[1..];
        assert Join(rest, sep) == rest[0] + [sep] + Join(rest[1..], sep);
        assert Join(parts, sep) == [s[0]] + Join(rest, sep);
        assert s == [s[0]] + s[1..];
      }
    }
  }

  /** Splitting `p + t`, where `p` holds no separator, extends the first piece of `t` by `p`. */
  lemma {:induction false} SplitPrefix(p: string, t: string, sep: char)
    requires sep !in p
    ensures Split(p + t, sep) == [p + Split(t, sep)[0]] + Split(t, sep)[1..]
  {
    if p == [] {
      var parts := Split(t, sep);
      assert p + t == t && p + parts[0] == parts[0];
      assert [parts[0]] + parts[1..] == parts;
    } else {
      assert (p + t)[0] == p[0];
      assert (p + t)[1..] == p[1..] + t;
      SplitPrefix(p[1..], t, sep);
      assert [p[0]] + (p[1..] + Split(t, sep)[0]) == p + Split(t, sep)[0];
    }
  }

  /** Splitting the join of separator-free pieces gives back exactly those pieces. */
  lemma {:induction false} SplitJoin(parts: seq<string>, sep: char)
    requires |parts| >= 1
    requires forall i :: 0 <= i < |parts| ==> sep !in parts[i]
    ensures Split(Join(parts, sep), sep) == parts
  {
    if |parts| == 1 {
      SplitPrefix(parts[0], "", sep);
      assert parts[0] + "" == parts[0];
    } else {
      var tail := Join(parts[1..], sep);
      SplitJoin(parts[1..], sep);
      assert Split([sep] + tail, sep) == [""] + parts[1..] by {
        assert ([sep] + tail)[1..] == tail;
      }
      assert Join(parts, sep) == parts[0] + ([sep] + tail);
      SplitPrefix(parts[0], [sep] + tail, sep);
      assert parts[0] + "" == parts[0];
      assert ([""] + parts[1..])[1..] == parts[1..];
    }
  }

  /** Each entry of `xs` with `str.strip()` applied, as `[x.strip() for x in xs]`. */
  function StripAll(xs: seq<string>): (r: seq<string>)
    ensures |r| == |xs|
    ensures forall i :: 0 <= i < |xs| ==> r[i] == Strip(xs[i])
  {
    seq(|xs|, i requires 0 <= i < |xs| => Strip(xs[i]))
  }

  /** The join of stripped pieces around a non-whitespace separator is itself stripped. */
  lemma {:induction false} JoinStripped(parts: seq<string>, sep: char)
    requires !IsSpace(sep)
    requires forall i :: 0 <= i < |parts| ==> IsStripped(parts[i])
    ensures IsStripped(Join(parts, sep))
  {
    if |parts| > 1 {
      JoinStripped(parts[1..], sep);
      ConcatStripped(parts[0], sep, Join(parts[1..], sep));
    }
  }

  /** A sequence of already stripped entries is unchanged by stripping each. */
  lemma StripAllOfStripped(xs: seq<string>)
    requires forall i :: 0 <= i < |xs| ==> IsStripped(xs[i])
    ensures StripAll(xs) == xs
  {
    forall i | 0 <= i < |xs| ensures StripAll(xs)[i] == xs[i] {
      StripOfStripped(xs[i]);
    }
  }

  /** Stripping each entry never introduces a character none of the entries had. */
  lemma StripAllKeepsOut(xs: seq<string>, c: char)
    requires forall i :: 0 <= i < |xs| ==> c !in xs[i]
    ensures forall i :: 0 <= i < |xs| ==> c !in StripAll(xs)[i]
  {
    forall i | 0 <= i < |xs| ensures c !in StripAll(xs)[i] {
      StripSubset(xs[i], c);
    }
  }
}
