/** The parts of Go's `strings` package the handler uses, specialised to
    single-character separators ("/", ":" and "-" are the only ones it
    passes). Strings are sequences of characters; Go's byte strings and
    UTF-8 are not distinguished. */
module Strings {

  /** Position of the first `c` in `s`, or `|s|` when `c` does not occur. */
  function IndexOf(s: string, c: char): (i: nat)
    ensures i <= |s|
    ensures i < |s| <==> c in s
    ensures i < |s| ==> s[i] == c
    ensures c !in s[..i]
  {
    if |s| == 0 then 0
    else if s[0] == c then 0
    else
      var j := IndexOf(s[1..], c);
      assert s[..1 + j] == [s[0]] + s[1..][..j];
      1 + j
  }

  /** `strings.Split(s, sep)` for a one-character `sep`: every maximal
      piece between separators, so `n` separators give `n + 1` pieces. */
  function Split(s: string, c: char): (parts: seq<string>)
    ensures |parts| >= 1
    ensures forall k :: 0 <= k < |parts| ==> c !in parts[k]
    decreases |s|
  {
    var i := IndexOf(s, c);
    if i == |s| then [s] else [s[..i]] + Split(s[i + 1..], c)
  }

  /** A string splits into more than one piece exactly when it holds the
      separator; otherwise it is its own only piece. */
  lemma SplitSingle(s: string, c: char)
    ensures c !in s <==> |Split(s, c)| == 1
    ensures c !in s ==> Split(s, c) == [s]
  {
    if c in s {
      assert |Split(s[IndexOf(s, c) + 1..], c)| >= 1;
    }
  }

  /** `strings.SplitN(s, sep, n)` for `n > 0` and a one-character `sep`:
      at most `n` pieces, the last holding the unsplit remainder. */
  function SplitN(s: string, c: char, n: nat): (parts: seq<string>)
    requires n >= 1
    ensures 1 <= |parts| <= n
    ensures forall k :: 0 <= k < |parts| - 1 ==> c !in parts[k]
    decreases n
  {
    var i := IndexOf(s, c);
    if n == 1 || i == |s| then [s] else [s[..i]] + SplitN(s[i + 1..], c, n - 1)
  }

  /** `SplitN` with room for two pieces splits exactly when the separator
      occurs, and a final piece short of the limit holds no separator. */
  lemma {:induction false} SplitNSingle(s: string, c: char, n: nat)
    requires n >= 1
    ensures c !in s ==> SplitN(s, c, n) == [s]
    ensures n >= 2 && IndexOf(s, c) < |s| ==> |SplitN(s, c, n)| >= 2
    ensures var parts := SplitN(s, c, n);
      |parts| < n ==> c !in parts[|parts| - 1]
    decreases n
  {
    var i := IndexOf(s, c);
    if n > 1 && i < |s| {
      SplitNSingle(s[i + 1..], c, n - 1);
      var tail := SplitN(s[i + 1..], c, n - 1);
      assert SplitN(s, c, n) == [s[..i]] + tail;
      LastOfCons(s[..i], tail);
    }
  }

  /** The pieces of `SplitN` re-joined give back the input. */
  lemma {:induction false} JoinSplitN(s: string, c: char, n: nat)
    requires n >= 1
    ensures Join(SplitN(s, c, n), c) == s
    decreases n
  {
    var i := IndexOf(s, c);
    if n > 1 && i < |s| {
      var rest := s[i + 1..];
      JoinSplitN(rest, c, n - 1);
      JoinCons(s[..i], SplitN(rest, c, n - 1), c);
      Reassemble(s, i);
    }
  }

  /** `strings.Join(parts, sep)` for a one-character `sep`. */
  function Join(parts: seq<string>, c: char): string
  {
    if |parts| == 0 then ""
    else if |parts| == 1 then parts[0]
    else parts[0] + [c] + Join(parts[1..], c)
  }

  /** `strings.TrimPrefix(s, prefix)` for a one-character prefix. */
  function TrimPrefix(s: string, c: char): (r: string)
    ensures s == r || s == [c] + r
    ensures |s| > 0 && s[0] == c <==> s == [c] + r
  {
    if |s| > 0 && s[0] == c then s[1..] else s
  }

  /** `strings.HasSuffix(s, suffix)` for a one-character suffix. */
  predicate HasSuffix(s: string, c: char)
  {
    |s| > 0 && s[|s| - 1] == c
  }

  /** `strings.TrimRight(s, cutset)` for a one-character cutset: removes
      EVERY trailing `c`, not just one. */
  function TrimRight(s: string, c: char): (r: string)
    ensures r <= s
    ensures !HasSuffix(r, c)
    ensures forall k :: |r| <= k < |s| ==> s[k] == c
    decreases |s|
  {
    if HasSuffix(s, c) then TrimRight(s[..|s| - 1], c) else s
  }

  /** The piece after the last `c` of `s` (the whole of `s` when it has
      none): `segments[len(segments)-1]` of `strings.Split(s, sep)`. */
  function LastSegment(s: string, c: char): (seg: string)
  {
    var parts := Split(s, c);
    parts[|parts| - 1]
  }

  /** Concatenation of a sequence of strings, in order. */
  function Concat(parts: seq<string>): string
  {
    if |parts| == 0 then "" else Concat(parts[..|parts| - 1]) + parts[|parts| - 1]
  }

  /** Concatenation is associative (stated once so that callers can name it). */
  lemma AppendAssoc(a: string, b: string, c: string)
    ensures a + (b + c) == a + b + c
  {
  }

  /** Re-bracketing of separator-joined strings, to the right. */
  lemma SeparatedRight(a: string, b: string, c: string, d: string, ch: char)
    ensures a + [ch] + b + [ch] + c == a + [ch] + (b + [ch] + c)
    ensures a + [ch] + b + [ch] + c + [ch] + d == a + [ch] + (b + [ch] + (c + [ch] + d))
  {
    AppendAssoc(a + [ch], b + [ch], c);
    AppendAssoc(a + [ch], b, [ch]);
    AppendAssoc(b + [ch], c + [ch], d);
    AppendAssoc(b + [ch], c, [ch]);
    AppendAssoc(a + [ch], b + [ch] + c + [ch], d);
    AppendAssoc(a + [ch], b + [ch] + c, [ch]);
  }

  /** Splitting and re-joining on the same separator gives back the input. */
  lemma {:induction false} JoinSplit(s: string, c: char)
    ensures Join(Split(s, c), c) == s
    decreases |s|
  {
    var i := IndexOf(s, c);
    if i < |s| {
      var rest := s[i + 1..];
      JoinSplit(rest, c);
      JoinCons(s[..i], Split(rest, c), c);
      Reassemble(s, i);
    }
  }

  /** `Join` of a piece in front of at least one more. */
  lemma JoinCons(a: string, tail: seq<string>, c: char)
    requires |tail| >= 1
    ensures Join([a] + tail, c) == a + [c] + Join(tail, c)
  {
    assert ([a] + tail)[1..] == tail;
  }

  /** A string is the part before position `i`, the character there and
      the part after. */
  lemma Reassemble(s: string, i: nat)
    requires i < |s|
    ensures s == s[..i] + [s[i]] + s[i + 1..]
  {
  }

  /** Joining separator-free pieces and splitting again gives back the
      pieces: `Split` is the inverse of `Join`. */
  lemma {:induction false} SplitJoin(parts: seq<string>, c: char)
    requires |parts| >= 1
    requires forall k :: 0 <= k < |parts| ==> c !in parts[k]
    ensures Split(Join(parts, c), c) == parts
    decreases |parts|
  {
    if |parts| > 1 {
      SplitJoin(parts[1..], c);
      var s := Join(parts, c);
      SplitAt(parts[0], Join(parts[1..], c), c);
      assert parts == [parts[0]] + parts[1..];
    }
  }

  /** Splitting `a + c + b`, where `a` holds no `c`, yields `a` first and
      then the pieces of `b`. */
  lemma SplitAt(a: string, b: string, c: char)
    requires c !in a
    ensures Split(a + [c] + b, c) == [a] + Split(b, c)
  {
    var s := a + [c] + b;
    IndexOfAt(a, b, c);
    assert s[..|a|] == a;
    assert s[|a| + 1..] == b;
  }

  /** `SplitN` counterpart of `SplitAt`. */
  lemma SplitNAt(a: string, b: string, c: char, n: nat)
    requires n >= 2
    requires c !in a
    ensures SplitN(a + [c] + b, c, n) == [a] + SplitN(b, c, n - 1)
  {
    var s := a + [c] + b;
    IndexOfAt(a, b, c);
    assert s[..|a|] == a;
    assert s[|a| + 1..] == b;
  }

  /** One cut of `SplitN`, with the pieces of the remainder already known. */
  lemma SplitNCons(a: string, s: string, c: char, n: nat, rest: seq<string>)
    requires n >= 2 && c !in a
    requires SplitN(s, c, n - 1) == rest
    ensures SplitN(a + [c] + s, c, n) == [a] + rest
  {
    SplitNAt(a, s, c, n);
  }

  /** The first `c` of `a + c + b` is the one right after `a` when `a`
      holds none. */
  lemma IndexOfAt(a: string, b: string, c: char)
    requires c !in a
    ensures IndexOf(a + [c] + b, c) == |a|
  {
    var s := a + [c] + b;
    assert s[|a|] == c;
    assert s[..|a|] == a;
  }

  /** The last segment is a separator-free suffix of `s`, preceded either by
      nothing or by a separator. */
  lemma {:induction false} LastSegmentIsSuffix(s: string, c: char)
    ensures c !in LastSegment(s, c)
    ensures |LastSegment(s, c)| <= |s|
    ensures s[|s| - |LastSegment(s, c)|..] == LastSegment(s, c)
    ensures |LastSegment(s, c)| < |s| ==> s[|s| - |LastSegment(s, c)| - 1] == c
    decreases |s|
  {
    var i := IndexOf(s, c);
    if i < |s| {
      var rest := s[i + 1..];
      LastSegmentIsSuffix(rest, c);
      LastSegmentOfTail(s, c, i);
      var seg := LastSegment(rest, c);
      SuffixOfTail(s, i + 1, |seg|);
      if |seg| == |rest| {
        assert s[|s| - |seg| - 1] == s[i];
      }
    }
  }

  /** The last segment of `s` is that of the text after its first `c`. */
  lemma LastSegmentOfTail(s: string, c: char, i: nat)
    requires i == IndexOf(s, c) < |s|
    ensures LastSegment(s, c) == LastSegment(s[i + 1..], c)
  {
    var tail := Split(s[i + 1..], c);
    assert Split(s, c) == [s[..i]] + tail;
    LastOfCons(s[..i], tail);
  }

  /** The last element of a sequence with one more element in front. */
  lemma LastOfCons<T>(a: T, tail: seq<T>)
    requires |tail| >= 1
    ensures ([a] + tail)[|tail|] == tail[|tail| - 1]
  {
  }

  /** A suffix of `s[k..]` is the suffix of `s` of the same length. */
  lemma SuffixOfTail(s: string, k: nat, m: nat)
    requires k <= |s| && m <= |s| - k
    ensures s[|s| - m..] == s[k..][|s| - k - m..]
    ensures m < |s| - k ==> s[|s| - m - 1] == s[k..][|s| - k - m - 1]
  {
  }
}
