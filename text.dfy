/** The string operations of Python's `str` that the core relies on:
    `in`, `find`, `split`, `join`, `count`, `lower`, `strip`, `replace`
    and slicing, each written out with Python's semantics. */
module Text {
  import opened Values

  /** `p` occurs in `s` starting at position `i`. */
  predicate OccursAt(s: string, p: string, i: nat)
  {
    i + |p| <= |s| && s[i..i + |p|] == p
  }

  /** `s.find(p, k)`: the first occurrence of `p` at or after `k`. */
  function FindFrom(s: string, p: string, k: nat): (r: Option<nat>)
    decreases |s| - k
    ensures r.Some? ==> k <= r.value && OccursAt(s, p, r.value)
    ensures r.Some? ==> forall j :: k <= j < r.value ==> !OccursAt(s, p, j)
    ensures r.None? ==> forall j :: k <= j ==> !OccursAt(s, p, j)
  {
    if k + |p| > |s| then None
    else if s[k..k + |p|] == p then Some(k)
    else FindFrom(s, p, k + 1)
  }

  /** `s.find(p)`, as an option instead of -1. */
  function IndexOf(s: string, p: string): Option<nat>
  {
    FindFrom(s, p, 0)
  }

  /** `p in s`. */
  predicate Contains(s: string, p: string)
  {
    IndexOf(s, p).Some?
  }

  lemma ContainsAt(s: string, p: string, i: nat)
    requires OccursAt(s, p, i)
    ensures Contains(s, p)
  {
  }

  /** An occurrence inside a prefix of `s` is an occurrence in `s`. */
  lemma OccursInPrefix(s: string, n: nat, p: string, j: nat)
    requires n <= |s| && OccursAt(s[..n], p, j)
    ensures OccursAt(s, p, j)
  {
    assert s[..n][j..j + |p|] == s[j..j + |p|];
  }

  /** An occurrence inside a suffix of `s` is an occurrence in `s`. */
  lemma OccursInSuffix(s: string, n: nat, p: string, j: nat)
    requires n <= |s| && OccursAt(s[n..], p, j)
    ensures OccursAt(s, p, n + j)
  {
    assert s[n..][j..j + |p|] == s[n + j..n + j + |p|];
  }

  /** `s.split(p)[0]`: the text before the first occurrence of `p`, or all of
      `s` when `p` does not occur. */
  function Before(s: string, p: string): (r: string)
    ensures |r| <= |s| && r == s[..|r|]
    ensures |p| > 0 ==> (Contains(s, p) <==> |r| < |s|)
  {
    match IndexOf(s, p)
    case Some(i) => s[..i]
    case None => s
  }

  /** The text after the first occurrence of `p`. */
  function After(s: string, p: string): (r: string)
    requires Contains(s, p)
    ensures |r| <= |s| && r == s[|s| - |r|..]
  {
    var i := IndexOf(s, p).value;
    s[i + |p|..]
  }

  /** `s.split(p)[1]`: the text between the first occurrence of `p` and the
      next one (or the end). */
  function Second(s: string, p: string): string
    requires Contains(s, p)
  {
    Before(After(s, p), p)
  }

  /** The prefix that `Before` keeps never contains the separator. */
  lemma BeforeHasNoSep(s: string, p: string)
    requires |p| > 0
    ensures !Contains(Before(s, p), p)
  {
    var r := Before(s, p);
    if Contains(r, p) {
      var j := IndexOf(r, p).value;
      OccursInPrefix(s, |r|, p, j);
      if IndexOf(s, p).Some? {
        assert false;
      }
    }
  }

  /** A prefix of a string without `p` has no `p` either. */
  lemma PrefixHasNoSep(s: string, n: nat, p: string)
    requires n <= |s| && !Contains(s, p)
    ensures !Contains(s[..n], p)
  {
    if Contains(s[..n], p) {
      OccursInPrefix(s, n, p, IndexOf(s[..n], p).value);
      ContainsAt(s, p, IndexOf(s[..n], p).value);
    }
  }

  /** `s.split(sep)` for a non-empty separator. */
  function SplitAll(s: string, sep: string): (parts: seq<string>)
    requires |sep| > 0
    decreases |s|
    ensures |parts| >= 1
  {
    match IndexOf(s, sep)
    case None => [s]
    case Some(i) => [s[..i]] + SplitAll(s[i + |sep|..], sep)
  }

  /** `sep.join(parts)`. */
  function JoinWith(parts: seq<string>, sep: string): string
  {
    if |parts| == 0 then ""
    else if |parts| == 1 then parts[0]
    else parts[0] + sep + JoinWith(parts[1..], sep)
  }

  /** Splitting and joining again gives back the original string. */
  lemma {:induction false} JoinSplit(s: string, sep: string)
    requires |sep| > 0
    ensures JoinWith(SplitAll(s, sep), sep) == s
    decreases |s|
  {
    match IndexOf(s, sep)
    case None =>
    case Some(i) =>
      var rest := s[i + |sep|..];
      var tail := SplitAll(rest, sep);
      JoinSplit(rest, sep);
      var parts := [s[..i]] + tail;
      assert SplitAll(s, sep) == parts;
      assert parts[1..] == tail;
      assert JoinWith(parts, sep) == s[..i] + sep + JoinWith(tail, sep);
      assert s == s[..i] + s[i..i + |sep|] + rest;
  }

  /** No piece of a split contains the separator. */
  lemma {:induction false} SplitPartsHaveNoSep(s: string, sep: string, k: nat)
    requires |sep| > 0 && k < |SplitAll(s, sep)|
    ensures !Contains(SplitAll(s, sep)[k], sep)
    decreases |s|
  {
    match IndexOf(s, sep)
    case None =>
    case Some(i) =>
      if k == 0 {
        BeforeHasNoSep(s, sep);
      } else {
        SplitPartsHaveNoSep(s[i + |sep|..], sep, k - 1);
      }
  }

  /** The first two pieces of a split are `Before` and `Second`; there is a
      second piece exactly when the separator occurs. */
  lemma SplitFirstPieces(s: string, sep: string)
    requires |sep| > 0
    ensures SplitAll(s, sep)[0] == Before(s, sep)
    ensures |SplitAll(s, sep)| >= 2 <==> Contains(s, sep)
    ensures Contains(s, sep) ==> SplitAll(s, sep)[1] == Second(s, sep)
  {
    match IndexOf(s, sep)
    case None =>
    case Some(i) =>
      var rest := s[i + |sep|..];
      match IndexOf(rest, sep)
      case None =>
      case Some(_) =>
  }

  /** `s.count(sep)`: the number of non-overlapping occurrences, scanning
      from the left. */
  function Count(s: string, sep: string): (n: nat)
    requires |sep| > 0
    decreases |s|
    ensures n > 0 <==> Contains(s, sep)
  {
    match IndexOf(s, sep)
    case None => 0
    case Some(i) => 1 + Count(s[i + |sep|..], sep)
  }

  /** Python's identity `s.count(x) == len(s.split(x)) - 1`. */
  lemma {:induction false} CountIsSplitsMinusOne(s: string, sep: string)
    requires |sep| > 0
    ensures |SplitAll(s, sep)| == Count(s, sep) + 1
    decreases |s|
  {
    match IndexOf(s, sep)
    case None =>
    case Some(i) => CountIsSplitsMinusOne(s[i + |sep|..], sep);
  }

  /** `c.lower()` for ASCII letters; every other character is unchanged. */
  function LowerChar(c: char): char
  {
    if 'A' <= c <= 'Z' then (c as int + 32) as char else c
  }

  /** `s.lower()`, restricted to ASCII case mapping. */
  function Lower(s: string): (r: string)
    ensures |r| == |s|
    ensures forall i :: 0 <= i < |s| ==> r[i] == LowerChar(s[i])
  {
    seq(|s|, i requires 0 <= i < |s| => LowerChar(s[i]))
  }

  /** Lower-casing twice is lower-casing once, and leaves no upper-case
      ASCII letter. */
  lemma LowerIdempotent(s: string)
    ensures Lower(Lower(s)) == Lower(s)
    ensures forall i :: 0 <= i < |s| ==> !('A' <= Lower(s)[i] <= 'Z')
  {
    assert forall i :: 0 <= i < |s| ==> LowerChar(LowerChar(s[i])) == LowerChar(s[i]);
  }

  /** The characters that `str.strip()` removes: those Python's
      `str.isspace()` accepts. */
  predicate IsSpace(c: char)
  {
    || c == ' ' || c == '\t' || c == '\n' || c == '\r'
    || c == '\U{000B}' || c == '\U{000C}'
    || ('\U{001C}' <= c <= '\U{001F}')
    || c == '\U{0085}' || c == '\U{00A0}' || c == '\U{1680}'
    || ('\U{2000}' <= c <= '\U{200A}')
    || c == '\U{2028}' || c == '\U{2029}' || c == '\U{202F}'
    || c == '\U{205F}' || c == '\U{3000}'
  }

  /** `s.lstrip()`: the longest suffix that does not start with whitespace. */
  function TrimStart(s: string): (r: string)
    ensures |r| <= |s| && r == s[|s| - |r|..]
    ensures r == [] || !IsSpace(r[0])
    ensures forall k :: 0 <= k < |s| - |r| ==> IsSpace(s[k])
  {
    if |s| > 0 && IsSpace(s[0]) then TrimStart(s[1..]) else s
  }

  /** `s.rstrip()`: the longest prefix that does not end with whitespace. */
  function TrimEnd(s: string): (r: string)
    ensures |r| <= |s| && r == s[..|r|]
    ensures r == [] || !IsSpace(r[|r| - 1])
    ensures forall k :: |r| <= k < |s| ==> IsSpace(s[k])
  {
    if |s| > 0 && IsSpace(s[|s| - 1]) then TrimEnd(s[..|s| - 1]) else s
  }

  /** `s.strip()`. */
  function Strip(s: string): string
  {
    TrimEnd(TrimStart(s))
  }

  /** Stripping a string that is already stripped changes nothing. */
  lemma StripIdempotent(s: string)
    ensures Strip(Strip(s)) == Strip(s)
  {
    var r := Strip(s);
    if r != [] {
      assert TrimStart(r) == r;
      assert TrimEnd(r) == r;
    }
  }

  /** `s.replace(a, b)` for single characters. */
  function ReplaceChar(s: string, a: char, b: char): (r: string)
    ensures |r| == |s|
    ensures forall i :: 0 <= i < |s| ==> r[i] == (if s[i] == a then b else s[i])
  {
    seq(|s|, i requires 0 <= i < |s| => if s[i] == a then b else s[i])
  }

  /** Replacing `a` by `b` leaves no `a`; when `b` did not occur before, the
      replacement can be undone. */
  lemma ReplaceCharInverse(s: string, a: char, b: char)
    requires a != b
    ensures a !in ReplaceChar(s, a, b)
    ensures b !in s ==> ReplaceChar(ReplaceChar(s, a, b), b, a) == s
  {
  }

  /** `s[:n]`. */
  function Take(s: string, n: nat): (r: string)
    ensures |r| == if n < |s| then n else |s|
    ensures r == s[..|r|]
  {
    if n < |s| then s[..n] else s
  }
}
