/**
 * Whitespace tokenisation as `str.split()` with no separator performs it
 * (cube.py, `parse_sequence`): runs of whitespace separate tokens, and
 * leading or trailing whitespace produces no empty token.
 */
module Tokens {

  /** The characters Python's `str.isspace` accepts, which are the ones `str.split()` splits on. */
  predicate IsSpace(c: char)
  {
    ('\U{9}' <= c <= '\U{D}') || ('\U{1C}' <= c <= '\U{1F}') || c == ' '
    || c == '\U{85}' || c == '\U{A0}' || c == '\U{1680}'
    || ('\U{2000}' <= c <= '\U{200A}') || c == '\U{2028}' || c == '\U{2029}'
    || c == '\U{202F}' || c == '\U{205F}' || c == '\U{3000}'
  }

  /** No whitespace in `t`. */
  predicate SpaceFree(t: string)
  {
    forall i | 0 <= i < |t| :: !IsSpace(t[i])
  }

  /** A token `str.split()` can produce: non-empty and free of whitespace. */
  predicate IsToken(t: string)
  {
    |t| > 0 && SpaceFree(t)
  }

  /** The length of the run of non-whitespace characters at the start of `s`. */
  function TokenLength(s: string): (n: nat)
    ensures n <= |s|
    ensures SpaceFree(s[..n])
    ensures n < |s| ==> IsSpace(s[n])
  {
    if s == [] || IsSpace(s[0]) then 0 else 1 + TokenLength(s[1..])
  }

  /** `str.split()`: the maximal runs of non-whitespace characters of `s`, in order. */
  function Split(s: string): (ts: seq<string>)
    ensures forall i | 0 <= i < |ts| :: IsToken(ts[i])
    decreases |s|
  {
    if s == [] then []
    else if IsSpace(s[0]) then Split(s[1..])
    else
      var n := TokenLength(s);
      [s[..n]] + Split(s[n..])
  }

  /** The characters of `s` that are not whitespace, in order. */
  function NonSpace(s: string): string
  {
    if s == [] then [] else (if IsSpace(s[0]) then [] else [s[0]]) + NonSpace(s[1..])
  }

  /** The tokens concatenated. */
  function Concat(ts: seq<string>): string
  {
    if ts == [] then [] else ts[0] + Concat(ts[1..])
  }

  /** The tokens joined with a single space, as `" ".join(ts)`. */
  function Join(ts: seq<string>): string
  {
    if ts == [] then [] else if |ts| == 1 then ts[0] else ts[0] + " " + Join(ts[1..])
  }

  lemma {:induction false} NonSpaceConcat(a: string, b: string)
    ensures NonSpace(a + b) == NonSpace(a) + NonSpace(b)
  {
    if a != [] {
      assert (a + b)[1..] == a[1..] + b;
      NonSpaceConcat(a[1..], b);
    } else {
      assert a + b == b;
    }
  }

  lemma {:induction false} NonSpaceOfSpaceFree(t: string)
    requires SpaceFree(t)
    ensures NonSpace(t) == t
  {
    if t != [] {
      NonSpaceOfSpaceFree(t[1..]);
    }
  }

  /** Splitting loses exactly the whitespace: the tokens concatenated are the non-whitespace characters of the input. */
  lemma {:induction false} SplitKeepsNonSpace(s: string)
    ensures Concat(Split(s)) == NonSpace(s)
    decreases |s|
  {
    if s == [] {
    } else if IsSpace(s[0]) {
      SplitKeepsNonSpace(s[1..]);
    } else {
      var n := TokenLength(s);
      SplitKeepsNonSpace(s[n..]);
      assert Split(s)[1..] == Split(s[n..]);
      assert s == s[..n] + s[n..];
      NonSpaceConcat(s[..n], s[n..]);
      NonSpaceOfSpaceFree(s[..n]);
    }
  }

  /** A string of whitespace only, the empty string included, has no tokens. */
  lemma {:induction false} SplitBlank(s: string)
    requires forall i | 0 <= i < |s| :: IsSpace(s[i])
    ensures Split(s) == []
  {
    if s != [] {
      SplitBlank(s[1..]);
    }
  }

  /** A single token splits to itself. */
  lemma SplitToken(t: string)
    requires IsToken(t)
    ensures Split(t) == [t]
  {
    TokenLengthOfSpaceFree(t);
    assert t[..|t|] == t;
    assert t[|t|..] == [];
  }

  lemma {:induction false} TokenLengthOfSpaceFree(t: string)
    requires SpaceFree(t)
    ensures TokenLength(t) == |t|
  {
    if t != [] {
      TokenLengthOfSpaceFree(t[1..]);
    }
  }

  lemma {:induction false} TokenLengthStopsAtSpace(a: string, c: char, b: string)
    requires IsSpace(c)
    ensures TokenLength(a + [c] + b) == TokenLength(a)
  {
    if a == [] {
      assert (a + [c] + b)[0] == c;
    } else if !IsSpace(a[0]) {
      assert (a + [c] + b)[1..] == a[1..] + [c] + b;
      TokenLengthStopsAtSpace(a[1..], c, b);
    }
  }

  /** A whitespace character separates: what lies on either side splits independently. */
  lemma {:induction false} SplitAtSpace(a: string, c: char, b: string)
    requires IsSpace(c)
    ensures Split(a + [c] + b) == Split(a) + Split(b)
    decreases |a|
  {
    var s := a + [c] + b;
    if a == [] {
      assert s[1..] == b;
    } else if IsSpace(a[0]) {
      assert s[1..] == a[1..] + [c] + b;
      SplitAtSpace(a[1..], c, b);
    } else {
      var n := TokenLength(a);
      TokenLengthStopsAtSpace(a, c, b);
      assert s[..n] == a[..n];
      assert s[n..] == a[n..] + [c] + b;
      SplitAtSpace(a[n..], c, b);
    }
  }

  /** Joining tokens with single spaces and splitting again gives the tokens back. */
  lemma {:induction false} SplitJoin(ts: seq<string>)
    requires forall i | 0 <= i < |ts| :: IsToken(ts[i])
    ensures Split(Join(ts)) == ts
  {
    if ts == [] {
    } else if |ts| == 1 {
      SplitToken(ts[0]);
    } else {
      SplitJoin(ts[1..]);
      SplitToken(ts[0]);
      SplitAtSpace(ts[0], ' ', Join(ts[1..]));
      assert ts[0] + " " + Join(ts[1..]) == ts[0] + [' '] + Join(ts[1..]);
    }
  }
}
