/**
 * Whitespace trimming as Go's `strings.TrimSpace` performs it: every
 * leading and every trailing character that Go's `unicode.IsSpace`
 * classifies as white space is removed, and nothing else changes.
 * The harness applies it to both captured streams of a finished shell
 * so that a trailing newline never causes a mismatch.
 */
module Trim {

  /** Go's `unicode.IsSpace`: the Unicode White_Space property. */
  predicate IsSpace(c: char) {
    || ('\t' <= c <= '\r')            // U+0009 .. U+000D
    || c == ' '
    || c == '\U{0085}' || c == '\U{00A0}'
    || c == '\U{1680}'
    || ('\U{2000}' <= c <= '\U{200A}')
    || c == '\U{2028}' || c == '\U{2029}'
    || c == '\U{202F}' || c == '\U{205F}'
    || c == '\U{3000}'
  }

  /** Every character of `s` is white space. */
  predicate AllSpace(s: string) {
    forall i :: 0 <= i < |s| ==> IsSpace(s[i])
  }

  /** `s` neither starts nor ends with white space. */
  predicate IsTrimmed(s: string) {
    s == [] || (!IsSpace(s[0]) && !IsSpace(s[|s| - 1]))
  }

  /** Drops the leading white space. */
  function TrimLeft(s: string): string {
    if |s| > 0 && IsSpace(s[0]) then TrimLeft(s[1..]) else s
  }

  /** Drops the trailing white space. */
  function TrimRight(s: string): string {
    if |s| > 0 && IsSpace(s[|s| - 1]) then TrimRight(s[..|s| - 1]) else s
  }

  /** TrimLeft yields the suffix of `s` that starts at its first non-space
      character (empty if there is none). */
  lemma {:induction false} TrimLeftSpec(s: string)
    ensures var r := TrimLeft(s);
            && |r| <= |s| && r == s[|s| - |r|..]
            && AllSpace(s[..|s| - |r|])
            && (r == [] || !IsSpace(r[0]))
  {
    if |s| > 0 && IsSpace(s[0]) {
      TrimLeftSpec(s[1..]);
      var r := TrimLeft(s[1..]);
      assert s[..|s| - |r|] == [s[0]] + s[1..][..|s| - 1 - |r|];
    }
  }

  /** TrimRight yields the prefix of `s` that ends at its last non-space
      character (empty if there is none). */
  lemma {:induction false} TrimRightSpec(s: string)
    ensures var r := TrimRight(s);
            && |r| <= |s| && r == s[..|r|]
            && AllSpace(s[|r|..])
            && (r == [] || !IsSpace(r[|r| - 1]))
  {
    if |s| > 0 && IsSpace(s[|s| - 1]) {
      TrimRightSpec(s[..|s| - 1]);
      var r := TrimRight(s[..|s| - 1]);
      assert s[|r|..] == s[..|s| - 1][|r|..] + [s[|s| - 1]];
    }
  }

  /** `strings.TrimSpace`. */
  function TrimSpace(s: string): string {
    TrimRight(TrimLeft(s))
  }

  /** TrimSpace yields a trimmed string, and it is what remains of `s` once
      a white-space prefix and a white-space suffix are cut off. */
  lemma TrimSpaceSpec(s: string)
    ensures IsTrimmed(TrimSpace(s))
    ensures exists i, j :: 0 <= i <= j <= |s| && TrimSpace(s) == s[i..j] && AllSpace(s[..i]) && AllSpace(s[j..])
  {
    TrimLeftSpec(s);
    TrimRightSpec(TrimLeft(s));
    TrimSpaceCompose(s, TrimLeft(s), TrimRight(TrimLeft(s)));
  }

  /** A suffix of `s` behind white space that starts with a non-space
      character, cut down to a prefix in front of white space that ends
      with a non-space character, is a trimmed infix of `s`. */
  lemma TrimSpaceCompose(s: string, t: string, r: string)
    requires |t| <= |s| && t == s[|s| - |t|..] && AllSpace(s[..|s| - |t|])
    requires t == [] || !IsSpace(t[0])
    requires |r| <= |t| && r == t[..|r|] && AllSpace(t[|r|..])
    requires r == [] || !IsSpace(r[|r| - 1])
    ensures IsTrimmed(r)
    ensures var i, j := |s| - |t|, |s| - |t| + |r|;
            0 <= i <= j <= |s| && r == s[i..j] && AllSpace(s[..i]) && AllSpace(s[j..])
  {
    var i, j := |s| - |t|, |s| - |t| + |r|;
    assert r != [] ==> r[0] == t[0];
    assert s[j..] == t[|r|..];
  }

  /** Leading white space in front of a string that does not start with
      white space is exactly what TrimLeft removes. */
  lemma {:induction false} TrimLeftPrefix(a: string, x: string)
    requires AllSpace(a)
    requires x == [] || !IsSpace(x[0])
    ensures TrimLeft(a + x) == x
  {
    if a != [] {
      assert (a + x)[1..] == a[1..] + x;
      TrimLeftPrefix(a[1..], x);
    }
  }

  /** Trailing white space behind a string that does not end with white
      space is exactly what TrimRight removes. */
  lemma {:induction false} TrimRightSuffix(x: string, b: string)
    requires AllSpace(b)
    requires x == [] || !IsSpace(x[|x| - 1])
    ensures TrimRight(x + b) == x
  {
    if b != [] {
      assert (x + b)[..|x + b| - 1] == x + b[..|b| - 1];
      TrimRightSuffix(x, b[..|b| - 1]);
    }
  }

  /** TrimSpace is determined by its characterisation: a trimmed string
      surrounded by white space trims to itself. */
  lemma TrimSpaceUnique(a: string, t: string, b: string)
    requires AllSpace(a) && AllSpace(b) && IsTrimmed(t)
    ensures TrimSpace(a + t + b) == t
  {
    if t == [] {
      assert a + t + b == (a + b) + [];
      TrimLeftPrefix(a + b, []);
    } else {
      assert a + t + b == a + (t + b);
      TrimLeftPrefix(a, t + b);
      TrimRightSuffix(t, b);
    }
  }

  /** A trimmed string followed by white space trims to itself. */
  lemma TrimSpaceDropsTrailing(t: string, b: string)
    requires IsTrimmed(t) && AllSpace(b)
    ensures TrimSpace(t + b) == t
  {
    assert t + b == [] + t + b;
    TrimSpaceUnique([], t, b);
  }

  /** Trimming twice gives the same result as trimming once. */
  lemma TrimSpaceIdempotent(s: string)
    ensures TrimSpace(TrimSpace(s)) == TrimSpace(s)
  {
    var t := TrimSpace(s);
    TrimSpaceSpec(s);
    assert t + [] == t;
    TrimSpaceDropsTrailing(t, []);
  }

  lemma AllSpaceConcat(a: string, b: string)
    requires AllSpace(a) && AllSpace(b)
    ensures AllSpace(a + b)
  {
  }

  /** Cutting `c` at `i` and `j` and regrouping the pieces with `p` and `q`. */
  lemma Regroup(p: string, c: string, q: string, i: nat, j: nat)
    requires i <= j <= |c|
    ensures p + c + q == (p + c[..i]) + c[i..j] + (c[j..] + q)
  {
    assert c == c[..i] + c[i..j] + c[j..];
  }

  /** White space added in front of or behind a string does not change
      what it trims to. */
  lemma TrimSpaceIgnoresPadding(p: string, c: string, q: string)
    requires AllSpace(p) && AllSpace(q)
    ensures TrimSpace(p + c + q) == TrimSpace(c)
  {
    var t := TrimSpace(c);
    TrimSpaceSpec(c);
    var i, j :| 0 <= i <= j <= |c| && t == c[i..j] && AllSpace(c[..i]) && AllSpace(c[j..]);
    var a, b := c[..i], c[j..];
    Regroup(p, c, q, i, j);
    AllSpaceConcat(p, a);
    AllSpaceConcat(b, q);
    TrimSpaceUnique(p + a, t, b + q);
  }
}
