// Strings as the sources use them: first occurrence, concatenation of chunks, decimal numerals.
// A string is a sequence of bytes; a char stands for one byte.
module Text {

  datatype Option<+T> = None | Some(value: T)

  /** pat occurs in s at position i. */
  predicate At(s: string, pat: string, i: int) {
    0 <= i && i + |pat| <= |s| && forall m :: 0 <= m < |pat| ==> pat[m] == s[i + m]
  }

  /** The first occurrence of pat in s at or after k, or -1. */
  function IndexFrom(s: string, pat: string, k: nat): (i: int)
    ensures i < 0 ==> i == -1 && forall j :: k <= j ==> !At(s, pat, j)
    ensures i >= 0 ==> k <= i && At(s, pat, i) && forall j :: k <= j < i ==> !At(s, pat, j)
    decreases |s| - k
  {
    if k + |pat| > |s| then -1 else if At(s, pat, k) then k else IndexFrom(s, pat, k + 1)
  }

  /** strings.Index: the first occurrence of pat in s, or -1. */
  function Index(s: string, pat: string): (i: int)
    ensures i < 0 ==> i == -1 && forall k :: !At(s, pat, k)
    ensures i >= 0 ==> i + |pat| <= |s| && At(s, pat, i) && forall k :: k < i ==> !At(s, pat, k)
  {
    IndexFrom(s, pat, 0)
  }

  /** Occurrences in the second half of a concatenation are those of that half, shifted. */
  lemma AtShift(u: string, v: string, pat: string, k: int)
    ensures 0 <= k ==> At(u + v, pat, |u| + k) == At(v, pat, k)
  {
    if 0 <= k && k + |pat| <= |v| {
      assert (u + v)[|u| + k..|u| + k + |pat|] == v[k..k + |pat|];
    }
  }

  /** Occurrences that end inside the first half do not depend on the second half. */
  lemma AtPrefix(u: string, v: string, pat: string, k: int)
    ensures k + |pat| <= |u| ==> At(u + v, pat, k) == At(u, pat, k)
  {
    if 0 <= k && k + |pat| <= |u| {
      assert (u + v)[k..k + |pat|] == u[k..k + |pat|];
    }
  }

  /** The characters of an occurrence. */
  lemma AtChar(s: string, pat: string, k: int, m: int)
    ensures At(s, pat, k) && 0 <= m < |pat| ==> s[k + m] == pat[m]
  {
    assert At(s, pat, k) && 0 <= m < |pat| ==> s[k..k + |pat|][m] == s[k + m];
  }

  /** Cutting a string at an occurrence. */
  lemma AtSplit(s: string, pat: string, i: int)
    requires At(s, pat, i)
    ensures 0 <= i && i + |pat| <= |s|
    ensures s == s[..i] + pat + s[i + |pat|..] && s[i..] == pat + s[i + |pat|..]
  {
  }

  /** Text in which no occurrence starts may be dropped from the front of a search. */
  lemma IndexSkip(u: string, v: string, pat: string)
    requires forall k :: 0 <= k < |u| ==> !At(u + v, pat, k)
    ensures Index(u + v, pat) == if Index(v, pat) < 0 then -1 else |u| + Index(v, pat)
  {
    var i, r := Index(u + v, pat), Index(v, pat);
    if i >= 0 { AtShift(u, v, pat, i - |u|); }
    if r >= 0 { AtShift(u, v, pat, r); }
  }

  /** An occurrence once found stays the first one, whatever text arrives after it. */
  lemma IndexGrow(u: string, v: string, pat: string)
    requires Index(u, pat) >= 0
    ensures Index(u + v, pat) == Index(u, pat)
  {
    var i, r := Index(u, pat), Index(u + v, pat);
    AtPrefix(u, v, pat, i);
    AtPrefix(u, v, pat, r);
  }

  /** The chunks of a stream, put together. */
  function Concat(chunks: seq<string>): string {
    if chunks == [] then "" else chunks[0] + Concat(chunks[1..])
  }

  lemma Associate(a: string, b: string, c: string)
    ensures (a + b) + c == a + (b + c)
  {
  }

  lemma Regroup(a: string, b: string, c: string, d: string)
    ensures a + b + c + d == a + (b + c + d) && a + b + c + d == (a + b) + (c + d)
  {
  }

  lemma ConcatPair(a: string, b: string)
    ensures Concat([a, b]) == a + b
  {
    assert [a, b][1..] == [b] && [b][1..] == [];
    assert Concat([b]) == b + "" == b;
  }

  predicate Digits(s: string) { forall i :: 0 <= i < |s| ==> '0' <= s[i] <= '9' }

  /** %d of a natural number. */
  function Decimal(n: nat): (s: string)
    ensures |s| > 0 && Digits(s)
    ensures |s| == 1 <==> n < 10
  {
    var d := ['0' + (n % 10) as char];
    if n < 10 then d else Decimal(n / 10) + d
  }

  lemma DecimalInjective(m: nat, n: nat)
    requires Decimal(m) == Decimal(n)
    ensures m == n
  {
    var s, t := Decimal(m), Decimal(n);
    assert s[|s| - 1] == '0' + (m % 10) as char;
    assert t[|t| - 1] == '0' + (n % 10) as char;
    if m >= 10 {
      assert s[..|s| - 1] == Decimal(m / 10);
      assert t[..|t| - 1] == Decimal(n / 10);
      DecimalInjective(m / 10, n / 10);
    }
  }
}
