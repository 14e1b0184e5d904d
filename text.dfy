/**
 * The two string operations the name rule relies on: "is blank" and
 * "trim". Both use one whitespace predicate, the set of code points that
 * Java's String.trim strips (U+0000 to U+0020).
 */
module Text {

  /** A character that trimming removes and that counts as blank. */
  predicate IsWhitespace(c: char) {
    c <= ' '
  }

  /** String.isBlank: true when every character of `s` is whitespace (the empty string too). */
  predicate IsBlank(s: string) {
    forall i :: 0 <= i < |s| ==> IsWhitespace(s[i])
  }

  /** `s` without its leading whitespace: a suffix of `s` whose removed prefix is all whitespace. */
  function TrimStart(s: string): (r: string)
    ensures |r| <= |s| && r == s[|s| - |r|..]
    ensures forall i :: 0 <= i < |s| - |r| ==> IsWhitespace(s[i])
    ensures r != [] ==> !IsWhitespace(r[0])
  {
    if s != [] && IsWhitespace(s[0]) then TrimStart(s[1..]) else s
  }

  /** `s` without its trailing whitespace: a prefix of `s` whose removed suffix is all whitespace. */
  function TrimEnd(s: string): (r: string)
    ensures |r| <= |s| && r == s[..|r|]
    ensures forall i :: |r| <= i < |s| ==> IsWhitespace(s[i])
    ensures r != [] ==> !IsWhitespace(r[|r| - 1])
  {
    if s != [] && IsWhitespace(s[|s| - 1]) then TrimEnd(s[..|s| - 1]) else s
  }

  /** Java's String.trim: leading and trailing whitespace removed. */
  function Trim(s: string): (r: string)
    ensures |r| <= |s|
    ensures r != [] ==> !IsWhitespace(r[0]) && !IsWhitespace(r[|r| - 1])
    ensures r == [] <==> IsBlank(s)
  {
    TrimEnd(TrimStart(s))
  }

  /**
   * The characters left after trimming are a slice of `s` that starts
   * after the leading whitespace.
   */
  lemma TrimIsSlice(s: string)
    ensures |s| - |TrimStart(s)| + |Trim(s)| <= |s|
    ensures forall k :: 0 <= k < |Trim(s)| ==> Trim(s)[k] == s[|s| - |TrimStart(s)| + k]
  {
    var t := TrimStart(s);
    assert Trim(s) == TrimEnd(t);
    PrefixOfSuffix(s, t, TrimEnd(t));
  }

  /** A prefix `u` of a suffix `t` of `s` lines up with `s` after the removed front. */
  lemma PrefixOfSuffix(s: string, t: string, u: string)
    requires |t| <= |s| && t == s[|s| - |t|..]
    requires |u| <= |t| && u == t[..|u|]
    ensures forall k :: 0 <= k < |u| ==> u[k] == s[|s| - |t| + k]
  {
    forall k | 0 <= k < |u|
      ensures u[k] == s[|s| - |t| + k]
    {
      assert u[k] == t[k];
    }
  }

  /** A string is blank exactly when trimming its front leaves nothing. */
  lemma BlankIffNothingLeft(s: string)
    ensures IsBlank(s) <==> TrimStart(s) == []
  {
  }

  /** A string that neither starts nor ends with whitespace is its own trim, and is not blank. */
  lemma TrimKeepsSolidEnds(s: string)
    requires s != [] && !IsWhitespace(s[0]) && !IsWhitespace(s[|s| - 1])
    ensures Trim(s) == s && !IsBlank(s)
  {
    assert TrimStart(s) == s;
  }

  /** The number of UTF-16 code units Java uses for `c`: two for a character above U+FFFF. */
  function Utf16Units(c: char): (n: nat)
    ensures n == 1 || n == 2
    ensures n == 2 <==> c > '\U{FFFF}'
  {
    if c <= '\U{FFFF}' then 1 else 2
  }

  /** String.length(): the number of UTF-16 code units, between one and two per character. */
  function Utf16Length(s: string): (n: nat)
    ensures |s| <= n <= 2 * |s|
  {
    if s == [] then 0 else Utf16Units(s[0]) + Utf16Length(s[1..])
  }

  /** For a string of characters up to U+FFFF, Java's length is the number of characters. */
  lemma {:induction false} Utf16LengthOfBmp(s: string)
    requires forall i :: 0 <= i < |s| ==> s[i] <= '\U{FFFF}'
    ensures Utf16Length(s) == |s|
  {
    if s != [] {
      Utf16LengthOfBmp(s[1..]);
    }
  }

  /** A two-character string takes the units of its two characters. */
  lemma Utf16LengthOfPair(c: char, d: char)
    ensures Utf16Length([c, d]) == Utf16Units(c) + Utf16Units(d)
  {
    assert [c, d][1..] == [d];
    assert [d][1..] == [];
  }

  /** The decimal digit `d` as a character. */
  function DigitChar(d: nat): (c: char)
    requires d < 10
    ensures '0' <= c <= '9' && c as int - '0' as int == d
  {
    ('0' as int + d) as char
  }

  /** The number a non-empty run of decimal digits denotes, most significant digit first. */
  function DigitsValue(s: string): nat
    requires forall i :: 0 <= i < |s| ==> '0' <= s[i] <= '9'
  {
    if s == [] then 0 else 10 * DigitsValue(s[..|s| - 1]) + (s[|s| - 1] as int - '0' as int)
  }

  /** Decimal notation of `n`, as Java writes an int into a string: digits that denote `n`. */
  function Decimal(n: nat): (r: string)
    ensures r != [] && forall i :: 0 <= i < |r| ==> '0' <= r[i] <= '9'
    ensures DigitsValue(r) == n
  {
    if n < 10 then [DigitChar(n)]
    else
      var front := Decimal(n / 10);
      var r := front + [DigitChar(n % 10)];
      assert r[..|r| - 1] == front;
      r
  }
}
