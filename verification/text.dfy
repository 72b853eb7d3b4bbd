/**
 * Character and string helpers the JavaScript source relies on:
 * `toLowerCase`, `toUpperCase`, `includes`, `startsWith`, the `\w` class of
 * regular expressions and decimal rendering of integers.
 * Case mapping is ASCII only.
 */
module Text {

  predicate IsUpperLetter(c: char) { 'A' <= c <= 'Z' }

  predicate IsLowerLetter(c: char) { 'a' <= c <= 'z' }

  predicate IsDigit(c: char) { '0' <= c <= '9' }

  /** The `\w` character class of JavaScript regular expressions. */
  predicate IsWordChar(c: char) { IsUpperLetter(c) || IsLowerLetter(c) || IsDigit(c) || c == '_' }

  function LowerChar(c: char): (r: char)
    ensures !IsUpperLetter(r)
  {
    if IsUpperLetter(c) then (c as int + 32) as char else c
  }

  function UpperChar(c: char): (r: char)
    ensures !IsLowerLetter(r)
  {
    if IsLowerLetter(c) then (c as int - 32) as char else c
  }

  /** `s.toLowerCase()` */
  function Lower(s: string): (r: string)
    ensures |r| == |s|
    ensures forall i :: 0 <= i < |s| ==> r[i] == LowerChar(s[i])
  {
    seq(|s|, i requires 0 <= i < |s| => LowerChar(s[i]))
  }

  /** `s.toUpperCase()` */
  function Upper(s: string): (r: string)
    ensures |r| == |s|
    ensures forall i :: 0 <= i < |s| ==> r[i] == UpperChar(s[i])
  {
    seq(|s|, i requires 0 <= i < |s| => UpperChar(s[i]))
  }

  lemma LowerAppend(a: string, b: string)
    ensures Lower(a + b) == Lower(a) + Lower(b)
  {
    assert forall i :: 0 <= i < |a + b| ==> Lower(a + b)[i] == (Lower(a) + Lower(b))[i];
  }

  /** `s.startsWith(p)` */
  predicate StartsWith(s: string, p: string) {
    |p| <= |s| && s[..|p|] == p
  }

  /** `s.includes(w)`: `w` occurs in `s` as a contiguous substring. */
  predicate Contains(s: string, w: string)
    ensures Contains(s, w) ==> |w| <= |s|
    decreases |s|
  {
    StartsWith(s, w) || (|s| > 0 && Contains(s[1..], w))
  }

  /** An occurrence at any index makes `Contains` true. */
  lemma {:induction false} ContainsAt(s: string, w: string, i: nat)
    requires i <= |s| && StartsWith(s[i..], w)
    ensures Contains(s, w)
  {
    if i > 0 {
      assert s[1..][i - 1..] == s[i..];
      ContainsAt(s[1..], w, i - 1);
    }
  }

  /** `Contains` holds only where there is an occurrence: the converse of `ContainsAt`. */
  lemma {:induction false} ContainsOccurrence(s: string, w: string)
    requires Contains(s, w)
    ensures exists i :: 0 <= i <= |s| && StartsWith(s[i..], w)
    decreases |s|
  {
    if StartsWith(s, w) {
      assert s[0..] == s;
    } else {
      ContainsOccurrence(s[1..], w);
      var i :| 0 <= i <= |s[1..]| && StartsWith(s[1..][i..], w);
      assert s[1..][i..] == s[i + 1..];
    }
  }

  /** Text appended after an occurrence does not remove it. */
  lemma {:induction false} ContainsAppend(s: string, t: string, w: string)
    requires Contains(s, w)
    ensures Contains(s + t, w)
  {
    if StartsWith(s, w) {
      assert (s + t)[..|w|] == s[..|w|];
    } else {
      ContainsAppend(s[1..], t, w);
      assert (s + t)[1..] == s[1..] + t;
    }
  }

  /** Text prepended before an occurrence does not remove it. */
  lemma {:induction false} ContainsPrepend(s: string, t: string, w: string)
    requires Contains(t, w)
    ensures Contains(s + t, w)
  {
    if s != [] {
      ContainsPrepend(s[1..], t, w);
      assert (s + t)[1..] == s[1..] + t;
    } else {
      assert s + t == t;
    }
  }

  function DigitChar(d: nat): char
    requires d < 10
  {
    "0123456789"[d]
  }

  /** A non-empty run of decimal digits. */
  predicate Digits(s: string) {
    |s| >= 1 && forall i :: 0 <= i < |s| ==> IsDigit(s[i])
  }

  /** Decimal rendering of a non-negative integer, as a template literal prints it. */
  function NatToString(n: nat): (r: string)
    ensures Digits(r)
  {
    if n < 10 then [DigitChar(n)]
    else
      var r := NatToString(n / 10) + [DigitChar(n % 10)];
      assert forall i :: 0 <= i < |r| - 1 ==> r[i] == NatToString(n / 10)[i];
      r
  }

  function DigitValue(c: char): (d: nat)
    requires IsDigit(c)
    ensures d < 10 && DigitChar(d) == c
  {
    (c as int - '0' as int) as nat
  }

  /** Reads back a non-empty string of decimal digits. */
  function ParseNat(s: string): nat
    requires Digits(s)
  {
    if |s| == 1 then DigitValue(s[0])
    else
      assert forall i :: 0 <= i < |s| - 1 ==> s[..|s| - 1][i] == s[i];
      ParseNat(s[..|s| - 1]) * 10 + DigitValue(s[|s| - 1])
  }

  /** Reading back a rendered number gives the number. */
  lemma {:induction false} NatToStringRoundTrip(n: nat)
    ensures ParseNat(NatToString(n)) == n
  {
    if n >= 10 {
      var s := NatToString(n);
      assert s[..|s| - 1] == NatToString(n / 10);
      NatToStringRoundTrip(n / 10);
    }
  }

  lemma NatToStringInjective(n: nat, n': nat)
    requires NatToString(n) == NatToString(n')
    ensures n == n'
  {
    NatToStringRoundTrip(n);
    NatToStringRoundTrip(n');
  }
}
