/**
 * Decimal rendering of non-negative integers, as JavaScript's
 * `Number.prototype.toString()` prints an integer up to 2^53
 * (`Number.MAX_SAFE_INTEGER`, below which every integer is an exact double),
 * and the digit-string reading that inverts it.
 */
module Decimal {
  import opened Js
  import opened JsText

  predicate IsDigit(c: char) {
    '0' <= c <= '9'
  }

  predicate AllDigits(s: string) {
    forall i :: 0 <= i < |s| ==> IsDigit(s[i])
  }

  /** A digit string as `toString` prints it: non-empty, no leading zero except "0" itself. */
  predicate IsCanonical(s: string) {
    |s| >= 1 && AllDigits(s) && (s[0] == '0' ==> |s| == 1)
  }

  function DigitValue(c: char): (d: nat)
    requires IsDigit(c)
    ensures d < 10
  {
    (c as int) - ('0' as int)
  }

  function DigitChar(d: nat): (c: char)
    requires d < 10
    ensures IsDigit(c) && DigitValue(c) == d
  {
    (('0' as int) + d) as char
  }

  lemma DigitCharOfValue(c: char)
    requires IsDigit(c)
    ensures DigitChar(DigitValue(c)) == c
  {
  }

  /** The decimal numeral of `n`. */
  function NatToString(n: nat): (r: string)
    ensures |r| >= 1 && AllDigits(r)
    ensures r[0] == '0' <==> n == 0
    ensures n == 0 ==> r == "0"
    decreases n
  {
    if n < 10 then [DigitChar(n)] else NatToString(n / 10) + [DigitChar(n % 10)]
  }

  /** The number a digit string denotes (leading zeros allowed). */
  function Value(s: string): nat
    requires AllDigits(s)
    decreases |s|
  {
    if |s| == 0 then 0 else 10 * Value(s[..|s| - 1]) + DigitValue(s[|s| - 1])
  }

  /** Reads a non-empty digit string; anything else is not a number. */
  function ParseNat(s: string): Option<nat> {
    if |s| >= 1 && AllDigits(s) then Some(Value(s)) else None
  }

  lemma NatToStringIsCanonical(n: nat)
    ensures IsCanonical(NatToString(n))
  {
  }

  /** Reading back a rendered number gives the number. */
  lemma {:induction false} ValueOfNatToString(n: nat)
    ensures Value(NatToString(n)) == n
    decreases n
  {
    if n >= 10 {
      var a := NatToString(n / 10);
      var r := a + [DigitChar(n % 10)];
      assert r[..|r| - 1] == a;
      ValueOfNatToString(n / 10);
    }
  }

  lemma ParseNatOfNatToString(n: nat)
    ensures ParseNat(NatToString(n)) == Some(n)
  {
    ValueOfNatToString(n);
  }

  lemma {:induction false} ValueOfNonZeroLead(s: string)
    requires |s| >= 1 && AllDigits(s) && s[0] != '0'
    ensures Value(s) >= 1
    decreases |s|
  {
    if |s| > 1 {
      ValueOfNonZeroLead(s[..|s| - 1]);
    }
  }

  /** Rendering the value of a canonical digit string gives the string back. */
  lemma {:induction false} NatToStringOfValue(s: string)
    requires IsCanonical(s)
    ensures NatToString(Value(s)) == s
    decreases |s|
  {
    var last := s[|s| - 1];
    if |s| == 1 {
      DigitCharOfValue(last);
      assert s == [last];
    } else {
      var p := s[..|s| - 1];
      assert IsCanonical(p);
      ValueOfNonZeroLead(p);
      var v := Value(s);
      var d := DigitValue(last);
      assert v == 10 * Value(p) + d;
      assert v / 10 == Value(p) && v % 10 == d;
      NatToStringOfValue(p);
      DigitCharOfValue(last);
      assert s == p + [last];
    }
  }

  /** A string is the numeral of `n` exactly when it is canonical and denotes `n`. */
  lemma NatToStringIff(n: nat, s: string)
    ensures NatToString(n) == s <==> IsCanonical(s) && Value(s) == n
  {
    ValueOfNatToString(n);
    if IsCanonical(s) {
      NatToStringOfValue(s);
    }
  }

  lemma NatToStringInjective(a: nat, b: nat)
    ensures NatToString(a) == NatToString(b) ==> a == b
  {
    ValueOfNatToString(a);
    ValueOfNatToString(b);
  }

  /** Numbers below 100 print with at most two digits. */
  lemma NatToStringBelow100(n: nat)
    requires n < 100
    ensures |NatToString(n)| <= 2
  {
  }

  /** In a numeral followed by a non-digit, the first occurrence of that non-digit is right after the numeral. */
  lemma IndexOfAfterDigits(m: string, rest: string)
    requires AllDigits(m) && |rest| > 0 && !IsDigit(rest[0])
    ensures IndexOf(m + rest, rest[0]) == |m|
  {
    var s := m + rest;
    assert s[|m|] == rest[0];
    assert forall i :: 0 <= i < |m| ==> s[i] == m[i];
  }
}
