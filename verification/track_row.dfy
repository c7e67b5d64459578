/**
 * `formatDuration` of the TruSoundCloud track row: a duration in whole
 * seconds shown as `m:ss`, or an en dash when the duration is missing.
 */
module TrackRow {
  import opened Js
  import opened Decimal
  import opened JsText

  /** Shown for a missing duration (U+2013 EN DASH). */
  const Dash := "\U{2013}"

  /**
   * A present duration is never shown as the dash (0 included: the guard
   * is `!seconds && seconds !== 0`), a missing one always is.
   */
  function FormatDuration(seconds: Js<nat>): (r: string)
    ensures r == Dash <==> seconds.Nullish()
  {
    match seconds
    case Val(n) =>
      var mins := NatToString(n / 60);
      var secs := PadStart(NatToString(n % 60), 2, '0');
      var text := mins + ":" + secs;
      assert text[0] == mins[0];
      text
    case _ => Dash
  }

  /**
   * Reads an `m:ss` text back into seconds: minutes any digit string,
   * seconds exactly two digits below 60.
   */
  function ParseDuration(s: string): Option<nat> {
    var k := IndexOf(s, ':');
    if k == |s| then None
    else
      match (ParseNat(s[..k]), ParseNat(s[k + 1..]))
      case (Some(m), Some(sec)) =>
        if |s[k + 1..]| == 2 && sec < 60 then Some(60 * m + sec) else None
      case _ => None
  }

  /** The seconds field: exactly two digits denoting `n % 60`. */
  lemma {:induction false} SecondsField(n: nat)
    ensures var f := PadStart(NatToString(n % 60), 2, '0');
            |f| == 2 && AllDigits(f) && ParseNat(f) == Some(n % 60) && n % 60 < 60
  {
    var t := NatToString(n % 60);
    NatToStringBelow100(n % 60);
    ValueOfNatToString(n % 60);
    var f := PadStart(t, 2, '0');
    if |t| == 1 {
      assert f == ['0', t[0]];
      assert f[..1] == ['0'] && ['0'][..0] == [];
      assert Value(['0']) == 0;
      assert t[..0] == [];
      assert Value(t) == DigitValue(t[0]);
      assert Value(f) == DigitValue(t[0]);
    } else {
      assert f == t;
    }
  }

  /**
   * The rendered fields of a present duration: the minutes numeral denotes
   * `n div 60`, then a colon, then the two-digit seconds field denoting
   * `n mod 60`, so `60 * mins + secs == n`.
   */
  lemma DurationFields(n: nat)
    ensures var r := FormatDuration(Val(n));
            var k := |NatToString(n / 60)|;
            && k + 3 == |r|
            && r[k] == ':'
            && ParseNat(r[..k]) == Some(n / 60)
            && AllDigits(r[k + 1..])
            && ParseNat(r[k + 1..]) == Some(n % 60)
            && n % 60 < 60
            && 60 * (n / 60) + n % 60 == n
  {
    var mins := NatToString(n / 60);
    var secs := PadStart(NatToString(n % 60), 2, '0');
    var r := FormatDuration(Val(n));
    SecondsField(n);
    ParseNatOfNatToString(n / 60);
    assert r == mins + ":" + secs;
    assert r[..|mins|] == mins;
    assert r[|mins| + 1..] == secs;
  }

  /** Reading a rendered duration gives back the number of seconds. */
  lemma FormatDurationRoundTrip(n: nat)
    ensures ParseDuration(FormatDuration(Val(n))) == Some(n)
  {
    var mins := NatToString(n / 60);
    var secs := PadStart(NatToString(n % 60), 2, '0');
    DurationFields(n);
    IndexOfAfterDigits(mins, ":" + secs);
  }

  /** Zero is a duration, not a missing one; the dash does not read as a duration. */
  lemma ZeroAndMissing()
    ensures FormatDuration(Val(0)) == "0:00"
    ensures FormatDuration(Undefined) == Dash && FormatDuration(Null) == Dash
    ensures ParseDuration(Dash) == None
  {
    assert NatToString(0) == "0";
    assert PadStart("0", 2, '0') == "00";
  }
}
