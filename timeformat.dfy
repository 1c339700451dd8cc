/** `formatTime(seconds)`: a count of seconds rendered as `HH:MM:SS`. */
module TimeFormat {
  import opened Options
  import opened Text

  datatype Clock = Clock(hours: nat, minutes: nat, seconds: nat)

  /**
   * `Math.floor(seconds / 3600)`, `Math.floor((seconds % 3600) / 60)` and `seconds % 60`:
   * a decomposition of the count into hours, minutes below 60 and seconds below 60.
   */
  function ClockFields(seconds: nat): (c: Clock)
    ensures c.hours * 3600 + c.minutes * 60 + c.seconds == seconds
    ensures c.minutes < 60 && c.seconds < 60
  {
    var h, r := seconds / 3600, seconds % 3600;
    assert seconds == h * 3600 + r;
    var m, s := r / 60, r % 60;
    assert r == m * 60 + s;
    assert seconds == (h * 60 + m) * 60 + s;
    assert seconds % 60 == s;
    Clock(h, m, seconds % 60)
  }

  /** `padStart(2, '0')`. */
  function PadTwo(s: string): string {
    if |s| == 0 then "00" else if |s| == 1 then "0" + s else s
  }

  /** `formatTime`. */
  function FormatTime(seconds: nat): string {
    var c := ClockFields(seconds);
    PadTwo(Digits(c.hours)) + ":" + PadTwo(Digits(c.minutes)) + ":" + PadTwo(Digits(c.seconds))
  }

  /**
   * Reads a `H:MM:SS` rendering back: three ':'-separated fields of decimal digits, the first of at
   * least two digits, the others of exactly two digits with values below 60.
   */
  function ParseClock(t: string): Option<nat> {
    var f := Split(t, ':');
    if |f| == 3 && |f[0]| >= 2 && |f[1]| == 2 && |f[2]| == 2
       && AllDigits(f[0]) && AllDigits(f[1]) && AllDigits(f[2])
       && Value(f[1]) < 60 && Value(f[2]) < 60
    then Some(Value(f[0]) * 3600 + Value(f[1]) * 60 + Value(f[2]))
    else None
  }

  /** A padded rendering is digits only, never shorter than two, exactly two below 100, and denotes `n`. */
  lemma PaddedDigits(n: nat)
    ensures AllDigits(PadTwo(Digits(n))) && |PadTwo(Digits(n))| >= 2
    ensures n < 100 ==> |PadTwo(Digits(n))| == 2
    ensures Value(PadTwo(Digits(n))) == n
    ensures ':' !in PadTwo(Digits(n))
  {
    var d := Digits(n);
    ValueOfDigits(n);
    if |d| == 1 {
      ValueLeadingZero(d);
    }
    if n >= 10 && n < 100 {
      assert Digits(n / 10) == [DigitChar(n / 10)];
    }
  }

  /**
   * The rendering is faithful: reading `formatTime(s)` back gives `s`. So minutes and seconds are
   * always two digits, hours at least two, and distinct counts render differently.
   */
  lemma FormatTimeRoundTrip(seconds: nat)
    ensures ParseClock(FormatTime(seconds)) == Some(seconds)
  {
    var c := ClockFields(seconds);
    var h, m, s := PadTwo(Digits(c.hours)), PadTwo(Digits(c.minutes)), PadTwo(Digits(c.seconds));
    PaddedDigits(c.hours);
    PaddedDigits(c.minutes);
    PaddedDigits(c.seconds);
    SplitThreeFields(h, m, s);
  }

  lemma SplitThreeFields(h: string, m: string, s: string)
    requires ':' !in h && ':' !in m && ':' !in s
    ensures Split(h + ":" + m + ":" + s, ':') == [h, m, s]
  {
    assert h + ":" + m + ":" + s == h + [':'] + (m + [':'] + s);
    SplitAppend(h, m + [':'] + s, ':');
    SplitAppend(m, s, ':');
    SplitNoSep(h, ':');
    SplitNoSep(m, ':');
    SplitNoSep(s, ':');
  }
}
