/** How the run screens print a duration ("HH:MM:SS") and an average pace
    ("M:SS / km"). */
module RunDataFormatters {
  import opened Domain
  import opened KotlinFormat

  /** `Duration.inWholeSeconds`: whole seconds, truncated toward zero. */
  function InWholeSeconds(d: Duration): (s: int)
    ensures 0 <= d ==> 0 <= s && s * 1_000_000_000 <= d < (s + 1) * 1_000_000_000
  {
    Quot(d, 1_000_000_000)
  }

  datatype ClockFields = ClockFields(hours: int, minutes: int, seconds: int)

  /** The number of seconds a set of clock fields stands for. */
  function ClockValue(f: ClockFields): int {
    f.hours * 3600 + f.minutes * 60 + f.seconds
  }

  /** The hours, minutes and seconds `formatted()` prints: `totalSeconds / 3600`,
      `(totalSeconds % 3600) / 60` and `totalSeconds % 60` in Long arithmetic.
      Nothing is lost by the split, and for a non-negative count the minutes and
      seconds are clock digits 0..59. */
  function SplitSeconds(totalSeconds: int): (f: ClockFields)
    ensures ClockValue(f) == totalSeconds
    ensures 0 <= totalSeconds ==> 0 <= f.hours && 0 <= f.minutes < 60 && 0 <= f.seconds < 60
    ensures totalSeconds < 0 ==> f.hours <= 0 && -60 < f.minutes <= 0 && -60 < f.seconds <= 0
  {
    var h := Quot(totalSeconds, 3600);
    var rest := Rem(totalSeconds, 3600);
    var m := Quot(rest, 60);
    var s := Rem(totalSeconds, 60);
    RemOfRem(totalSeconds);
    ClockFields(h, m, s)
  }

  /** Taking the remainder by 3600 first does not change the remainder by 60,
      since 60 divides 3600; this holds for truncating remainders of either sign. */
  lemma RemOfRem(a: int)
    ensures Rem(Rem(a, 3600), 60) == Rem(a, 60)
  {
    if a >= 0 {
      NatRemOfRem(a);
    } else {
      NatRemOfRem(-a);
    }
  }

  /** The same fact for non-negative numbers and Dafny's own `%`. */
  lemma NatRemOfRem(b: nat)
    ensures (b % 3600) % 60 == b % 60
  {
    var q, r := b / 3600, b % 3600;
    var p, t := r / 60, r % 60;
    assert b == 3600 * q + r;
    assert r == 60 * p + t;
    RemByUnique(b, 60 * q + p, t);
  }

  /** A remainder by 60 is determined by any decomposition `60 * k + t` with
      `t` in 0..59. */
  lemma RemByUnique(b: int, k: int, t: int)
    requires 0 <= t < 60 && b == 60 * k + t
    ensures b % 60 == t
  {
    var k', t' := b / 60, b % 60;
    assert b == 60 * k' + t';
    assert 60 * (k - k') == t' - t;
    assert k == k';
  }

  /** A clock text: a digit run, ':', two digits, ':', two digits. */
  predicate IsClockText(t: string) {
    && |t| >= 8
    && t[|t| - 3] == ':' && t[|t| - 6] == ':'
    && AllDigits(t[..|t| - 6]) && AllDigits(t[|t| - 5..|t| - 3]) && AllDigits(t[|t| - 2..])
  }

  /** Reads a clock text back into its fields. */
  function ParseClock(t: string): Option<ClockFields> {
    if IsClockText(t) then
      Some(ClockFields(ParseDigits(t[..|t| - 6]), ParseDigits(t[|t| - 5..|t| - 3]), ParseDigits(t[|t| - 2..])))
    else None
  }

  /** `Duration.formatted()`: the three fields zero-padded to two digits at least
      and joined by ':'. A non-negative duration prints as a clock text, eight
      characters long below 100 hours. */
  function Formatted(d: Duration): (r: string)
    ensures 0 <= d ==> IsClockText(r)
    ensures 0 <= d && InWholeSeconds(d) < 360000 ==> |r| == 8
    ensures 0 <= d && |r| > 8 ==> r[0] != '0'
  {
    var f := SplitSeconds(InWholeSeconds(d));
    var hours := Pad2(f.hours);
    var minutes := Pad2(f.minutes);
    var seconds := Pad2(f.seconds);
    var r := hours + ":" + minutes + ":" + seconds;
    if 0 <= d then
      ClockTextParts(hours, minutes, seconds);
      r
    else r
  }

  /** The three parts of a clock text can be cut back out of it. */
  lemma ClockTextParts(h: string, m: string, s: string)
    requires |h| >= 2 && |m| == 2 && |s| == 2
    ensures var t := h + ":" + m + ":" + s;
      && |t| == |h| + 6
      && t[|t| - 3] == ':' && t[|t| - 6] == ':'
      && t[..|t| - 6] == h && t[|t| - 5..|t| - 3] == m && t[|t| - 2..] == s
  {
  }

  /** Round trip: reading the printed clock back gives the split fields, hence the
      duration's whole seconds. */
  lemma {:induction false} FormattedRoundTrip(d: Duration)
    requires 0 <= d
    ensures ParseClock(Formatted(d)) == Some(SplitSeconds(InWholeSeconds(d)))
    ensures ClockValue(ParseClock(Formatted(d)).value) == InWholeSeconds(d)
  {
    var f := SplitSeconds(InWholeSeconds(d));
    ClockTextParts(Pad2(f.hours), Pad2(f.minutes), Pad2(f.seconds));
  }

  /** Text of an average pace: minutes, ':', two digits, then " / km". */
  predicate IsPaceText(t: string) {
    && |t| >= 9
    && t[|t| - 5..] == " / km"
    && t[|t| - 8] == ':'
    && AllDigits(t[..|t| - 8]) && AllDigits(t[|t| - 7..|t| - 5])
  }

  /** The two numbers a pace text shows: minutes, and the two-digit field after ':'. */
  datatype PaceFields = PaceFields(minutes: int, seconds: int)

  /** Reads a pace text back into its two fields. */
  function ParsePace(t: string): Option<PaceFields> {
    if IsPaceText(t) then
      Some(PaceFields(ParseDigits(t[..|t| - 8]), ParseDigits(t[|t| - 7..|t| - 5])))
    else None
  }

  /** The pace text's parts can be cut back out of it. */
  lemma PaceTextParts(m: string, s: string)
    requires |m| >= 1 && |s| == 2
    ensures var t := m + ":" + s + " / km";
      && |t| == |m| + 8
      && t[|t| - 5..] == " / km" && t[|t| - 8] == ':'
      && t[..|t| - 8] == m && t[|t| - 7..|t| - 5] == s
  {
  }

  /** `toFormattedPace`'s guard: no pace for an empty duration or a non-positive
      distance. */
  predicate NoPace(duration: Duration, distanceKm: real) {
    duration == 0 || distanceKm <= 0.0
  }

  /** `Duration.toFormattedPace(distanceKm)` AS WRITTEN. `secondsPerKm` is the
      rounded value of `inWholeSeconds / distanceKm`, computed in floating point.
      The minutes are `secondsPerKm / 60`; the field after ':' is those minutes
      modulo 60 rather than the seconds. */
  function ToFormattedPaceAsWritten(duration: Duration, distanceKm: real, secondsPerKm: int): (r: string)
    ensures r == "-" <==> NoPace(duration, distanceKm)
    ensures !NoPace(duration, distanceKm) && 0 <= secondsPerKm ==>
      ParsePace(r) == Some(PaceFields(Quot(secondsPerKm, 60), Rem(Quot(secondsPerKm, 60), 60)))
    // The minutes are printed unpadded: a longer minutes field has no leading zero.
    ensures !NoPace(duration, distanceKm) && 0 <= secondsPerKm && |r| > 9 ==> r[0] != '0'
  {
    if NoPace(duration, distanceKm) then "-"
    else
      var avgPaceMinutes := Quot(secondsPerKm, 60);
      var avgPaceSeconds := Pad2(Rem(avgPaceMinutes, 60));
      var m := DecimalString(avgPaceMinutes);
      var t := m + ":" + avgPaceSeconds + " / km";
      if 0 <= secondsPerKm then
        PaceTextParts(m, avgPaceSeconds);
        t
      else t
  }

  /** A 5:30 / km pace (330 s of running over 1 km, hence 330 seconds per
      kilometre) prints as "5:05 / km": five minutes and a field of 05. */
  lemma AsWrittenMisprintsPace()
    ensures ToFormattedPaceAsWritten(330_000_000_000, 1.0, 330) == "5:05 / km"
    ensures ParsePace(ToFormattedPaceAsWritten(330_000_000_000, 1.0, 330)) == Some(PaceFields(5, 5))
  {
    // The evaluation, field by field.
    assert Quot(330, 60) == 5;
    assert Rem(5, 60) == 5;
    assert Pad2(5) == "05";
    assert DecimalString(5) == "5";
  }

  /** Whenever the whole minutes of the pace differ from its leftover seconds
      modulo 60, the as-written text shows the wrong seconds field. */
  lemma AsWrittenSecondsField(duration: Duration, distanceKm: real, secondsPerKm: nat)
    requires !NoPace(duration, distanceKm)
    requires Rem(Quot(secondsPerKm, 60), 60) != Rem(secondsPerKm, 60)
    ensures ParsePace(ToFormattedPaceAsWritten(duration, distanceKm, secondsPerKm)).value.seconds != secondsPerKm % 60
  {
  }

  /** The pace text with the evidently intended seconds field `secondsPerKm % 60`:
      the minutes and a seconds field in 0..59 that together give back exactly
      `secondsPerKm`. */
  function ToFormattedPace(duration: Duration, distanceKm: real, secondsPerKm: int): (r: string)
    ensures r == "-" <==> NoPace(duration, distanceKm)
    ensures !NoPace(duration, distanceKm) && 0 <= secondsPerKm ==>
      && ParsePace(r) == Some(PaceFields(Quot(secondsPerKm, 60), Rem(secondsPerKm, 60)))
      && 0 <= ParsePace(r).value.seconds < 60
      && ParsePace(r).value.minutes * 60 + ParsePace(r).value.seconds == secondsPerKm
    ensures !NoPace(duration, distanceKm) && 0 <= secondsPerKm && |r| > 9 ==> r[0] != '0'
  {
    if NoPace(duration, distanceKm) then "-"
    else
      var avgPaceMinutes := Quot(secondsPerKm, 60);
      var avgPaceSeconds := Pad2(Rem(secondsPerKm, 60));
      var m := DecimalString(avgPaceMinutes);
      var t := m + ":" + avgPaceSeconds + " / km";
      if 0 <= secondsPerKm then
        PaceTextParts(m, avgPaceSeconds);
        t
      else t
  }

  /** The corrected pace prints 5:30 / km as "5:30 / km". */
  lemma CorrectedPrintsPace()
    ensures ToFormattedPace(330_000_000_000, 1.0, 330) == "5:30 / km"
  {
    // The evaluation, field by field.
    assert Quot(330, 60) == 5;
    assert Rem(330, 60) == 30;
    assert Digits(30) == "30";
    assert Pad2(30) == "30";
    assert DecimalString(5) == "5";
  }
}
