/** The 12-hour wall-clock labels of the trip timeline (`toTimeLabel` in
    components/AIPlannerCard.tsx), with a reader for such labels so that what a
    label says can be stated exactly. */
module Clock {
  import opened Types
  import opened Text

  /** JavaScript's `Math.trunc(a / b)` for a positive divisor: the quotient rounded toward zero. */
  function JsQuot(a: int, b: int): int
    requires b > 0
  {
    if a >= 0 then a / b else -((-a) / b)
  }

  /** JavaScript's `a % b` for a positive divisor: the remainder truncates toward zero,
      so it takes the sign of `a`, and it is what is left of `a` after the truncated quotient. */
  function JsRem(a: int, b: int): (r: int)
    requires b > 0
    ensures a >= 0 ==> r == a % b
    ensures -b < r < b
    ensures a < 0 ==> r <= 0
    ensures a == JsQuot(a, b) * b + r
  {
    if a >= 0 then a % b else -((-a) % b)
  }

  /** `toTimeLabel(minutesFromMidnight)`: `${hour12}:${mm} ${AM|PM}` where the hour is
      `Math.floor(m / 60) % 24` on a 12-hour dial, 0 shown as 12, and `mm` is
      `m % 60` padded to two characters. Dafny's `/` by a positive divisor is `Math.floor`;
      `%` is JavaScript's truncating remainder, so a negative clock gives a negative hour
      and minute text exactly as the original prints them. */
  function ToTimeLabel(minutesFromMidnight: int): string
  {
    var hours := JsRem(minutesFromMidnight / 60, 24);
    var minutes := JsRem(minutesFromMidnight, 60);
    var suffix := if hours >= 12 then "PM" else "AM";
    var hour12 := if JsRem(hours, 12) == 0 then 12 else JsRem(hours, 12);
    IntToString(hour12) + ":" + PadStart2(IntToString(minutes)) + " " + suffix
  }

  /** What a label shows: the hour on the 12-hour dial, the minute and the half of the day. */
  datatype Reading = Reading(hour: nat, minute: nat, pm: bool)

  /** Reads a label of the shape `H:MM AM` / `HH:MM PM` back; `None` for anything else. */
  function ReadTimeLabel(s: string): Option<Reading>
  {
    if |s| < 7 then None
    else
      var n := |s|;
      var hourText, minuteText, suffix := s[..n - 6], s[n - 5..n - 3], s[n - 2..];
      if s[n - 6] == ':' && s[n - 3] == ' ' && AllDigits(hourText) && AllDigits(minuteText)
         && (suffix == "AM" || suffix == "PM")
      then Some(Reading(DigitsValue(hourText), DigitsValue(minuteText), suffix == "PM"))
      else None
  }

  /** The minute of the day a reading stands for. */
  function MinuteOfDay(r: Reading): int
  {
    (r.hour % 12) * 60 + r.minute + (if r.pm then 720 else 0)
  }

  /** A label assembled from an hour text, a two-digit minute text and a suffix reads back
      as those three parts. */
  lemma ReadAssembledLabel(h: string, mm: string, suffix: string)
    requires |h| >= 1 && AllDigits(h) && |mm| == 2 && AllDigits(mm)
    requires suffix == "AM" || suffix == "PM"
    ensures ReadTimeLabel(h + ":" + mm + " " + suffix)
            == Some(Reading(DigitsValue(h), DigitsValue(mm), suffix == "PM"))
  {
    LabelSlices(h, mm, suffix);
  }

  /** Where the parts of an assembled label sit, counted from its end. */
  lemma LabelSlices(h: string, mm: string, suffix: string)
    requires |mm| == 2 && |suffix| == 2
    ensures var s := h + ":" + mm + " " + suffix;
      && |s| == |h| + 6
      && s[..|s| - 6] == h && s[|s| - 5..|s| - 3] == mm && s[|s| - 2..] == suffix
      && s[|s| - 6] == ':' && s[|s| - 3] == ' '
  {
    var s := h + ":" + mm + " " + suffix;
    var n := |s|;
    assert s[..n - 6] == h;
    assert s[n - 5..n - 3] == mm;
    assert s[n - 2..] == suffix;
  }

  /** The two-digit minute text reads back as the minute. */
  lemma PaddedMinuteValue(minutes: nat)
    requires minutes < 60
    ensures |PadStart2(NatToString(minutes))| == 2
    ensures AllDigits(PadStart2(NatToString(minutes)))
    ensures DigitsValue(PadStart2(NatToString(minutes))) == minutes
  {
    var mm := PadStart2(NatToString(minutes));
    DigitsValueOfNatToString(minutes);
    if minutes < 10 {
      assert mm == ['0'] + NatToString(minutes);
      assert mm[..1] == ['0'];
      assert DigitsValue(mm[..1]) == 0;
    }
  }

  /** For a non-negative clock, the label shows an hour 1..12, a two-digit minute 00..59 and
      PM exactly in the second half of the day, and together they name the clock's minute of
      the day (taken modulo 1440). */
  lemma TimeLabelReadsBack(m: int)
    requires m >= 0
    ensures ReadTimeLabel(ToTimeLabel(m)).Some?
    ensures var r := ReadTimeLabel(ToTimeLabel(m)).value;
      && 1 <= r.hour <= 12 && r.minute <= 59
      && (r.pm <==> (m / 60) % 24 >= 12)
      && MinuteOfDay(r) == m % 1440
  {
    var hours := (m / 60) % 24;
    var minutes := m % 60;
    var hour12 := if hours % 12 == 0 then 12 else hours % 12;
    var suffix := if hours >= 12 then "PM" else "AM";
    var h, mm := NatToString(hour12), PadStart2(NatToString(minutes));
    LabelParts(m);
    PaddedMinuteValue(minutes);
    DigitsValueOfNatToString(hour12);
    ReadAssembledLabel(h, mm, suffix);
    var r := Reading(hour12, minutes, hours >= 12);
    assert ReadTimeLabel(ToTimeLabel(m)) == Some(r);
    DayArithmetic(m);
  }

  /** For a non-negative clock the remainders are Dafny's own and the numbers print as naturals. */
  lemma LabelParts(m: int)
    requires m >= 0
    ensures var hours := (m / 60) % 24;
      ToTimeLabel(m)
      == NatToString(if hours % 12 == 0 then 12 else hours % 12) + ":" + PadStart2(NatToString(m % 60))
         + " " + (if hours >= 12 then "PM" else "AM")
  {
  }

  lemma DayArithmetic(m: int)
    requires m >= 0
    ensures var hours := (m / 60) % 24;
      (if hours % 12 == 0 then 12 else hours % 12) % 12 * 60 + m % 60
      + (if hours >= 12 then 720 else 0) == m % 1440
  {
    var hours := (m / 60) % 24;
    assert m % 1440 == hours * 60 + m % 60;
  }

  /** A non-negative clock's label depends only on the minute of the day. */
  lemma TimeLabelPeriodic(m: int)
    requires m >= 0
    ensures ToTimeLabel(m) == ToTimeLabel(m % 1440)
  {
    var d := m % 1440;
    DayParts(m);
    ShiftedRemainder(m / 1440, d / 60);
    assert JsRem(m / 60, 24) == JsRem(d / 60, 24);
    assert JsRem(m, 60) == JsRem(d, 60);
  }

  /** Splitting a clock into whole days and the minute of the day. */
  lemma DayParts(m: int)
    requires m >= 0
    ensures m / 60 == (m / 1440) * 24 + (m % 1440) / 60
    ensures m % 60 == (m % 1440) % 60
  {
    var q, d := m / 1440, m % 1440;
    assert m == q * 1440 + d;
    assert q * 1440 + d == (q * 24 + d / 60) * 60 + d % 60;
  }

  /** Whole days do not move the hour of the day. */
  lemma ShiftedRemainder(q: int, x: int)
    requires q >= 0 && x >= 0
    ensures (q * 24 + x) % 24 == x % 24
  {
  }

  /** The usual day start: 8:00 in the morning. */
  lemma EightAm()
    ensures ToTimeLabel(480) == "8:00 AM"
  {
    assert JsRem(480 / 60, 24) == 8 && JsRem(480, 60) == 0 && JsRem(8, 12) == 8;
    assert NatToString(8) == "8" && NatToString(0) == "0";
    assert PadStart2("0") == "00";
  }

  /** The early day start for long trips: 6:30 in the morning. */
  lemma SixThirtyAm()
    ensures ToTimeLabel(390) == "6:30 AM"
  {
    assert JsRem(390 / 60, 24) == 6 && JsRem(390, 60) == 30 && JsRem(6, 12) == 6;
    assert NatToString(6) == "6" && NatToString(30) == NatToString(3) + [DigitChar(0)];
    assert NatToString(30) == "30";
    assert PadStart2("30") == "30";
  }
}
