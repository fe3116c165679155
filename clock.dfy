/** The wall clock of the kiosk (src/components/Clock.tsx): hours, minutes
    and seconds, each padded to two digits and joined with ':'. */
module Clock {
  import opened Text
  import Dates

  /** `padTime`: the decimal text of `part`, left-padded with '0' to two
      characters. Its value is still `part`. */
  function PadTime(part: nat): (r: string)
    ensures AllDigits(r) && DecimalValue(r) == part
    ensures |r| == if part < 100 then 2 else |Decimal(part)|
  {
    DecimalShape(part);
    DecimalRoundTrip(part);
    var d := Decimal(part);
    if |d| >= 2 then d
    else
      LeadingZeroValue(d);
      assert PadStart(d, 2, '0') == "0" + d;
      PadStart(d, 2, '0')
  }

  /** A single digit is preceded by '0'. */
  lemma PadTimeOneDigit(part: nat)
    requires part <= 9
    ensures PadTime(part) == ['0', DigitChar(part)]
  {
    DecimalShape(part);
    var d := Decimal(part);
    assert PadStart(d, 2, '0') == "0" + d;
  }

  /** Two digits are left as they are. */
  lemma PadTimeTwoDigits(part: nat)
    requires 10 <= part <= 99
    ensures PadTime(part) == Decimal(part) && |PadTime(part)| == 2
  {
    DecimalShape(part);
  }

  /** `formatTime`: the three padded parts joined with ':'. */
  function FormatTime(hours: nat, minutes: nat, seconds: nat): (r: string)
    ensures Count(r, ':') == 2
    ensures Split(r, ':') == [PadTime(hours), PadTime(minutes), PadTime(seconds)]
  {
    var h, m, s := PadTime(hours), PadTime(minutes), PadTime(seconds);
    assert ':' !in h && ':' !in m && ':' !in s;
    SplitThree(h, m, s, ':');
    CountThree(h, m, s, ':');
    h + [':'] + m + [':'] + s
  }

  /** A clock reading from the `Date` getters formats to eight characters,
      and the parts read back as the hours, minutes and seconds. */
  lemma FormatTimeReadsBack(t: Dates.LocalTime)
    requires Dates.IsClockTime(t)
    ensures |FormatTime(t.hours, t.minutes, t.seconds)| == 8
    ensures var parts := Split(FormatTime(t.hours, t.minutes, t.seconds), ':');
      |parts| == 3 && AllDigits(parts[0]) && AllDigits(parts[1]) && AllDigits(parts[2]) &&
      DecimalValue(parts[0]) == t.hours &&
      DecimalValue(parts[1]) == t.minutes &&
      DecimalValue(parts[2]) == t.seconds
  {
  }
}
