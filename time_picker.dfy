/**
 * The reusable time picker: a 24-hour "HH:mm" value is shown as three
 * selects (hour 01..12, minute, AM/PM) and written back in 24-hour form.
 */
module TimePicker {
  import opened Common

  datatype Period = AM | PM

  function PeriodText(p: Period): string
  {
    match p
    case AM => "AM"
    case PM => "PM"
  }

  /**
   * The three select values.  `minute` is absent when the value has no `:`
   * (destructuring a one-element array gives `undefined`).
   */
  datatype Clock12 = Clock12(hour12: string, minute: Option<string>, period: Period)

  /** A possibly-undefined string interpolated into a template literal. */
  function TemplateText(x: Option<string>): string
  {
    match x
    case None => "undefined"
    case Some(s) => s
  }

  /** The 24-hour value the picker is given for hour `h` and minute text `m`. */
  function Time24(h: nat, m: string): string
  {
    Pad2(h) + ":" + m
  }

  /** The hour select's face for a parsed 24-hour hour: `hour24 % 12`, with 0 read as 12; NaN stays NaN. */
  function FaceOf(hour24: Option<int>): Option<int>
  {
    match hour24
    case None => None
    case Some(h) => var r := JsRem(h, 12); Some(if r == 0 then 12 else r)
  }

  /** The 24-hour hour for a parsed face: 12 AM is 0, a PM face other than 12 gains 12. */
  function HourOf(face: Option<int>, period: Period): Option<int>
  {
    match face
    case None => None
    case Some(v) =>
      if period == AM && v == 12 then Some(0)
      else if period == PM && v != 12 then Some(v + 12)
      else Some(v)
  }

  /** `hour.toString().padStart(2, '0')`. */
  function HourText(x: Option<int>): string
  {
    PadStart(NumText(x), 2, '0')
  }

  /** `convertTo12Hour`: `parseInt` of the first `:` field; NaN renders as "NaN" and reads AM. */
  function ConvertTo12Hour(time24: string): (c: Clock12)
  {
    var parts := Split(time24, ":");
    var hour24 := ParseInt(parts[0]);
    var period := if hour24.Some? && hour24.value >= 12 then PM else AM;
    Clock12(HourText(FaceOf(hour24)), if |parts| >= 2 then Some(parts[1]) else None, period)
  }

  /** `convertTo24Hour`: 12 AM is hour 0, a PM hour other than 12 gains 12, anything else is kept. */
  function ConvertTo24Hour(hour12: string, minute: Option<string>, period: Period): (r: string)
  {
    HourText(HourOf(ParseInt(hour12), period)) + ":" + TemplateText(minute)
  }

  /** `formatTime12Hour`: "hh:mm AM" or "hh:mm PM". */
  function FormatTime12Hour(time24: string): (r: string)
  {
    var c := ConvertTo12Hour(time24);
    c.hour12 + ":" + TemplateText(c.minute) + " " + PeriodText(c.period)
  }

  /** Reference definition of the 24-hour hour of a 12-hour clock face `1..12`. */
  function ClockHour(h12: nat, p: Period): nat
  {
    h12 % 12 + (if p == PM then 12 else 0)
  }

  // ---------------------------------------------------------------------
  // Properties
  // ---------------------------------------------------------------------

  lemma SplitTime24(h: nat, m: string)
    requires h < 24 && NoChar(m, ':')
    ensures Split(Time24(h, m), ":") == [Pad2(h), m]
  {
    DigitsNoChar(Pad2(h), ':');
    SplitPair(Pad2(h), m, ':');
  }

  lemma HourTextPad(h: nat)
    requires h < 100
    ensures HourText(Some(h as int)) == Pad2(h)
  {
  }

  /**
   * On an "HH:mm" value the hour select shows the 12-hour face `1..12`
   * padded to two digits, the period is PM exactly from hour 12 on, and the
   * minute is passed through verbatim.
   */
  lemma ConvertTo12HourOfTime(h: nat, m: string)
    requires h < 24 && NoChar(m, ':')
    ensures var c := ConvertTo12Hour(Time24(h, m));
      && c.hour12 == Pad2(Hour12(h))
      && 1 <= Hour12(h) <= 12
      && |c.hour12| == 2
      && (c.period == PM <==> h >= 12)
      && c.minute == Some(m)
  {
    SplitTime24(h, m);
    ParsePad2(h);
    Hour12Bounds(h);
    HourTextPad(Hour12(h));
  }

  /** Midnight reads 12 AM and noon reads 12 PM. */
  lemma MidnightAndNoon(m: string)
    requires NoChar(m, ':')
    ensures ConvertTo12Hour(Time24(0, m)) == Clock12("12", Some(m), AM)
    ensures ConvertTo12Hour(Time24(12, m)) == Clock12("12", Some(m), PM)
  {
    ConvertTo12HourOfTime(0, m);
    ConvertTo12HourOfTime(12, m);
  }

  /**
   * The face arithmetic agrees with the reference clock hour: 12 AM is 00,
   * PM adds 12 except at 12, other AM faces are kept.
   */
  lemma HourOfFace(h12: nat, p: Period)
    requires 1 <= h12 <= 12
    ensures HourOf(Some(h12 as int), p) == Some(ClockHour(h12, p) as int)
    ensures ClockHour(h12, p) < 24
    ensures (p == AM && h12 == 12) ==> ClockHour(h12, p) == 0
    ensures (p == PM && h12 != 12) ==> ClockHour(h12, p) == h12 + 12
    ensures (p == AM && h12 != 12) || (p == PM && h12 == 12) ==> ClockHour(h12, p) == h12
  {
  }

  /** Reading an hour `0..23` as a face and a period and back gives the hour again. */
  lemma ClockHourInverse(h: nat)
    requires h < 24
    ensures ClockHour(Hour12(h), if h >= 12 then PM else AM) == h
  {
  }

  /** Reading a face and period as an hour and back gives the face and period again. */
  lemma Hour12Inverse(h12: nat, p: Period)
    requires 1 <= h12 <= 12
    ensures Hour12(ClockHour(h12, p)) == h12
    ensures ClockHour(h12, p) >= 12 <==> p == PM
  {
  }

  /**
   * `convertTo24Hour` on a face `1..12` gives the reference clock hour,
   * two-digit padded, with the minute appended verbatim.
   */
  lemma ConvertTo24HourOfFace(h12: nat, m: string, p: Period)
    requires 1 <= h12 <= 12
    ensures ConvertTo24Hour(Pad2(h12), Some(m), p) == Time24(ClockHour(h12, p), m)
    ensures ClockHour(h12, p) < 24
  {
    ParsePad2(h12);
    HourOfFace(h12, p);
    HourTextPad(ClockHour(h12, p));
  }

  /** Every "HH:mm" value survives the picker's round trip unchanged. */
  lemma RoundTrip24(h: nat, m: string)
    requires h < 24 && NoChar(m, ':')
    ensures var c := ConvertTo12Hour(Time24(h, m));
      ConvertTo24Hour(c.hour12, c.minute, c.period) == Time24(h, m)
  {
    ConvertTo12HourOfTime(h, m);
    var p := if h >= 12 then PM else AM;
    ConvertTo24HourOfFace(Hour12(h), m, p);
    ClockHourInverse(h);
  }

  /** Every three-select choice survives the round trip through the stored 24-hour value. */
  lemma RoundTrip12(h12: nat, m: string, p: Period)
    requires 1 <= h12 <= 12 && NoChar(m, ':')
    ensures ConvertTo12Hour(ConvertTo24Hour(Pad2(h12), Some(m), p)) == Clock12(Pad2(h12), Some(m), p)
  {
    ConvertTo24HourOfFace(h12, m, p);
    var h := ClockHour(h12, p);
    ConvertTo12HourOfTime(h, m);
    Hour12Inverse(h12, p);
  }

  /** The button label "hh:mm AM|PM" of an "HH:mm" value. */
  lemma FormatTime12HourOfTime(h: nat, m: string)
    requires h < 24 && NoChar(m, ':')
    ensures FormatTime12Hour(Time24(h, m))
      == Pad2(Hour12(h)) + ":" + m + " " + (if h >= 12 then "PM" else "AM")
  {
    ConvertTo12HourOfTime(h, m);
  }

  // ---------------------------------------------------------------------
  // The three selects (`handleTimeChange`)
  // ---------------------------------------------------------------------

  /** Picking a new hour keeps the shown minute and period. */
  function PickHour(value: string, hour12: string): string
  {
    var c := ConvertTo12Hour(value);
    ConvertTo24Hour(hour12, c.minute, c.period)
  }

  /** Picking a new minute keeps the shown hour and period. */
  function PickMinute(value: string, minute: string): string
  {
    var c := ConvertTo12Hour(value);
    ConvertTo24Hour(c.hour12, Some(minute), c.period)
  }

  /** Picking a new period keeps the shown hour and minute. */
  function PickPeriod(value: string, period: Period): string
  {
    var c := ConvertTo12Hour(value);
    ConvertTo24Hour(c.hour12, c.minute, period)
  }

  /** Each select changes its own part of the value and nothing else. */
  lemma PicksChangeOnePart(h: nat, m: string, h12: nat, m': string, p: Period)
    requires h < 24 && NoChar(m, ':') && NoChar(m', ':') && 1 <= h12 <= 12
    ensures ConvertTo12Hour(PickHour(Time24(h, m), Pad2(h12)))
      == ConvertTo12Hour(Time24(h, m)).(hour12 := Pad2(h12))
    ensures ConvertTo12Hour(PickMinute(Time24(h, m), m'))
      == ConvertTo12Hour(Time24(h, m)).(minute := Some(m'))
    ensures ConvertTo12Hour(PickPeriod(Time24(h, m), p))
      == ConvertTo12Hour(Time24(h, m)).(period := p)
  {
    ConvertTo12HourOfTime(h, m);
    var c := ConvertTo12Hour(Time24(h, m));
    RoundTrip12(h12, m, c.period);
    RoundTrip12(Hour12(h), m', c.period);
    RoundTrip12(Hour12(h), m, p);
  }

  /** A value without a `:` has no minute, so picking an hour writes an "undefined" minute. */
  lemma MissingMinute(s: string, h12: string)
    requires NoChar(s, ':')
    ensures ConvertTo12Hour(s).minute == None
    ensures PickHour(s, h12) == ConvertTo24Hour(h12, None, ConvertTo12Hour(s).period)
  {
    SplitNoSep(s, ':');
  }

  lemma UndefinedMinute(h12: string, p: Period)
    ensures var r := ConvertTo24Hour(h12, None, p); |r| >= 10 && r[|r| - 10..] == ":undefined"
  {
    EndsUndefined(HourText(HourOf(ParseInt(h12), p)));
  }

  lemma EndsUndefined(x: string)
    ensures var r := x + ":" + TemplateText(None); |r| >= 10 && r[|r| - 10..] == ":undefined"
  {
    ConcatAssoc(x, ":", "undefined");
    assert (x + ":undefined")[|x|..] == ":undefined";
  }

  /** A first field with no leading digit shows hour "NaN" and period AM. */
  lemma UnparsableHour(s: string)
    requires ParseInt(Split(s, ":")[0]).None?
    ensures ConvertTo12Hour(s).hour12 == "NaN"
    ensures ConvertTo12Hour(s).period == AM
  {
  }
}
