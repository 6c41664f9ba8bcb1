/**
 * The clock-face time picker (src/components/shared/form/TimePicker.tsx):
 * its four state fields, the handlers that update them and report to the
 * form, the "HH:MM AM|PM" text it reports, and the hour shown on the
 * 12-hour face. Hand and marker positions (trigonometry) are not modelled.
 */
module TimePickerForm {
  import opened Wrappers
  import opened JsStrings

  datatype Period = AM | PM

  /** Which half of the display the clock face edits. */
  datatype Mode = HourMode | MinuteMode

  /** A call the picker makes to its owner: `onChange(value)` or `onClose()`. */
  datatype PickerEvent = Changed(value: string) | Closed

  function PeriodText(p: Period): string {
    if p == AM then "AM" else "PM"
  }

  /** `n.toString()` for a number that is NaN when `None`. */
  function NumberText(n: Option<nat>): string {
    if n.Some? then NatToString(n.value) else "NaN"
  }

  /** `formatTime`: hour and minute padded to two digits, a colon, a space and the period. */
  function FormatTime(h: Option<nat>, m: Option<nat>, p: Period): string {
    PadStart2(NumberText(h)) + ":" + PadStart2(NumberText(m)) + " " + PeriodText(p)
  }

  /** For numbers below 100 the formatted time is eight characters: two digits reading as the hour, ':', two digits reading as the minute, ' ' and the period. */
  lemma FormatTimeLayout(h: nat, m: nat, p: Period)
    requires h < 100 && m < 100
    ensures var r := FormatTime(Some(h), Some(m), p);
      && |r| == 8 && r[2] == ':' && r[5] == ' ' && r[6..] == PeriodText(p)
      && AllDigits(r[..2]) && DigitsValue(r[..2]) == h
      && AllDigits(r[3..5]) && DigitsValue(r[3..5]) == m
  {
    var hh := PadStart2(NatToString(h));
    var mm := PadStart2(NatToString(m));
    PaddedNumber(h);
    PaddedNumber(m);
    var r := hh + ":" + mm + " " + PeriodText(p);
    assert r[..2] == hh && r[3..5] == mm && r[6..] == PeriodText(p);
  }

  /** The text before the first colon. */
  function HourField(value: string): string {
    Split(value, ':')[0]
  }

  /** The text between the first and second colon; `None` (undefined) without a colon. */
  function MinuteField(value: string): Option<string> {
    var parts := Split(value, ':');
    if |parts| > 1 then Some(parts[1]) else None
  }

  /** `parseInt` of a piece that may be undefined: undefined parses to NaN. */
  function ParseField(text: Option<string>): Option<nat> {
    if text.Some? then ParseInt(text.value) else None
  }

  /** The initial hour: 7 for an empty value, else the leading hour, which is NaN unless the value starts with a digit. */
  function InitialHour(value: string): (h: Option<nat>)
    ensures value == "" ==> h == Some(7)
    ensures value != "" ==> (h.None? <==> !IsDigit(value[0]))
  {
    if value == "" then Some(7)
    else
      var field := HourField(value);
      assert field != [] ==> field[0] == value[0];
      ParseInt(field)
  }

  /** The initial minute: 0 for an empty value, else the piece after the first colon, which is NaN when there is no colon. */
  function InitialMinute(value: string): (m: Option<nat>)
    ensures value == "" ==> m == Some(0)
    ensures value != "" && ':' !in value ==> m.None?
  {
    if value == "" then Some(0)
    else
      ParseField(MinuteField(value))
  }

  /** PM exactly when a value is given and its leading hour reads as 12 or more. */
  function InitialPeriod(value: string): (p: Period)
    ensures p == PM <==> value != "" && ParseInt(HourField(value)).Some? && ParseInt(HourField(value)).value >= 12
  {
    var h := ParseInt(HourField(value));
    if value != "" && h.Some? && h.value >= 12 then PM else AM
  }

  /** Two two-digit fields around a colon, then a space and a colon-free suffix, split at the colon into the hour text and the rest. */
  lemma SplitLaidOut(hh: string, mm: string, suffix: string)
    requires |hh| == 2 && |mm| == 2 && AllDigits(hh) && AllDigits(mm) && ':' !in suffix
    ensures Split(hh + ":" + mm + " " + suffix, ':') == [hh, mm + " " + suffix]
  {
    var rest := mm + " " + suffix;
    assert hh + ":" + mm + " " + suffix == hh + [':'] + rest;
    assert ':' !in hh by {
      assert forall i :: 0 <= i < |hh| ==> IsDigit(hh[i]);
    }
    SplitAtFirst(hh, ':', rest);
    assert ':' !in rest by {
      assert forall i :: 0 <= i < |mm| ==> IsDigit(mm[i]);
      assert forall c :: c in rest ==> c in mm || c == ' ' || c in suffix;
    }
  }

  /**
   * Reopening the picker on a value it reported gives back its hour and
   * minute; the period, however, is derived from the hour alone, so "03:00 PM"
   * reopens as AM.
   */
  lemma ReopenFormatted(h: nat, m: nat, p: Period)
    requires h < 100 && m < 100
    ensures InitialHour(FormatTime(Some(h), Some(m), p)) == Some(h)
    ensures InitialMinute(FormatTime(Some(h), Some(m), p)) == Some(m)
    ensures InitialPeriod(FormatTime(Some(h), Some(m), p)) == if h >= 12 then PM else AM
  {
    var hh := PadStart2(NatToString(h));
    var mm := PadStart2(NatToString(m));
    var suffix := PeriodText(p);
    PaddedNumber(h);
    PaddedNumber(m);
    assert FormatTime(Some(h), Some(m), p) == hh + ":" + mm + " " + suffix;
    SplitLaidOut(hh, mm, suffix);
    assert hh + [] == hh;
    ParseIntOfDigits(hh, []);
    ParseIntOfDigits(mm, " " + suffix);
  }

  /** The hour shown on the 12-hour face: 0 becomes 12 and afternoon hours drop by 12. */
  function ClockHour(h: nat): (r: nat)
    ensures h <= 23 ==> 1 <= r <= 12 && r % 12 == h % 12
    ensures 1 <= h <= 12 ==> r == h
  {
    if h == 0 then 12 else if h > 12 then h - 12 else h
  }

  /** The hour markers, clockwise from the top: 12, then 1 to 11. */
  function HourMarkers(): (r: seq<nat>)
    ensures |r| == 12 && r[0] == 12
  {
    seq(12, i requires 0 <= i < 12 => if i == 0 then 12 else i)
  }

  /** The hour face offers each hour 1 to 12 and nothing else, each already a face hour. */
  lemma HourMarkersCoverFace()
    ensures forall h :: h in HourMarkers() <==> 1 <= h <= 12
    ensures forall h :: h in HourMarkers() ==> ClockHour(h) == h
  {
    var r := HourMarkers();
    forall h | 1 <= h <= 12
      ensures h in r
    {
      assert r[h % 12] == h;
    }
  }

  /** The minute markers: every fifth minute from 0 to 55. */
  function MinuteMarkers(): (r: seq<nat>)
    ensures |r| == 12 && r[0] == 0
  {
    seq(12, i requires 0 <= i < 12 => (i * 5) as nat)
  }

  /** The minute face offers exactly the multiples of five below sixty. */
  lemma MinuteMarkersAreFives()
    ensures forall m :: m in MinuteMarkers() <==> 0 <= m < 60 && m % 5 == 0
  {
    var r := MinuteMarkers();
    forall m | 0 <= m < 60 && m % 5 == 0
      ensures m in r
    {
      assert r[m / 5] == m;
    }
  }

  /** The picker's state; `events` lists the calls to `onChange` and `onClose`, in order. */
  class TimePicker {
    var hour: Option<nat>
    var minute: Option<nat>
    var period: Period
    var mode: Mode
    var events: seq<PickerEvent>

    /** The initial state read from the field's value: 07:00 AM in hour mode when it is empty. */
    constructor (value: string)
      ensures hour == InitialHour(value) && minute == InitialMinute(value) && period == InitialPeriod(value)
      ensures mode == HourMode && events == []
    {
      hour := InitialHour(value);
      minute := InitialMinute(value);
      period := InitialPeriod(value);
      mode := HourMode;
      events := [];
    }

    /** The text the picker currently stands for. */
    function Current(): string
      reads this
    {
      FormatTime(hour, minute, period)
    }

    /** The hour the clock hand points at. */
    function FaceHour(): (r: Option<nat>)
      reads this
      ensures r.Some? <==> hour.Some?
      ensures hour.Some? && hour.value <= 23 ==> 1 <= r.value <= 12 && r.value % 12 == hour.value % 12
    {
      if hour.Some? then Some(ClockHour(hour.value)) else None
    }

    /** A marker click on the hour face: set the hour, report, then switch to minutes. */
    method HandleHourChange(newHour: nat)
      modifies this
      ensures hour == Some(newHour) && minute == old(minute) && period == old(period)
      ensures mode == MinuteMode
      ensures events == old(events) + [Changed(Current())]
    {
      hour := Some(newHour);
      events := events + [Changed(FormatTime(Some(newHour), minute, period))];
      mode := MinuteMode;
    }

    /** A marker click on the minute face: set the minute and report; the mode stays. */
    method HandleMinuteChange(newMinute: nat)
      modifies this
      ensures minute == Some(newMinute) && hour == old(hour) && period == old(period) && mode == old(mode)
      ensures events == old(events) + [Changed(Current())]
    {
      minute := Some(newMinute);
      events := events + [Changed(FormatTime(hour, Some(newMinute), period))];
    }

    /** The AM/PM buttons: set the period and report; the mode stays. */
    method HandlePeriodChange(newPeriod: Period)
      modifies this
      ensures period == newPeriod && hour == old(hour) && minute == old(minute) && mode == old(mode)
      ensures events == old(events) + [Changed(Current())]
    {
      period := newPeriod;
      events := events + [Changed(FormatTime(hour, minute, newPeriod))];
    }

    /** Clicking the hour or minute digits of the display selects that face; nothing is reported. */
    method SelectMode(newMode: Mode)
      modifies this
      ensures mode == newMode && hour == old(hour) && minute == old(minute) && period == old(period)
      ensures events == old(events)
    {
      mode := newMode;
    }

    /** OK: report the current time, then close. */
    method HandleOk()
      modifies this
      ensures hour == old(hour) && minute == old(minute) && period == old(period) && mode == old(mode)
      ensures events == old(events) + [Changed(old(Current())), Closed]
    {
      events := events + [Changed(FormatTime(hour, minute, period))];
      events := events + [Closed];
    }

    /** Cancel: close without reporting. */
    method HandleCancel()
      modifies this
      ensures hour == old(hour) && minute == old(minute) && period == old(period) && mode == old(mode)
      ensures events == old(events) + [Closed]
    {
      events := events + [Closed];
    }
  }

  /** Picking 3, then 45, then PM on an empty field and pressing OK reports "03:00 AM", "03:45 AM", "03:45 PM", "03:45 PM" and closes. */
  method PickThreeFortyFivePm() returns (picker: TimePicker)
    ensures fresh(picker)
    ensures picker.events == [Changed("03:00 AM"), Changed("03:45 AM"), Changed("03:45 PM"), Changed("03:45 PM"), Closed]
    ensures picker.mode == MinuteMode
  {
    ExampleTexts();
    picker := new TimePicker("");
    picker.HandleHourChange(3);
    assert picker.events == [Changed("03:00 AM")];
    picker.HandleMinuteChange(45);
    assert picker.events == [Changed("03:00 AM"), Changed("03:45 AM")];
    picker.HandlePeriodChange(PM);
    picker.HandleOk();
  }

  /** The three texts the example above reports. */
  lemma ExampleTexts()
    ensures FormatTime(Some(3), Some(0), AM) == "03:00 AM"
    ensures FormatTime(Some(3), Some(45), AM) == "03:45 AM"
    ensures FormatTime(Some(3), Some(45), PM) == "03:45 PM"
  {
    ExamplePaddedNumbers();
    var h, m0, m45 := PadStart2(NatToString(3)), PadStart2(NatToString(0)), PadStart2(NatToString(45));
    assert FormatTime(Some(3), Some(0), AM) == h + ":" + m0 + " " + "AM";
    assert FormatTime(Some(3), Some(45), AM) == h + ":" + m45 + " " + "AM";
    assert FormatTime(Some(3), Some(45), PM) == h + ":" + m45 + " " + "PM";
  }

  /** The padded texts of 3, 0 and 45. */
  lemma ExamplePaddedNumbers()
    ensures PadStart2(NatToString(3)) == "03" && PadStart2(NatToString(0)) == "00" && PadStart2(NatToString(45)) == "45"
  {
    assert DigitChar(0) == '0' && DigitChar(3) == '3' && DigitChar(4) == '4' && DigitChar(5) == '5';
    assert NatToString(45) == NatToString(4) + [DigitChar(5)];
  }
}
