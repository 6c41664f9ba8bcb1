/**
 * The popover around the time picker (src/components/shared/form/TImePickerPopover.tsx):
 * the label shown on its trigger and the open/close routing.
 */
module TimePickerPopover {
  import opened Wrappers
  import opened JsStrings
  import opened TimePickerForm

  const PLACEHOLDER := "Select time"

  /** `parseInt(hours)` moved to the 12-hour face; NaN stays NaN. */
  function DisplayHour(hours: string): (r: Option<nat>)
    ensures r.Some? <==> ParseInt(hours).Some?
    ensures r.Some? && ParseInt(hours).value <= 23 ==> 1 <= r.value <= 12 && r.value % 12 == ParseInt(hours).value % 12
  {
    var hour := ParseInt(hours);
    if hour.Some? then Some(ClockHour(hour.value)) else None
  }

  /** `${minutes}` for the piece after the first colon, "undefined" when there is none. */
  function MinutesText(minutes: Option<string>): string {
    if minutes.Some? then minutes.value else "undefined"
  }

  /** `formatDisplayTime`: the placeholder for an empty string, else "h:minutes" on the 12-hour face. */
  function FormatDisplayTime(time24: string): (r: string)
    ensures r == PLACEHOLDER <==> time24 == ""
    ensures time24 != "" ==> ':' in r
  {
    if time24 == "" then PLACEHOLDER
    else
      var r := NumberText(DisplayHour(HourField(time24))) + ":" + MinutesText(MinuteField(time24));
      assert r[|NumberText(DisplayHour(HourField(time24)))|] == ':';
      r
  }

  /**
   * On a 24-hour "HH:MM" value the label is the face hour, unpadded, then the
   * minutes as given: "00:15" shows "12:15", "07:05" shows "7:05", "18:30" shows "6:30".
   */
  lemma DisplayOfTwentyFourHourTime(hh: string, mm: string)
    requires |hh| == 2 && AllDigits(hh) && DigitsValue(hh) <= 23
    requires ':' !in mm
    ensures FormatDisplayTime(hh + ":" + mm) == NatToString(ClockHour(DigitsValue(hh))) + ":" + mm
    ensures 1 <= ClockHour(DigitsValue(hh)) <= 12
  {
    var s := hh + ":" + mm;
    assert s == hh + [':'] + mm;
    assert ':' !in hh;
    SplitAtFirst(hh, ':', mm);
    assert hh + [] == hh;
    ParseIntOfDigits(hh, []);
  }

  /** The trigger's label: the placeholder when no time is selected (absent or empty). */
  function TriggerLabel(selectedTime: Option<string>): (r: string)
    ensures r == PLACEHOLDER <==> selectedTime.None? || selectedTime.value == ""
    ensures selectedTime.Some? ==> r == FormatDisplayTime(selectedTime.value)
  {
    if selectedTime.Some? && selectedTime.value != "" then FormatDisplayTime(selectedTime.value) else PLACEHOLDER
  }

  /** A call the popover makes to its owner when it is opened or dismissed. */
  datatype OpenChangeCall = CallOnOpen | CallOnClose

  /** `onOpenChange`: exactly one callback, `onOpen` when opening and `onClose` when closing. */
  function OnOpenChange(open: bool): (calls: seq<OpenChangeCall>)
    ensures |calls| == 1
    ensures calls[0] == CallOnOpen <==> open
  {
    if open then [CallOnOpen] else [CallOnClose]
  }
}
