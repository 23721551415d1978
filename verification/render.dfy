/** The canonical text of an alarm, from the time column on:
    `Time: HH:MM | Enabled: Yes | Repeat: Mon --- --- Thu --- --- Sun `. */
module Render {
  import opened Wrappers
  import opened Week
  import opened Decimal
  import opened AlarmItem

  /** The three-letter abbreviation of a weekday. */
  function DayName(i: Weekday): (s: string)
    ensures |s| == 3 && s[0] != '-'
  {
    match i
    case 0 => "Mon"
    case 1 => "Tue"
    case 2 => "Wed"
    case 3 => "Thu"
    case 4 => "Fri"
    case 5 => "Sat"
    case 6 => "Sun"
  }

  /** `%02d`: a zero-padded two-digit numeral. */
  function TwoDigits(n: int): (s: string)
    requires 0 <= n < 100
    ensures |s| == 2 && AllDigits(s) && DecimalValue(s) == n
  {
    var s := [DigitChar(n / 10), DigitChar(n % 10)];
    assert s[..1] == [DigitChar(n / 10)] && s[..1][..0] == [];
    assert DecimalValue(s[..1]) == n / 10;
    s
  }

  /** `HH:MM`, from which both fields read back. */
  function ClockText(a: Alarm): (s: string)
    ensures |s| == 5 && s[2] == ':' && AllDigits(s[..2]) && AllDigits(s[3..])
    ensures DecimalValue(s[..2]) == a.hour && DecimalValue(s[3..]) == a.minute
  {
    var s := TwoDigits(a.hour) + ":" + TwoDigits(a.minute);
    assert s[..2] == TwoDigits(a.hour) && s[3..] == TwoDigits(a.minute);
    s
  }

  /** One day of the repeat column: its abbreviation when set, `---`
      otherwise, then a space. */
  function DayField(w: Days, i: Weekday): string {
    (if w[i] then DayName(i) else "---") + " "
  }

  /** The four characters the `j`-th day takes up in a repeat column. */
  function Slot(s: string, j: int): string
    requires 0 <= j && 4 * j + 4 <= |s|
  {
    s[4 * j..4 * j + 4]
  }

  /** The repeat column from day `i` to Sunday, four characters per day. */
  function DayFields(w: Days, i: int): (s: string)
    requires 0 <= i <= 7
    ensures |s| == 4 * (7 - i)
    ensures forall j :: 0 <= j < 7 - i ==> Slot(s, j) == DayField(w, i + j)
    decreases 7 - i
  {
    if i == 7 then "" else
      var rest := DayFields(w, i + 1);
      var s := DayField(w, i) + rest;
      assert Slot(s, 0) == DayField(w, i);
      forall j | 1 <= j < 7 - i
        ensures Slot(s, j) == DayField(w, i + j)
      {
        assert Slot(s, j) == Slot(rest, j - 1);
      }
      s
  }

  /** The repeat column, Monday first: four characters per day, the day's
      abbreviation when its flag is set and `---` otherwise. */
  function RepeatText(w: Days): (s: string)
    ensures |s| == 4 * DaysPerWeek
    ensures forall i :: 0 <= i < DaysPerWeek ==> Slot(s, i) == DayField(w, i)
  {
    DayFields(w, 0)
  }

  /** The flags as read back from a repeat column: a day is set unless its
      field starts with a dash. */
  function ReadRepeat(s: string): Days
    requires |s| == 4 * DaysPerWeek
  {
    seq(7, i requires 0 <= i < 7 => s[4 * i] != '-')
  }

  lemma RepeatTextRoundTrip(w: Days)
    ensures ReadRepeat(RepeatText(w)) == w
  {
    var s := RepeatText(w);
    forall i | 0 <= i < 7
      ensures ReadRepeat(s)[i] == w[i]
    {
      assert s[4 * i] == Slot(s, i)[0] == DayField(w, i)[0];
    }
  }

  /** The text of an alarm. */
  function Summary(a: Alarm): (s: string)
    ensures |s| == (if a.enabled then 65 else 64)
  {
    "Time: " + ClockText(a) + " | Enabled: " + (if a.enabled then "Yes" else "No")
    + " | Repeat: " + RepeatText(a.repeat)
  }

  /** Every field of the text reads back: the hour and the minute from
      positions 6-7 and 9-10, the enabled flag from the `Y` of `Yes` at
      position 23, and the repeat pattern from the last 28 characters. */
  lemma SummaryReadsBack(a: Alarm)
    ensures var s := Summary(a);
            && AllDigits(s[6..8]) && DecimalValue(s[6..8]) == a.hour
            && AllDigits(s[9..11]) && DecimalValue(s[9..11]) == a.minute
            && (s[23] == 'Y' <==> a.enabled)
            && ReadRepeat(s[|s| - 4 * DaysPerWeek..]) == a.repeat
  {
    var s := Summary(a);
    var clock := ClockText(a);
    var repeat := RepeatText(a.repeat);
    assert s[6..8] == clock[..2] && s[9..11] == clock[3..];
    assert s[|s| - 4 * DaysPerWeek..] == repeat;
    RepeatTextRoundTrip(a.repeat);
  }

  /** The text determines the time, the enabled flag and the repeat pattern. */
  lemma SummaryDeterminesFields(a: Alarm, b: Alarm)
    requires Summary(a) == Summary(b)
    ensures a.hour == b.hour && a.minute == b.minute
    ensures a.enabled == b.enabled && a.repeat == b.repeat
  {
    SummaryReadsBack(a);
    SummaryReadsBack(b);
  }

  /** The repeat column of Monday, Thursday and Sunday. */
  lemma RepeatTextExample()
    ensures RepeatText([true, false, false, true, false, false, true]) == "Mon --- --- Thu --- --- Sun "
  {
  }

  /** The rendering example: an alarm at 9:30, enabled, repeating on Monday,
      Thursday and Sunday shows `09:30`, `Yes` and `Mon --- --- Thu --- --- Sun `. */
  lemma SummaryExample()
    ensures var a := SetId(Create(Int(9), Int(30), [true, false, false, true, false, false, true], true, "", None, None).value, Int(10));
            && ClockText(a) == "09:30" && a.enabled
            && RepeatText(a.repeat) == "Mon --- --- Thu --- --- Sun "
            && Summary(a) == "Time: " + "09:30" + " | Enabled: " + "Yes" + " | Repeat: " + "Mon --- --- Thu --- --- Sun "
  {
    RepeatTextExample();
    assert TwoDigits(9) == "09" && TwoDigits(30) == "30";
  }
}
