/** Deriving a new alarm from an existing one, shifted by less than an hour
    either way (`diff_alarm`), as used for snooze-style variants. */
module Derive {
  import opened Wrappers
  import opened Week
  import opened Decimal
  import opened AlarmItem
  import opened Alert

  /** The largest shift, in minutes, either way. */
  const MaxOffset: int := 59

  /** The id as `%s` shows it: its numeral, or `None` while unset. */
  function IdText(id: Option<nat>): (s: string)
    ensures id.Some? ==> AllDigits(s) && DecimalValue(s) == id.value
    ensures id.Some? ==> |s| >= 1 && (s[0] == '0' <==> id.value == 0)
    ensures id.None? ==> s == "None"
  {
    match id
    case Some(n) => NatTextRoundTrip(n); NatText(n)
    case None => "None"
  }

  /** What the derived alarm's label gains: ` (Alarm <id> <signed offset>min)`. */
  function DiffSuffix(id: Option<nat>, offset: int): (s: string)
    ensures |s| >= 16
  {
    " (Alarm " + IdText(id) + " " + SignedText(offset) + "min)"
  }

  /** The suffix reads back: the id from the text before the space at `k`,
      and the offset from the signed numeral between that space and `min)`. */
  lemma DiffSuffixReadsBack(id: Option<nat>, offset: int)
    ensures var s := DiffSuffix(id, offset);
            && s[..8] == " (Alarm " && s[|s| - 4..] == "min)"
            && exists k :: 8 <= k < |s| - 4 && s[k] == ' '
                 && (id.Some? ==> AllDigits(s[8..k]) && DecimalValue(s[8..k]) == id.value)
                 && (id.None? ==> s[8..k] == "None")
                 && ParseSigned(s[k + 1..|s| - 4]) == Some(offset)
  {
    var s := DiffSuffix(id, offset);
    var idText := IdText(id);
    var sign := SignedText(offset);
    var k := 8 + |idText|;
    assert s == " (Alarm " + idText + " " + sign + "min)";
    assert s[8..k] == idText && s[k] == ' ' && s[k + 1..|s| - 4] == sign;
    SignedTextRoundTrip(offset);
  }

  /** The clock time `offset` minutes after `hour`:`minute`, carrying the
      minute into the hour and the hour into the day; the last component is
      the day carry, -1, 0 or 1. */
  function ShiftTime(hour: Hour, minute: Minute, offset: int): (r: (Hour, Minute, int))
    requires -MaxOffset <= offset <= MaxOffset
    ensures r.0 * MinutesPerHour + r.1 == (hour * MinutesPerHour + minute + offset) % MinutesPerDay
    ensures r.2 == (hour * MinutesPerHour + minute + offset) / MinutesPerDay
  {
    var m := minute + offset;
    var carry := if m >= MinutesPerHour then 1 else if m < 0 then -1 else 0;
    var h := hour + carry;
    if h == HoursPerDay then (0, m - carry * MinutesPerHour, 1)
    else if h < 0 then (HoursPerDay - 1, m - carry * MinutesPerHour, -1)
    else (h, m - carry * MinutesPerHour, 0)
  }

  /** `diff_alarm`: None for an offset outside -59 .. 59; otherwise a new
      alarm at the shifted time, with the repeat pattern moved one day along
      when midnight is crossed.  The enabled flag is copied, the label
      extended, and the id and timestamp are left unset. */
  function DiffAlarm(a: Alarm, offset: int): (r: Option<Alarm>)
    ensures r.Some? <==> -MaxOffset <= offset <= MaxOffset
    ensures r.Some? ==> TimeOfDay(r.value) == (TimeOfDay(a) + offset) % MinutesPerDay
    ensures r.Some? ==> r.value.enabled == a.enabled && r.value.id.None? && r.value.timestamp.None?
    ensures r.Some? ==> r.value.caption == a.caption + DiffSuffix(a.id, offset)
    ensures r.Some? && 0 <= TimeOfDay(a) + offset < MinutesPerDay ==> r.value.repeat == a.repeat
    ensures r.Some? && TimeOfDay(a) + offset >= MinutesPerDay ==> r.value.repeat == RotateForward(a.repeat)
    ensures r.Some? && TimeOfDay(a) + offset < 0 ==> r.value.repeat == RotateBackward(a.repeat)
  {
    if offset < -MaxOffset || offset > MaxOffset then
      None
    else
      var (hour, minute, carry) := ShiftTime(a.hour, a.minute, offset);
      assert carry == 1 <==> TimeOfDay(a) + offset >= MinutesPerDay;
      assert carry == -1 <==> TimeOfDay(a) + offset < 0;
      var days := if carry == 1 then RotateForward(a.repeat)
                  else if carry == -1 then RotateBackward(a.repeat)
                  else a.repeat;
      Some(Alarm(hour, minute, days, a.enabled, a.caption + DiffSuffix(a.id, offset), None, None))
  }

  /** `diff_alarm` given an arbitrary value: anything but an integer in
      range derives nothing. */
  function DiffAlarmGiven(a: Alarm, v: Value): (r: Option<Alarm>)
    ensures r.Some? <==> v.Int? && -MaxOffset <= v.i <= MaxOffset
    ensures r.Some? ==> r == DiffAlarm(a, v.i)
  {
    if v.Int? then DiffAlarm(a, v.i) else None
  }

  /** Where week minute `w` lands when moved back by `offset`: on the day
      before, the same day or the day after, depending on where within its
      day `w` falls. */
  lemma MoveBack(w: int, offset: int)
    requires -MaxOffset <= offset <= MaxOffset
    requires 0 <= w < MinutesPerWeek
    ensures var e := w / MinutesPerDay;
            var c := w % MinutesPerDay - offset;
            var u := MinuteAfter(w, -offset);
            && (c < 0 ==> u / MinutesPerDay == (e - 1) % 7 && u % MinutesPerDay == c + MinutesPerDay)
            && (0 <= c < MinutesPerDay ==> u / MinutesPerDay == e && u % MinutesPerDay == c)
            && (MinutesPerDay <= c ==> u / MinutesPerDay == (e + 1) % 7 && u % MinutesPerDay == c - MinutesPerDay)
  {
    var e := w / MinutesPerDay;
    var c := w % MinutesPerDay - offset;
    assert w == e * MinutesPerDay + c + offset;
    if c < 0 {
      DayMinute(MinuteAfter(w, -offset), (e - 1) % 7, c + MinutesPerDay);
    } else if c < MinutesPerDay {
      DayMinute(MinuteAfter(w, -offset), e, c);
    } else {
      DayMinute(MinuteAfter(w, -offset), (e + 1) % 7, c - MinutesPerDay);
    }
  }

  /** A week minute splits uniquely into a day and a minute of that day. */
  lemma DayMinute(u: int, day: int, m: int)
    requires 0 <= day < 7 && 0 <= m < MinutesPerDay && u == day * MinutesPerDay + m
    ensures u / MinutesPerDay == day && u % MinutesPerDay == m
  {
  }

  /** Without crossing midnight, the pattern stays and the time moves. */
  lemma ShiftWithinDay(days: Days, time: int, offset: int, w: int)
    requires -MaxOffset <= offset <= MaxOffset && 0 <= time + offset < MinutesPerDay
    requires 0 <= time < MinutesPerDay
    requires 0 <= w < MinutesPerWeek
    ensures ScheduledAt(days, time + offset, w) <==> ScheduledAt(days, time, MinuteAfter(w, -offset))
  {
    MoveBack(w, offset);
  }

  /** Crossing midnight forward, every flag moves one day later. */
  lemma ShiftPastMidnight(days: Days, time: int, offset: int, w: int)
    requires -MaxOffset <= offset <= MaxOffset && MinutesPerDay <= time + offset
    requires 0 <= time < MinutesPerDay
    requires 0 <= w < MinutesPerWeek
    ensures ScheduledAt(RotateForward(days), time + offset - MinutesPerDay, w)
            <==> ScheduledAt(days, time, MinuteAfter(w, -offset))
  {
    MoveBack(w, offset);
    var d := (w / MinutesPerDay - 1) % 7;
    assert RotateForward(days)[(d + 1) % 7] == days[d];
  }

  /** Crossing midnight backward, every flag moves one day earlier. */
  lemma ShiftBeforeMidnight(days: Days, time: int, offset: int, w: int)
    requires -MaxOffset <= offset <= MaxOffset && time + offset < 0
    requires 0 <= time < MinutesPerDay
    requires 0 <= w < MinutesPerWeek
    ensures ScheduledAt(RotateBackward(days), time + offset + MinutesPerDay, w)
            <==> ScheduledAt(days, time, MinuteAfter(w, -offset))
  {
    MoveBack(w, offset);
    var d := (w / MinutesPerDay + 1) % 7;
    assert RotateBackward(days)[(d - 1) % 7] == days[d];
  }

  /** The derived alarm goes off exactly `offset` minutes after each time the
      original goes off, round the week. */
  lemma DiffAlarmShiftsFiring(a: Alarm, offset: int, w: int)
    requires -MaxOffset <= offset <= MaxOffset
    requires 0 <= w < MinutesPerWeek
    ensures FiresAt(DiffAlarm(a, offset).value, w) <==> FiresAt(a, MinuteAfter(w, -offset))
  {
    var t := TimeOfDay(a) + offset;
    if t >= MinutesPerDay {
      ShiftPastMidnight(a.repeat, TimeOfDay(a), offset, w);
    } else if t < 0 {
      ShiftBeforeMidnight(a.repeat, TimeOfDay(a), offset, w);
    } else {
      ShiftWithinDay(a.repeat, TimeOfDay(a), offset, w);
    }
  }

  /** Shifting a time of day forward and back again restores it, and the
      return trip crosses midnight the other way exactly when the first did. */
  lemma ShiftTimeBack(t: int, offset: int)
    requires 0 <= t < MinutesPerDay && -MaxOffset <= offset <= MaxOffset
    ensures var t' := (t + offset) % MinutesPerDay;
            && (t' - offset) % MinutesPerDay == t
            && (t + offset >= MinutesPerDay <==> t' - offset < 0)
            && (t + offset < 0 <==> t' - offset >= MinutesPerDay)
  {
  }

  /** Shifting back by the opposite offset restores the time and the repeat
      pattern. */
  lemma DiffAlarmRoundTrip(a: Alarm, offset: int)
    requires -MaxOffset <= offset <= MaxOffset
    ensures var b := DiffAlarm(DiffAlarm(a, offset).value, -offset).value;
            b.hour == a.hour && b.minute == a.minute && b.repeat == a.repeat && b.enabled == a.enabled
  {
    var once := DiffAlarm(a, offset).value;
    var twice := DiffAlarm(once, -offset).value;
    var t := TimeOfDay(a) + offset;
    ShiftTimeBack(TimeOfDay(a), offset);
    assert TimeOfDay(twice) == TimeOfDay(a);
    RotateRoundTrip(a.repeat);
    if t >= MinutesPerDay {
      assert twice.repeat == RotateBackward(RotateForward(a.repeat));
    } else if t < 0 {
      assert twice.repeat == RotateForward(RotateBackward(a.repeat));
    } else {
      assert twice.repeat == a.repeat;
    }
  }

  /** The derivation example checked in full: label, enabled flag, and an
      id and timestamp that differ from the original's. */
  lemma DiffAlarmLabelExample()
    ensures var a := Create(Int(9), Int(30), [true, false, false, true, false, false, true], true,
                            "test label", Some(1234), Some(98)).value;
            var b := DiffAlarm(a, -15).value;
            && b.hour == 9 && b.minute == 15 && b.repeat == a.repeat && b.enabled
            && b.caption == "test label" + " (Alarm " + "98" + " " + "-15" + "min)"
            && b.timestamp != Some(1234) && b.id != Some(98)
  {
    assert NatText(98) == "98" && NatText(15) == "15";
  }

  /** The derivation examples within a day and across an hour. */
  lemma DiffAlarmTimeExamples()
    ensures var a := Create(Int(9), Int(30), [true, false, false, true, false, false, true], true, "", None, None).value;
            var b := DiffAlarm(a, 15).value;
            b.hour == 9 && b.minute == 45 && b.repeat == a.repeat
    ensures var a := Create(Int(14), Int(10), [true, false, false, true, false, false, true], true, "", None, None).value;
            && DiffAlarm(a, 59).value.hour == 15 && DiffAlarm(a, 59).value.minute == 9
            && DiffAlarm(a, 59).value.repeat == a.repeat
            && DiffAlarm(a, -59).value.hour == 13 && DiffAlarm(a, -59).value.minute == 11
            && DiffAlarm(a, -59).value.repeat == a.repeat
  {
  }

  /** The derivation examples across midnight, forward and backward. */
  lemma DiffAlarmMidnightExamples()
    ensures var a := Create(Int(23), Int(50), [true, false, false, true, true, false, true], true, "", None, None).value;
            var b := DiffAlarm(a, 30).value;
            b.hour == 0 && b.minute == 20 && b.repeat == [true, true, false, false, true, true, false]
    ensures var a := Create(Int(0), Int(10), [true, false, false, true, true, false, true], true, "", None, None).value;
            var b := DiffAlarm(a, -30).value;
            b.hour == 23 && b.minute == 40 && b.repeat == [false, false, true, true, false, true, true]
  {
  }

  /** Offset 0 is accepted; -60, 60 and non-integers derive nothing. */
  lemma DiffAlarmRejectionExamples()
    ensures var a := Create(Int(0), Int(10), [true, false, false, true, true, false, true], true, "", None, None).value;
            && DiffAlarmGiven(a, Int(0)).Some? && DiffAlarmGiven(a, Int(-60)).None? && DiffAlarmGiven(a, Int(60)).None?
            && DiffAlarmGiven(a, Float(0.1)).None? && DiffAlarmGiven(a, Text("0")).None?
  {
  }
}
