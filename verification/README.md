# LightUpPi alarm entry, modelled in Dafny

A model of `AlarmItem`, the recurring wake-up alarm of the LightUpPi alarm
clock. It has a time of day, a Monday-to-Sunday repeat pattern, an enabled
flag, a label, and the optional `id_` and `timestamp` set by the alarm store.
The model covers:

- validated construction and the validated setters. An invalid time yields no
  alarm. A rejected assignment keeps the stored value. The `repeat` setter is
  all or nothing.
- `any_day_enabled`.
- `minutes_to_alert(hour, minute, weekday)`: the minutes until the alarm next
  goes off, on a week that wraps from Sunday night to Monday.
- `diff_alarm(offset)`: derives a new alarm shifted by -59..59 minutes. The
  time wraps round the day, and the repeat pattern rotates when midnight is
  crossed.
- the canonical text rendering, from the time column on.

The implementation module `LightUpAlarm/AlarmItem.py` is not part of this
model. The behaviour modelled is the one its unit tests pin down, in
`LightUpAlarm/tests/AlarmItem_test.py`. Where the tests are silent, the model
makes assumptions, each listed under "## Left out" with the member it
concerns. Examples are the constructor's defaults, the id and timestamp of a
derived alarm, and how a disabled alarm and the days not shown in the tests
are rendered.

Files, one module each:

- `wrappers.dfy` (`Wrappers`): `Option`, used for "no alarm" results and for the optional fields.
- `decimal.dfy` (`Decimal`): `str()` of an integer and `%+d`, each with a parser that inverts it.
- `week.dfy` (`Week`): the seven-flag `Days` type and the two one-day rotations.
- `alarm_item.dfy` (`AlarmItem`): the `Alarm` record, the constructor, the setters and `AnyDayEnabled`.
- `alert.dfy` (`Alert`): `minutes_to_alert` and the week-minute schedule it is measured against.
- `derive.dfy` (`Derive`): `diff_alarm`.
- `render.dfy` (`Render`): the text rendering.

The Python object is mutated in place through property setters. In the model
each setter is a pure function: it returns the new record, or the same record
when it rejects the value. Setters receive a tagged `Value`
(`Bool`/`Int`/`Float`/`Text`), so a type check ("a float is not an hour") can
be modelled alongside a range check. `label` is a reserved word in Dafny, so
the label field is called `caption`.

## Model

| member | source | states |
|---|---|---|
| AlarmItem.Create | LightUpAlarm/tests/AlarmItem_test.py:52-127 | construction yields an alarm exactly when hour is an integer in 0..23 and minute an integer in 0..59; the alarm built holds the given time, days, enabled flag, label, timestamp and id |
| AlarmItem.CreateAt | LightUpAlarm/tests/AlarmItem_test.py:61-68 | the minimal construction holds the given hour and minute, has no repeat day, has an empty label and has no timestamp; it is also enabled and has no id, which the tests do not check (see Left out) |
| AlarmItem.SetHour | LightUpAlarm/tests/AlarmItem_test.py:129-190 | an integer hour in 0..23 is stored; anything else (24, -2, a float, a text) leaves the hour as it was; no other field changes |
| AlarmItem.SetMinute | LightUpAlarm/tests/AlarmItem_test.py:129-190 | an integer minute in 0..59 is stored; anything else (60, -1, a float, a text) leaves the minute as it was; no other field changes |
| AlarmItem.SetRepeat | LightUpAlarm/tests/AlarmItem_test.py:192-229 | seven booleans are stored together; a tuple of the wrong length or with a non-boolean element leaves the whole pattern unchanged |
| AlarmItem.SetDay | LightUpAlarm/tests/AlarmItem_test.py:251-337 | a per-weekday setter stores a boolean for that day only; a text, an integer or a float is rejected and the day keeps its flag |
| AlarmItem.SetId | LightUpAlarm/tests/AlarmItem_test.py:339-367 | a non-negative integer id is stored; a negative number, a text or a float is rejected and the previous id kept |
| AlarmItem.SetTimestamp | LightUpAlarm/tests/AlarmItem_test.py:396-426 | a non-negative integer timestamp is stored; a negative number, a text or a float is rejected and the previous timestamp kept |
| AlarmItem.SetCaption | LightUpAlarm/tests/AlarmItem_test.py:369-381 | the label setter never rejects and changes only the label |
| AlarmItem.AnyDayEnabled | LightUpAlarm/tests/AlarmItem_test.py:470-476 | true exactly when some repeat flag is set; false exactly when all seven are clear |
| AlarmItem.CreateAgreesWithSetters | LightUpAlarm/tests/AlarmItem_test.py:96-159 | the constructor and the hour/minute setters accept the same times: re-timing a constructed alarm through the setters gives the alarm constructed with the accepted time |
| AlarmItem.SetRepeatIsSevenDaySets | LightUpAlarm/tests/AlarmItem_test.py:215-267 | a valid repeat assignment equals the seven per-day assignments; an invalid one changes nothing, whereas the seven per-day assignments store every boolean among the values and keep the old flag exactly where the value is not a boolean, changing no other field |
| AlarmItem.LastValidAssignmentWins | LightUpAlarm/tests/AlarmItem_test.py:139-159 | after two assignments to the hour, minute, id or timestamp, the field holds the last accepted value |
| AlarmItem.ConstructorExamples | LightUpAlarm/tests/AlarmItem_test.py:96-127 | 23:60, 23:-50, 24:59, -12:59, 24:60 and -16:-45 yield no alarm; 23:59 yields one with no repeat day |
| AlarmItem.SetterExamples | LightUpAlarm/tests/AlarmItem_test.py:129-426 | the rejected hour, minute, repeat, id and timestamp assignments of the tests leave 12:34, the valid pattern, id 10 and timestamp 10 in place |
| Week.RotateForward | LightUpAlarm/tests/AlarmItem_test.py:567-581 | the flag of day i moves to day i+1 mod 7 |
| Week.RotateBackward | LightUpAlarm/tests/AlarmItem_test.py:583-597 | the flag of day i moves to day i-1 mod 7 |
| Week.RotateRoundTrip | LightUpAlarm/tests/AlarmItem_test.py:567-597 | the forward and backward rotations undo each other |
| Week.RotatePreservesDays | LightUpAlarm/tests/AlarmItem_test.py:567-597 | a rotation keeps the number of enabled days (the multiset of flags) |
| Alert.DaysAhead | LightUpAlarm/tests/AlarmItem_test.py:440-459 | the search for the next enabled day returns the first enabled day ahead of today, wrapping to today after seven days |
| Alert.MinutesToAlert | LightUpAlarm/tests/AlarmItem_test.py:433-459 | for a valid current time the result lies in 0 .. 7*1440-1 |
| Alert.MinutesToAlertIsNearest | LightUpAlarm/tests/AlarmItem_test.py:433-459 | the result is the minimum, over enabled days, of the forward distance round the week to that day's alarm time; it equals the same-day difference when today is enabled and that difference is not negative |
| Alert.MinutesToAlertIsFirstFiring | LightUpAlarm/tests/AlarmItem_test.py:433-459 | the alarm is due at now + result, and at no earlier minute from now on |
| Alert.MinutesToAlertExamples | LightUpAlarm/tests/AlarmItem_test.py:428-459 | the expected values 0, 1, 815, 1440, 2880, 2879, 4321, 3255, 10079, 8396 and 7515 |
| Derive.ShiftTime | LightUpAlarm/tests/AlarmItem_test.py:539-597 | carrying the shifted minute into the hour and the hour into the day gives the time (minutes + offset) mod 1440, with the day carry equal to (minutes + offset) div 1440 |
| Derive.DiffAlarm | LightUpAlarm/tests/AlarmItem_test.py:478-597 | an alarm is derived exactly for offsets in -59..59; its time is (original + offset) mod 1440; its pattern is unchanged within the day and rotated forward or backward across midnight; enabled is copied; the label gains " (Alarm <id> <signed offset>min)"; id and timestamp are unset |
| Derive.DiffAlarmGiven | LightUpAlarm/tests/AlarmItem_test.py:599-623 | 0 is accepted; -60, 60, a float and a text derive nothing |
| Derive.DiffSuffixReadsBack | LightUpAlarm/tests/AlarmItem_test.py:502-503 | the label suffix ` (Alarm %s %+dmin)` (`Derive.DiffSuffix`) starts with ` (Alarm ` and ends with `min)`; the id reads back from the text before the separating space (`None` when unset), and the signed offset parses back from the numeral after it |
| Derive.IdText | LightUpAlarm/tests/AlarmItem_test.py:502-503 | the id in the derived label is a canonical numeral (no leading zero unless the id is 0) that reads back as the id; an unset id reads "None" |
| Derive.DiffAlarmShiftsFiring | LightUpAlarm/tests/AlarmItem_test.py:491-597 | the derived alarm is due at week minute w exactly when the original is due at w - offset, round the week |
| Derive.DiffAlarmRoundTrip | LightUpAlarm/tests/AlarmItem_test.py:539-597 | deriving with the offset and then with its opposite restores hour, minute, repeat pattern and enabled flag |
| Derive.DiffAlarmLabelExample | LightUpAlarm/tests/AlarmItem_test.py:491-509 | 9:30 shifted by -15 gives 9:15 with the same days, label "test label (Alarm 98 -15min)", and an id and timestamp unlike the original's |
| Derive.DiffAlarmTimeExamples | LightUpAlarm/tests/AlarmItem_test.py:511-565 | 9:30+15 gives 9:45, 14:10+59 gives 15:09 and 14:10-59 gives 13:11, with the pattern unchanged |
| Derive.DiffAlarmMidnightExamples | LightUpAlarm/tests/AlarmItem_test.py:567-597 | 23:50+30 gives 00:20 with the pattern rotated forward, and 00:10-30 gives 23:40 with it rotated backward |
| Derive.DiffAlarmRejectionExamples | LightUpAlarm/tests/AlarmItem_test.py:599-623 | the accepted and rejected offsets of the input checks |
| Decimal.NatText | LightUpAlarm/tests/AlarmItem_test.py:502-503 | `str()` of a non-negative integer is a non-empty digit string with a leading zero only for 0 |
| Decimal.NatTextRoundTrip | LightUpAlarm/tests/AlarmItem_test.py:502-503 | the digits of `str(n)` denote n |
| Decimal.NatTextInjective | LightUpAlarm/tests/AlarmItem_test.py:502-503 | distinct numbers have distinct numerals, so alarms with different ids get different id texts in their derived labels |
| Decimal.SignedText | LightUpAlarm/tests/AlarmItem_test.py:502-503 | `%+d` puts an explicit sign ("+" for zero too) in front of the digits, which start with 0 only for the offset 0 |
| Decimal.SignedTextRoundTrip | LightUpAlarm/tests/AlarmItem_test.py:502-503 | the signed numeral parses back to the offset |
| Render.TwoDigits | LightUpAlarm/tests/AlarmItem_test.py:466 | a zero-padded two-digit field denotes its number |
| Render.ClockText | LightUpAlarm/tests/AlarmItem_test.py:466 | `HH:MM` has a colon in the middle, and its two digit pairs read back as the hour and the minute |
| Render.DayFields | LightUpAlarm/tests/AlarmItem_test.py:466-467 | the repeat column has four characters per day: the day's abbreviation when set, `---` otherwise, then a space |
| Render.RepeatText | LightUpAlarm/tests/AlarmItem_test.py:466-467 | the repeat column is 28 characters long, and the four characters of each day are that day's field: its abbreviation when set, `---` otherwise, then a space |
| Render.RepeatTextRoundTrip | LightUpAlarm/tests/AlarmItem_test.py:466-467 | the repeat pattern reads back from its rendering |
| Render.Summary | LightUpAlarm/tests/AlarmItem_test.py:461-468 | the text from `Time:` on (`__str__` without its `Alarm ID:` column) is 65 characters long for an enabled alarm and 64 for a disabled one |
| Render.SummaryReadsBack | LightUpAlarm/tests/AlarmItem_test.py:461-468 | every field reads back from the text: the hour and the minute from the two-digit fields, the enabled flag from whether `Yes` is shown, and the repeat pattern from the last 28 characters |
| Render.SummaryDeterminesFields | LightUpAlarm/tests/AlarmItem_test.py:461-468 | two alarms with the same text have the same time, enabled flag and repeat pattern |
| Render.SummaryExample | LightUpAlarm/tests/AlarmItem_test.py:461-468 | 9:30 on Mon/Thu/Sun, enabled, renders `09:30`, `Yes` and `Mon --- --- Thu --- --- Sun ` |

## Left out

- LightUpAlarm/AlarmItem.py is not part of this model. The behaviours below are assumed where the tests leave them open.
  - Derive.DiffAlarm: the derived alarm gets no id and no timestamp. The tests only show that both differ from the original's (AlarmItem_test.py:488-489).
  - Derive.IdText: an unset id shows as `None` in the derived label, as `%s` of Python's `None` does. The tests only use a set id.
  - Alert.MinutesToAlert: today is checked first, then the following days in order. The tests only fix the eleven results (AlarmItem_test.py:436-459), which the model reproduces.
- Reporting a rejected value on standard error is left out. A rejection shows only as an unchanged record or as `None`.
- Python mutates the object in place. The model returns a new record instead, because all state changes go through the setters.
- AlarmItem.SetCaption: it takes text only. Python's `str()` coercion of other values (5 → "5", True → "True", a dict's repr) depends on the language runtime.
- AlarmItem.Create: the repeat days, timestamp and id are taken already typed. Only the hour and the minute are validated at construction, which is all the tests check.
- Setting `enabled` is a plain field update. No validation of it is shown, so no setter for it is modelled.
- Float values are carried as exact reals. Binary floating point and Python's bool-is-int subclassing are not modelled; a boolean is simply not an integer here.
- Alert.MinutesToAlert: it requires `AnyDayEnabled` and a weekday in 0..6. With no day enabled the source's value is not pinned down by its test suite. A weekday outside 0..6 would be a Python index error, or a negative index.
- Alert.MinutesToAlert: the enabled flag is not consulted, as in the algorithm modelled. Deciding whether a disabled alarm fires is left to the scheduler.
- Render.Summary: the text starts at the time column. The `Alarm ID:` column's padding width is not visible in the tests.
- Render.Summary: a disabled alarm is assumed to show `No` with no padding, which gives the 64-character length. The one rendering test shows only an enabled alarm (`Yes`) with the days Mon, Thu and Sun. The abbreviations `Tue`, `Wed`, `Fri` and `Sat` are assumed.
- AlarmItem.CreateAt: the defaults `enabled = True` and `id_ = None` are assumed. The construction test (AlarmItem_test.py:61-68) checks only the time, the repeat days, the label and the timestamp.
- LightUpWeb/js/lightuppi_controller.js is an empty UI controller with no logic.
- Persistence of alarms, the scheduling daemon and light/hardware control are I/O outside the entity.
