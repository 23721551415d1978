/** Minutes until an alarm next goes off, on a week that wraps from Sunday
    night back to Monday morning. */
module Alert {
  import opened Wrappers
  import opened Week
  import opened AlarmItem

  /** DaysPerWeek * MinutesPerDay, written as a literal to keep the arithmetic linear. */
  const MinutesPerWeek: int := 10080

  /** Minute of the week, counted from Monday 00:00. */
  function WeekMinute(weekday: Weekday, hour: int, minute: int): int {
    weekday * MinutesPerDay + hour * MinutesPerHour + minute
  }

  /** The week minute `s` minutes after week minute `w`, wrapping round the week. */
  function MinuteAfter(w: int, s: int): (u: int)
    ensures 0 <= u < MinutesPerWeek
  {
    (w + s) % MinutesPerWeek
  }

  /** A pattern `days` with time of day `time` is due at week minute `w`. */
  predicate ScheduledAt(days: Days, time: int, w: int) {
    0 <= w < MinutesPerWeek && days[w / MinutesPerDay] && w % MinutesPerDay == time
  }

  /** The repeat pattern schedules the alarm at week minute `w`. */
  predicate FiresAt(a: Alarm, w: int) {
    ScheduledAt(a.repeat, TimeOfDay(a), w)
  }

  /** Minutes from week minute `now` forward to the alarm's time on `day`. */
  function Distance(a: Alarm, now: int, day: Weekday): int {
    (day * MinutesPerDay + TimeOfDay(a) - now) % MinutesPerWeek
  }

  /** The first of the days `k`, `k` + 1, .. 7 after `today` whose flag is set. */
  function DaysAhead(w: Days, today: Weekday, k: int): (r: int)
    requires 1 <= k <= 7
    requires exists j :: k <= j <= 7 && w[DayAfter(today, j)]
    ensures k <= r <= 7 && w[DayAfter(today, r)]
    ensures forall j :: k <= j < r ==> !w[DayAfter(today, j)]
    decreases 7 - k
  {
    if w[DayAfter(today, k)] then k else DaysAhead(w, today, k + 1)
  }

  /** With some day enabled, one of the next seven days (today again last) is enabled. */
  lemma SomeDayAhead(a: Alarm, today: Weekday)
    requires AnyDayEnabled(a)
    ensures exists j :: 1 <= j <= 7 && a.repeat[DayAfter(today, j)]
  {
    var d :| 0 <= d < 7 && a.repeat[d];
    var j := if d > today then d - today else d - today + 7;
    assert DayAfter(today, j) == d;
  }

  /** `minutes_to_alert`: fires later today (or now) when today is enabled and
      the alarm time has not passed; otherwise the first enabled day ahead,
      counting whole days plus the minute difference of the two times. */
  function MinutesToAlert(a: Alarm, hour: int, minute: int, weekday: Weekday): (r: int)
    requires AnyDayEnabled(a)
    ensures 0 <= hour < HoursPerDay && 0 <= minute < MinutesPerHour ==> 0 <= r < MinutesPerWeek
  {
    var delta := TimeOfDay(a) - (hour * MinutesPerHour + minute);
    if delta >= 0 && a.repeat[weekday] then
      delta
    else
      SomeDayAhead(a, weekday);
      var ahead := DaysAhead(a.repeat, weekday, 1);
      (ahead - 1) * MinutesPerDay + delta + MinutesPerDay
  }

  /** The distance to `day` in terms of how many days ahead of today it is. */
  lemma DistanceByDaysAhead(a: Alarm, hour: int, minute: int, weekday: Weekday, day: Weekday)
    requires 0 <= hour < HoursPerDay && 0 <= minute < MinutesPerHour
    ensures var k := (day - weekday) % 7;
            var delta := TimeOfDay(a) - (hour * MinutesPerHour + minute);
            && DayAfter(weekday, k) == day
            && Distance(a, WeekMinute(weekday, hour, minute), day)
               == if k == 0 && delta < 0 then 7 * MinutesPerDay + delta else k * MinutesPerDay + delta
  {
    var delta := TimeOfDay(a) - (hour * MinutesPerHour + minute);
    var x := day * MinutesPerDay + TimeOfDay(a) - WeekMinute(weekday, hour, minute);
    assert x == (day - weekday) * MinutesPerDay + delta;
    if day < weekday {
      assert (day - weekday) % 7 == day - weekday + 7;
    }
  }

  /** No enabled day is nearer than the result. */
  lemma NoEnabledDayNearer(a: Alarm, hour: int, minute: int, weekday: Weekday, day: Weekday)
    requires AnyDayEnabled(a) && a.repeat[day]
    requires 0 <= hour < HoursPerDay && 0 <= minute < MinutesPerHour
    ensures MinutesToAlert(a, hour, minute, weekday) <= Distance(a, WeekMinute(weekday, hour, minute), day)
  {
    var delta := TimeOfDay(a) - (hour * MinutesPerHour + minute);
    DistanceByDaysAhead(a, hour, minute, weekday, day);
    if !(delta >= 0 && a.repeat[weekday]) {
      SomeDayAhead(a, weekday);
      var ahead := DaysAhead(a.repeat, weekday, 1);
      var k := (day - weekday) % 7;
      assert k == 0 || ahead <= k;
    }
  }

  /** The distance to the day `ahead` days after today, when that is not
      today with its time already past. */
  lemma DistanceAhead(a: Alarm, hour: int, minute: int, weekday: Weekday, ahead: int)
    requires 0 <= hour < HoursPerDay && 0 <= minute < MinutesPerHour && 1 <= ahead <= 7
    requires ahead == 7 ==> TimeOfDay(a) - (hour * MinutesPerHour + minute) < 0
    ensures Distance(a, WeekMinute(weekday, hour, minute), DayAfter(weekday, ahead))
            == ahead * MinutesPerDay + TimeOfDay(a) - (hour * MinutesPerHour + minute)
  {
    var day := DayAfter(weekday, ahead);
    DistanceByDaysAhead(a, hour, minute, weekday, day);
    assert (day - weekday) % 7 == ahead % 7;
  }

  /** The result is the distance to an enabled day. */
  lemma ReachesEnabledDay(a: Alarm, hour: int, minute: int, weekday: Weekday) returns (day: Weekday)
    requires AnyDayEnabled(a)
    requires 0 <= hour < HoursPerDay && 0 <= minute < MinutesPerHour
    ensures a.repeat[day]
    ensures MinutesToAlert(a, hour, minute, weekday) == Distance(a, WeekMinute(weekday, hour, minute), day)
  {
    var delta := TimeOfDay(a) - (hour * MinutesPerHour + minute);
    if delta >= 0 && a.repeat[weekday] {
      day := weekday;
      DistanceByDaysAhead(a, hour, minute, weekday, day);
    } else {
      SomeDayAhead(a, weekday);
      var ahead := DaysAhead(a.repeat, weekday, 1);
      day := DayAfter(weekday, ahead);
      assert ahead == 7 ==> day == weekday;
      DistanceAhead(a, hour, minute, weekday, ahead);
    }
  }

  /** The result is the distance to some enabled day and to no enabled day
      is the distance shorter; when today is enabled and its time is still
      ahead (or now), the result is that same-day difference. */
  lemma MinutesToAlertIsNearest(a: Alarm, hour: int, minute: int, weekday: Weekday)
    requires AnyDayEnabled(a)
    requires 0 <= hour < HoursPerDay && 0 <= minute < MinutesPerHour
    ensures var r := MinutesToAlert(a, hour, minute, weekday);
            var now := WeekMinute(weekday, hour, minute);
            && (exists d :: 0 <= d < 7 && a.repeat[d] && r == Distance(a, now, d))
            && (forall d :: 0 <= d < 7 && a.repeat[d] ==> r <= Distance(a, now, d))
    ensures var delta := TimeOfDay(a) - (hour * MinutesPerHour + minute);
            a.repeat[weekday] && delta >= 0 ==> MinutesToAlert(a, hour, minute, weekday) == delta
  {
    var day := ReachesEnabledDay(a, hour, minute, weekday);
    forall d | 0 <= d < 7 && a.repeat[d]
      ensures MinutesToAlert(a, hour, minute, weekday) <= Distance(a, WeekMinute(weekday, hour, minute), d)
    {
      NoEnabledDayNearer(a, hour, minute, weekday, d);
    }
  }

  /** Going forward from `now` by the distance to `day` lands on the alarm's
      minute of that day. */
  lemma DistanceReachesDay(a: Alarm, now: int, day: Weekday)
    requires 0 <= now < MinutesPerWeek
    ensures MinuteAfter(now, Distance(a, now, day)) == day * MinutesPerDay + TimeOfDay(a)
  {
  }

  /** A firing `s` minutes from now is at least as far as the distance to its day. */
  lemma DistanceAtMost(a: Alarm, now: int, s: int)
    requires 0 <= now < MinutesPerWeek && 0 <= s < MinutesPerWeek
    requires FiresAt(a, MinuteAfter(now, s))
    ensures Distance(a, now, MinuteAfter(now, s) / MinutesPerDay) <= s
  {
    var u := MinuteAfter(now, s);
    assert u == u / MinutesPerDay * MinutesPerDay + TimeOfDay(a);
  }

  /** A distance to an enabled day that no enabled day's distance undercuts
      is the first minute from `now` at which the alarm is due. */
  lemma NearestIsFirstFiring(a: Alarm, now: int, r: int, day: Weekday)
    requires 0 <= now < MinutesPerWeek && 0 <= r < MinutesPerWeek
    requires a.repeat[day] && r == Distance(a, now, day)
    requires forall d :: 0 <= d < 7 && a.repeat[d] ==> r <= Distance(a, now, d)
    ensures FiresAt(a, MinuteAfter(now, r))
    ensures forall s :: 0 <= s < r ==> !FiresAt(a, MinuteAfter(now, s))
  {
    DistanceReachesDay(a, now, day);
    forall s | 0 <= s < r
      ensures !FiresAt(a, MinuteAfter(now, s))
    {
      if FiresAt(a, MinuteAfter(now, s)) {
        DistanceAtMost(a, now, s);
        assert false;
      }
    }
  }

  /** `minutes_to_alert` is the first minute from now, inclusive, at which the
      repeat pattern makes the alarm go off. */
  lemma MinutesToAlertIsFirstFiring(a: Alarm, hour: int, minute: int, weekday: Weekday)
    requires AnyDayEnabled(a)
    requires 0 <= hour < HoursPerDay && 0 <= minute < MinutesPerHour
    ensures var r := MinutesToAlert(a, hour, minute, weekday);
            var now := WeekMinute(weekday, hour, minute);
            && FiresAt(a, MinuteAfter(now, r))
            && forall s :: 0 <= s < r ==> !FiresAt(a, MinuteAfter(now, s))
  {
    var r := MinutesToAlert(a, hour, minute, weekday);
    var now := WeekMinute(weekday, hour, minute);
    var day := ReachesEnabledDay(a, hour, minute, weekday);
    MinutesToAlertIsNearest(a, hour, minute, weekday);
    NearestIsFirstFiring(a, now, r, day);
  }

  /** The expected values of the time-to-alarm examples. */
  lemma MinutesToAlertExamples()
    ensures var a := Create(Int(9), Int(30), [true, false, false, true, false, false, false], true, "", None, None).value;
            && MinutesToAlert(a, 9, 30, 0) == 0
            && MinutesToAlert(a, 9, 29, 0) == 1
            && MinutesToAlert(a, 19, 55, 2) == 815
            && MinutesToAlert(a, 9, 30, 2) == MinutesPerDay
            && MinutesToAlert(a, 9, 30, 1) == 2 * MinutesPerDay
            && MinutesToAlert(a, 9, 31, 1) == 2 * MinutesPerDay - 1
            && MinutesToAlert(a, 9, 29, 4) == 3 * MinutesPerDay + 1
            && MinutesToAlert(a, 3, 15, 1) == 2 * MinutesPerDay + 6 * 60 + 15
    ensures var a := Create(Int(9), Int(30), [true, false, false, false, false, false, false], true, "", None, None).value;
            && MinutesToAlert(a, 9, 31, 0) == 7 * MinutesPerDay - 1
            && MinutesToAlert(a, 13, 34, 1) == 5 * MinutesPerDay + 19 * 60 + 56
            && MinutesToAlert(a, 4, 15, 2) == 5 * MinutesPerDay + 5 * 60 + 15
  {
  }
}
