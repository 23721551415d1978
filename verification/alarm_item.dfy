/** The alarm record: a time of day, a weekly repeat pattern, an enabled flag,
    a label (the field `caption`, as `label` is reserved in Dafny) and the
    bookkeeping `id_` and `timestamp` fields.  Every field can only hold a
    valid value: construction with an invalid time yields no alarm, and each
    setter either stores a valid value or returns the alarm unchanged. */
module AlarmItem {
  import opened Wrappers
  import opened Week

  const MinutesPerHour: int := 60
  const HoursPerDay: int := 24
  /** HoursPerDay * MinutesPerHour, written as a literal to keep the arithmetic linear. */
  const MinutesPerDay: int := 1440

  /** An hour of the day, below HoursPerDay, and a minute of the hour, below
      MinutesPerHour.  The bounds are written as literals so that the
      solver keeps arithmetic on hours and minutes linear. */
  type Hour = h: int | 0 <= h < 24
  type Minute = m: int | 0 <= m < 60

  /** A value as a caller hands it to a setter: the setters check its type
      as well as its range, so a float, a text or a boolean used as a number
      is rejected. */
  datatype Value = Bool(b: bool) | Int(i: int) | Float(x: real) | Text(s: string)

  datatype Alarm = Alarm(
    hour: Hour,
    minute: Minute,
    repeat: Days,
    enabled: bool,
    caption: string,
    id: Option<nat>,
    timestamp: Option<nat>)

  /** Minutes since midnight at which the alarm goes off. */
  function TimeOfDay(a: Alarm): (t: int)
    ensures 0 <= t < MinutesPerDay
    ensures t / MinutesPerHour == a.hour && t % MinutesPerHour == a.minute
  {
    a.hour * MinutesPerHour + a.minute
  }

  predicate IsHour(v: Value) {
    v.Int? && 0 <= v.i < HoursPerDay
  }

  predicate IsMinute(v: Value) {
    v.Int? && 0 <= v.i < MinutesPerHour
  }

  /** Accepted for `id_` and `timestamp`: a non-negative integer. */
  predicate IsCount(v: Value) {
    v.Int? && v.i >= 0
  }

  /** Accepted for `repeat`: exactly seven values, every one a boolean. */
  predicate IsDays(vs: seq<Value>) {
    |vs| == DaysPerWeek && forall i :: 0 <= i < |vs| ==> vs[i].Bool?
  }

  /** The flags carried by an accepted `repeat` value. */
  function Flags(vs: seq<Value>): (w: Days)
    requires IsDays(vs)
    ensures forall i :: 0 <= i < DaysPerWeek ==> vs[i] == Bool(w[i])
  {
    [vs[0].b, vs[1].b, vs[2].b, vs[3].b, vs[4].b, vs[5].b, vs[6].b]
  }

  /** The constructor: None when the hour or the minute is not a valid
      integer, otherwise an alarm holding exactly the given fields. */
  function Create(hour: Value, minute: Value, days: Days, enabled: bool,
                  caption: string, timestamp: Option<nat>, id: Option<nat>): (r: Option<Alarm>)
    ensures r.Some? <==> IsHour(hour) && IsMinute(minute)
    ensures r.Some? ==> TimeOfDay(r.value) == hour.i * MinutesPerHour + minute.i
    ensures r.Some? ==> r.value.repeat == days && r.value.enabled == enabled && r.value.caption == caption
    ensures r.Some? ==> r.value.timestamp == timestamp && r.value.id == id
  {
    if IsHour(hour) && IsMinute(minute) then
      Some(Alarm(hour.i, minute.i, days, enabled, caption, id, timestamp))
    else
      None
  }

  /** The constructor with only a time: no repeat day, enabled, empty label,
      no timestamp and no id. */
  function CreateAt(hour: Value, minute: Value): (r: Option<Alarm>)
    ensures r.Some? <==> IsHour(hour) && IsMinute(minute)
    ensures r.Some? ==> r.value.hour == hour.i && r.value.minute == minute.i
    ensures r.Some? ==> r.value.repeat == NoDays && r.value.enabled && r.value.caption == ""
    ensures r.Some? ==> r.value.timestamp == None && r.value.id == None
  {
    Create(hour, minute, NoDays, true, "", None, None)
  }

  function SetHour(a: Alarm, v: Value): (r: Alarm)
    ensures r.hour == (if IsHour(v) then v.i else a.hour)
    ensures r.(hour := a.hour) == a
  {
    if IsHour(v) then a.(hour := v.i) else a
  }

  function SetMinute(a: Alarm, v: Value): (r: Alarm)
    ensures r.minute == (if IsMinute(v) then v.i else a.minute)
    ensures r.(minute := a.minute) == a
  {
    if IsMinute(v) then a.(minute := v.i) else a
  }

  /** All or nothing: either the seven flags are stored together or the old
      pattern is kept in full. */
  function SetRepeat(a: Alarm, vs: seq<Value>): (r: Alarm)
    ensures IsDays(vs) ==> forall i :: 0 <= i < DaysPerWeek ==> vs[i] == Bool(r.repeat[i])
    ensures !IsDays(vs) ==> r.repeat == a.repeat
    ensures r.(repeat := a.repeat) == a
  {
    if IsDays(vs) then a.(repeat := Flags(vs)) else a
  }

  /** The per-weekday setters `monday` .. `sunday`: only a boolean is stored. */
  function SetDay(a: Alarm, day: Weekday, v: Value): (r: Alarm)
    ensures r.repeat[day] == (if v.Bool? then v.b else a.repeat[day])
    ensures forall d :: 0 <= d < DaysPerWeek && d != day ==> r.repeat[d] == a.repeat[d]
    ensures r.(repeat := a.repeat) == a
  {
    if v.Bool? then a.(repeat := a.repeat[day := v.b]) else a
  }

  function SetId(a: Alarm, v: Value): (r: Alarm)
    ensures r.id == (if IsCount(v) then Some(v.i) else a.id)
    ensures r.(id := a.id) == a
  {
    if IsCount(v) then a.(id := Some(v.i)) else a
  }

  function SetTimestamp(a: Alarm, v: Value): (r: Alarm)
    ensures r.timestamp == (if IsCount(v) then Some(v.i) else a.timestamp)
    ensures r.(timestamp := a.timestamp) == a
  {
    if IsCount(v) then a.(timestamp := Some(v.i)) else a
  }

  /** The label setter never rejects. */
  function SetCaption(a: Alarm, caption: string): (r: Alarm)
    ensures r.caption == caption
    ensures r.(caption := a.caption) == a
  {
    a.(caption := caption)
  }

  function AnyDayEnabled(a: Alarm): (r: bool)
    ensures r <==> exists d :: 0 <= d < DaysPerWeek && a.repeat[d]
    ensures !r <==> a.repeat == NoDays
  {
    true in a.repeat
  }

  /** The constructor and the setters accept exactly the same times: a
      constructed alarm re-timed through the setters is the alarm constructed
      with the new time, and a rejected time leaves it as constructed. */
  lemma CreateAgreesWithSetters(h0: Value, m0: Value, h: Value, m: Value, days: Days,
                                enabled: bool, caption: string, timestamp: Option<nat>, id: Option<nat>)
    requires IsHour(h0) && IsMinute(m0)
    ensures var a := Create(h0, m0, days, enabled, caption, timestamp, id).value;
            var b := SetMinute(SetHour(a, h), m);
            Some(b) == Create(if IsHour(h) then h else h0, if IsMinute(m) then m else m0,
                              days, enabled, caption, timestamp, id)
  {
  }

  /** The seven per-weekday setters applied in turn, Monday to Sunday. */
  function SevenDaySets(a: Alarm, vs: seq<Value>): Alarm
    requires |vs| == DaysPerWeek
  {
    SetDay(SetDay(SetDay(SetDay(SetDay(SetDay(SetDay(a, 0, vs[0]), 1, vs[1]), 2, vs[2]), 3, vs[3]), 4, vs[4]), 5, vs[5]), 6, vs[6])
  }

  /** Setting the repeat pattern is the same as setting the seven days one by
      one when every value is a boolean.  Otherwise it changes nothing, while
      the per-day setters still store every boolean among the values and keep
      the old flag only where the value is not a boolean. */
  lemma SetRepeatIsSevenDaySets(a: Alarm, vs: seq<Value>)
    requires |vs| == DaysPerWeek
    ensures IsDays(vs) ==> SetRepeat(a, vs) == SevenDaySets(a, vs)
    ensures !IsDays(vs) ==> SetRepeat(a, vs) == a
    ensures forall i :: 0 <= i < DaysPerWeek ==>
              SevenDaySets(a, vs).repeat[i] == (if vs[i].Bool? then vs[i].b else a.repeat[i])
    ensures SevenDaySets(a, vs).(repeat := a.repeat) == a
  {
    var a1 := SetDay(a, 0, vs[0]);
    var a2 := SetDay(a1, 1, vs[1]);
    var a3 := SetDay(a2, 2, vs[2]);
    var a4 := SetDay(a3, 3, vs[3]);
    var a5 := SetDay(a4, 4, vs[4]);
    var a6 := SetDay(a5, 5, vs[5]);
    var b := SetDay(a6, 6, vs[6]);
    forall i | 0 <= i < DaysPerWeek
      ensures b.repeat[i] == (if vs[i].Bool? then vs[i].b else a.repeat[i])
    {
      if i == 0 { assert b.repeat[i] == a1.repeat[i]; }
      else if i == 1 { assert b.repeat[i] == a2.repeat[i]; }
      else if i == 2 { assert b.repeat[i] == a3.repeat[i]; }
      else if i == 3 { assert b.repeat[i] == a4.repeat[i]; }
      else if i == 4 { assert b.repeat[i] == a5.repeat[i]; }
      else if i == 5 { assert b.repeat[i] == a6.repeat[i]; }
    }
    if IsDays(vs) {
      assert b.repeat == SetRepeat(a, vs).repeat;
    }
  }

  /** A rejected assignment is idempotent and an accepted one is overwritten
      by the next accepted one, field by field. */
  lemma LastValidAssignmentWins(a: Alarm, v: Value, w: Value)
    ensures IsHour(w) ==> SetHour(SetHour(a, v), w) == SetHour(a, w)
    ensures !IsHour(w) ==> SetHour(SetHour(a, v), w) == SetHour(a, v)
    ensures IsMinute(w) ==> SetMinute(SetMinute(a, v), w) == SetMinute(a, w)
    ensures !IsMinute(w) ==> SetMinute(SetMinute(a, v), w) == SetMinute(a, v)
    ensures IsCount(w) ==> SetId(SetId(a, v), w) == SetId(a, w)
    ensures !IsCount(w) ==> SetId(SetId(a, v), w) == SetId(a, v)
    ensures IsCount(w) ==> SetTimestamp(SetTimestamp(a, v), w) == SetTimestamp(a, w)
    ensures !IsCount(w) ==> SetTimestamp(SetTimestamp(a, v), w) == SetTimestamp(a, v)
  {
  }

  /** The constructor examples: every out-of-range time yields no alarm, and
      the minimal construction has no repeat day, an empty caption and no
      timestamp. */
  lemma ConstructorExamples()
    ensures CreateAt(Int(23), Int(60)).None? && CreateAt(Int(23), Int(-50)).None?
    ensures CreateAt(Int(24), Int(59)).None? && CreateAt(Int(-12), Int(59)).None?
    ensures CreateAt(Int(24), Int(60)).None? && CreateAt(Int(-16), Int(-45)).None?
    ensures var a := CreateAt(Int(23), Int(59));
            a.Some? && a.value.hour == 23 && a.value.minute == 59 && !AnyDayEnabled(a.value)
  {
  }

  /** The setter examples: invalid hours, minutes and repeat patterns leave
      the stored values as they were. */
  lemma SetterExamples()
    ensures var a := CreateAt(Int(0), Int(1)).value;
            var b := SetMinute(SetHour(a, Int(12)), Int(34));
            var c := SetHour(SetHour(SetMinute(SetMinute(b, Int(60)), Int(-1)), Int(24)), Int(-2));
            var d := SetMinute(SetHour(SetMinute(SetHour(c, Float(12.34)), Float(34.56)), Text("minutes")), Text("hours"));
            c.hour == 12 && c.minute == 34 && d == c
    ensures var valid := [Bool(false), Bool(true), Bool(true), Bool(false), Bool(false), Bool(false), Bool(false)];
            var a := SetRepeat(CreateAt(Int(0), Int(0)).value, valid);
            a.repeat == [false, true, true, false, false, false, false] &&
            SetRepeat(a, [Bool(false), Bool(false), Bool(false), Bool(false), Bool(false), Bool(false), Bool(false), Bool(false)]) == a &&
            SetRepeat(a, [Bool(true), Bool(true), Bool(true), Bool(true), Bool(true), Bool(true)]) == a &&
            SetRepeat(a, [Bool(true), Bool(true), Bool(true), Int(0), Bool(true), Bool(true), Bool(true)]) == a
    ensures var a := SetId(CreateAt(Int(0), Int(0)).value, Int(10));
            a.id == Some(10) && SetId(a, Int(-2)) == a && SetId(a, Text("String")) == a && SetId(a, Float(10.4)) == a
    ensures var a := SetTimestamp(CreateAt(Int(0), Int(0)).value, Int(10));
            a.timestamp == Some(10) && SetTimestamp(a, Int(-2)) == a && SetTimestamp(a, Text("String")) == a
            && SetTimestamp(a, Float(10.4)) == a
  {
  }
}
