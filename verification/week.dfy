/** The seven-day repeat pattern of an alarm, indexed Monday = 0 .. Sunday = 6. */
module Week {

  const DaysPerWeek: int := 7

  /** Monday = 0 .. Sunday = 6: a day below DaysPerWeek. */
  type Weekday = d: int | 0 <= d < 7

  /** One flag per weekday, DaysPerWeek in all. */
  type Days = s: seq<bool> | |s| == 7 witness [false, false, false, false, false, false, false]

  /** The pattern of an alarm that repeats on no day. */
  const NoDays: Days := [false, false, false, false, false, false, false]

  /** The weekday `k` days after `day`, wrapping from Sunday to Monday. */
  function DayAfter(day: Weekday, k: int): Weekday {
    (day + k) % DaysPerWeek
  }

  /** Moves every flag one day later: what was set on day i is set on day i + 1 (mod 7). */
  function RotateForward(w: Days): (r: Days)
    ensures forall i :: 0 <= i < 7 ==> r[(i + 1) % 7] == w[i]
  {
    [w[6]] + w[..6]
  }

  /** Moves every flag one day earlier: what was set on day i is set on day i - 1 (mod 7). */
  function RotateBackward(w: Days): (r: Days)
    ensures forall i :: 0 <= i < 7 ==> r[(i - 1) % 7] == w[i]
  {
    w[1..] + [w[0]]
  }

  /** The two rotations undo each other. */
  lemma RotateRoundTrip(w: Days)
    ensures RotateBackward(RotateForward(w)) == w
    ensures RotateForward(RotateBackward(w)) == w
  {
    assert RotateBackward(RotateForward(w)) == w[..6] + [w[6]];
    assert RotateForward(RotateBackward(w)) == [w[0]] + w[1..];
  }

  /** A rotation neither adds nor drops an enabled day. */
  lemma RotatePreservesDays(w: Days)
    ensures multiset(RotateForward(w)) == multiset(w)
    ensures multiset(RotateBackward(w)) == multiset(w)
  {
    assert w == w[..6] + [w[6]];
    assert w == [w[0]] + w[1..];
  }
}
