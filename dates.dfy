/** Dates as the components handle them: date text (`YYYY-MM-DD` from date
    inputs, or whatever a CSV cell holds) turned into a time value in
    milliseconds by `new Date(text)`. That conversion is a parameter of type
    `TimeOf`; `None` is an Invalid Date. */
module Dates {
  import opened Common

  /** `new Date(text).getTime()`, or `None` when the text is not a date. */
  type TimeOf = string -> Option<int>

  /** `1000 * 60 * 60 * 24`. */
  const MsPerDay: int := 86400000

  function Abs(x: int): (r: nat)
    ensures r == x || r == -x
  {
    if x < 0 then -x else x
  }

  /** `Math.ceil(gap / MsPerDay)` for a non-negative gap: the least number of
      whole days that covers it. */
  function DaysCovering(gap: nat): (r: nat)
    ensures r * MsPerDay >= gap
    ensures r == 0 || (r - 1) * MsPerDay < gap
  {
    (gap + MsPerDay - 1) / MsPerDay
  }

  /** The time of a date as a sort key, as `new Date(a.date) - new Date(b.date)`
      compares it; a missing or invalid date sorts as time 0. */
  function TimeKey(date: Option<string>, timeOf: TimeOf): real
  {
    if date.Some? && timeOf(date.value).Some? then timeOf(date.value).value as real else 0.0
  }

  /** `calculateFlockAge(date)`: without a cycle start date the age is 1;
      otherwise it is the number of whole days, rounded up, between the
      start date and `date`, in either direction. `None` is `NaN`, produced
      when either text is not a date. */
  function FlockAge(startDate: Option<string>, date: string, timeOf: TimeOf): (r: Option<int>)
    ensures startDate.None? || startDate.value == "" ==> r == Some(1)
    ensures startDate.Some? && startDate.value != "" ==>
      (r.Some? <==> timeOf(startDate.value).Some? && timeOf(date).Some?)
    ensures r.Some? && startDate.Some? && startDate.value != "" ==>
      var gap := Abs(timeOf(date).value - timeOf(startDate.value).value);
      r.value >= 0 && r.value * MsPerDay >= gap && (r.value == 0 || (r.value - 1) * MsPerDay < gap)
  {
    if startDate.None? || startDate.value == "" then Some(1)
    else match (timeOf(startDate.value), timeOf(date))
      case (Some(s), Some(d)) => Some(DaysCovering(Abs(d - s)))
      case _ => None
  }

  /** The age does not depend on which of the two dates comes first. */
  lemma FlockAgeSymmetric(start: string, date: string, timeOf: TimeOf)
    requires start != "" && date != ""
    ensures FlockAge(Some(start), date, timeOf) == FlockAge(Some(date), start, timeOf)
  {
    match (timeOf(start), timeOf(date))
    case (Some(s), Some(d)) => assert Abs(d - s) == Abs(s - d);
    case _ =>
  }

  /** Dates exactly `n` days apart are `n` days apart. */
  lemma {:induction false} FlockAgeWholeDays(start: string, date: string, timeOf: TimeOf, n: nat)
    requires start != ""
    requires timeOf(start).Some? && timeOf(date).Some?
    requires timeOf(date).value == timeOf(start).value + n * MsPerDay
    ensures FlockAge(Some(start), date, timeOf) == Some(n)
  {
    assert DaysCovering(n * MsPerDay) == n;
  }
}
