/** Temporal resolution of the forecast email: the zoned "current date", the
    one-day look-ahead to the start date, and the weekday classification
    (ISO 8601 day-of-week numbering, Monday = 1 ... Sunday = 7). */
module Temporal {

  /** An ISO 8601 day-of-week number (section 3.2.2 of ISO 8601:2004). */
  type IsoWeekday = w: int | 1 <= w <= 7 witness 1

  /** A date already bound to the place's timezone and the subscriber's
      language. Of such a date this model observes only its ISO weekday;
      the instant, the locale and the textual formatting are left to the
      date library. */
  datatype ZonedDate = ZonedDate(isoWeekday: IsoWeekday)

  /** The `weekday` helper: the ISO weekday of a zoned date. */
  function Weekday(d: ZonedDate): (r: int)
    ensures 1 <= r <= 7
  {
    d.isoWeekday
  }

  /** `date.clone().add(1, 'd')`: the same wall-clock time one calendar day
      later, seen only through its weekday. */
  function AddOneDay(d: ZonedDate): (r: ZonedDate)
    ensures Weekday(d) < 7 ==> Weekday(r) == Weekday(d) + 1
    ensures Weekday(d) == 7 ==> Weekday(r) == 1
  {
    ZonedDate(d.isoWeekday % 7 + 1)
  }

  /** JavaScript's `Array.prototype.indexOf`: the first position of `x` in
      `s`, or -1 when `x` does not occur. */
  function IndexOf(s: seq<int>, x: int): (r: int)
    ensures -1 <= r < |s|
    ensures r == -1 <==> x !in s
    ensures 0 <= r ==> s[r] == x && forall j | 0 <= j < r :: s[j] != x
  {
    if s == [] then -1
    else if s[0] == x then 0
    else
      var k := IndexOf(s[1..], x);
      if k == -1 then -1 else k + 1
  }

  /** The `isWeekend` helper: `[5, 6].indexOf(weekday(date)) > -1`. With
      Monday = 1 this is Friday and Saturday. */
  function IsWeekend(d: ZonedDate): (r: bool)
    ensures r <==> Weekday(d) == 5 || Weekday(d) == 6
  {
    IndexOf([5, 6], Weekday(d)) > -1
  }

  /** The `isWeekstart` helper: `[1].indexOf(weekday(date)) > -1`, Monday. */
  function IsWeekstart(d: ZonedDate): (r: bool)
    ensures r <==> Weekday(d) == 1
  {
    IndexOf([1], Weekday(d)) > -1
  }

  /** A date is never both in the weekend and the start of the week. */
  lemma WeekendExcludesWeekstart(d: ZonedDate)
    ensures !(IsWeekend(d) && IsWeekstart(d))
  {
  }

  /** The flags are computed on the day after `current`: a weekend start
      date means the email is built on a Thursday or a Friday, a week-start
      date means it is built on a Sunday. */
  lemma LookAheadFlags(current: ZonedDate)
    ensures IsWeekend(AddOneDay(current)) <==> Weekday(current) == 4 || Weekday(current) == 5
    ensures IsWeekstart(AddOneDay(current)) <==> Weekday(current) == 7
  {
  }
}
