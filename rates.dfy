/**
 * Hourly price points and the calendar arithmetic the scheduler needs.
 *
 * A timestamp is a whole number of minutes since a fixed midnight; its
 * calendar date is the number of whole days before it and its time of day
 * the minutes left over. Dafny's `/` and `%` round towards minus infinity for
 * a positive divisor, which is what a naive datetime does before the epoch.
 */
module Rates {

  const MinutesPerHour: int := 60
  const MinutesPerDay: int := 24 * MinutesPerHour

  /** One point of the feed: the end of the hour it prices, and the price. */
  datatype RatePoint = RatePoint(time: int, price: int)

  /** Minutes since midnight of timestamp `t`. */
  function TimeOfDay(t: int): (m: int)
    ensures 0 <= m < MinutesPerDay
  {
    t % MinutesPerDay
  }

  /** The calendar date (day number) of timestamp `t`. */
  function DateOf(t: int): int
  {
    t / MinutesPerDay
  }

  /** The timestamp at time of day `tod` on date `d` (datetime.combine). */
  function Combine(d: int, tod: int): int
  {
    d * MinutesPerDay + tod
  }

  /** The hour field of a timestamp. */
  function Hour(t: int): (h: int)
    ensures 0 <= h < 24
  {
    TimeOfDay(t) / MinutesPerHour
  }

  /** The minute field of a timestamp. */
  function Minute(t: int): (m: int)
    ensures 0 <= m < MinutesPerHour
  {
    TimeOfDay(t) % MinutesPerHour
  }

  /** A timestamp is its date and its time of day put back together. */
  lemma DateAndTimeOfDay(t: int)
    ensures Combine(DateOf(t), TimeOfDay(t)) == t
    ensures Hour(t) * MinutesPerHour + Minute(t) == TimeOfDay(t)
  {
  }

  /** Combining a date with a time of day gives back exactly that date and time of day. */
  lemma CombineSplits(d: int, tod: int)
    requires 0 <= tod < MinutesPerDay
    ensures DateOf(Combine(d, tod)) == d
    ensures TimeOfDay(Combine(d, tod)) == tod
  {
    DateAndTimeOfDay(Combine(d, tod));
  }

  /** A timestamp on an earlier date is earlier. */
  lemma DateOrder(t: int, u: int)
    requires DateOf(t) < DateOf(u)
    ensures t < u
  {
    DateAndTimeOfDay(t);
    DateAndTimeOfDay(u);
  }

  /** Every later point has a later timestamp. */
  ghost predicate Increasing(rs: seq<RatePoint>)
  {
    forall i, j :: 0 <= i < j < |rs| ==> rs[i].time < rs[j].time
  }

  /** Consecutive points are exactly one hour apart. */
  ghost predicate Hourly(rs: seq<RatePoint>)
  {
    forall i :: 0 <= i < |rs| - 1 ==> rs[i + 1].time == rs[i].time + MinutesPerHour
  }

  /** In an hourly series, points `j - i` places apart are `j - i` hours apart. */
  lemma {:induction false} HourlyDistance(rs: seq<RatePoint>, i: int, j: int)
    requires Hourly(rs)
    requires 0 <= i <= j < |rs|
    ensures rs[j].time == rs[i].time + (j - i) * MinutesPerHour
  {
    if i < j {
      HourlyDistance(rs, i, j - 1);
      assert rs[j].time == rs[j - 1].time + MinutesPerHour;
    }
  }

  /** In an increasing series of whole-minute timestamps, points `j - i` places apart are at least `j - i` minutes apart. */
  lemma {:induction false} IncreasingDistance(rs: seq<RatePoint>, i: int, j: int)
    requires Increasing(rs)
    requires 0 <= i <= j < |rs|
    ensures rs[j].time >= rs[i].time + (j - i)
  {
    if i < j {
      IncreasingDistance(rs, i, j - 1);
      assert rs[j - 1].time < rs[j].time;
    }
  }

  /** An hourly series is increasing. */
  lemma HourlyIsIncreasing(rs: seq<RatePoint>)
    requires Hourly(rs)
    ensures Increasing(rs)
  {
    forall i, j | 0 <= i < j < |rs|
      ensures rs[i].time < rs[j].time
    {
      HourlyDistance(rs, i, j);
    }
  }
}
