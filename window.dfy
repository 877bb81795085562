/**
 * Selection of the cheapest block of `ChargeHours` consecutive hours, its
 * widening over neighbouring cheap hours, and its conversion to a start and
 * an end time.
 *
 * Index `i` of the rate list prices the hour that ENDS at `rates[i].time`,
 * so the chosen block is reported as the span from one hour before
 * `rates[lo].time` to one hour before `rates[hi].time`, the hours `lo .. hi-1`.
 */
module WindowFinder {
  import opened Rates

  /** How many hours the car needs to charge. */
  const ChargeHours: nat := 4

  /** The end of the window is never earlier in the day than 09:30. */
  const AwakeUntil: int := 9 * MinutesPerHour + 30

  datatype Window = Window(start: int, end: int)

  /** The only failure: there is no candidate block (`min` over an empty range). */
  datatype Error = NoWindow

  datatype Result<T> = Ok(value: T) | Err(error: Error)

  /** Total price of a run of points. */
  function Sum(rs: seq<RatePoint>): int
  {
    if rs == [] then 0 else rs[0].price + Sum(rs[1..])
  }

  /** Total price of the block of `ChargeHours` hours starting at index `i`. */
  function Cost(rates: seq<RatePoint>, i: nat): int
    requires i + ChargeHours <= |rates|
  {
    Sum(rates[i..i + ChargeHours])
  }

  /** Number of candidate block starts: `len(rates) - CHARGE_HOURS`, and none when that is not positive. */
  function CandidateCount(rates: seq<RatePoint>): (n: nat)
    ensures n + ChargeHours <= |rates| || n == 0
    ensures n > 0 <==> |rates| > ChargeHours
  {
    if |rates| > ChargeHours then |rates| - ChargeHours else 0
  }

  /**
   * The cost of every candidate block. The last block that would fit,
   * starting at `|rates| - ChargeHours`, is not a candidate.
   */
  method WindowCosts(rates: seq<RatePoint>) returns (windows: seq<int>)
    ensures |windows| == CandidateCount(rates)
    ensures forall i :: 0 <= i < |windows| ==> windows[i] == Cost(rates, i)
  {
    var n := CandidateCount(rates);
    var a := new int[n];
    for i := 0 to n
      invariant forall j :: 0 <= j < i ==> a[j] == Cost(rates, j)
    {
      a[i] := Sum(rates[i..i + ChargeHours]);
    }
    windows := a[..];
  }

  /** The lowest index holding the least value, the one Python's `min` with a key returns. */
  method FirstCheapest(windows: seq<int>) returns (k: nat)
    requires |windows| > 0
    ensures k < |windows|
    ensures forall j :: 0 <= j < |windows| ==> windows[k] <= windows[j]
    ensures forall j :: 0 <= j < k ==> windows[k] < windows[j]
  {
    k := 0;
    var i := 1;
    while i < |windows|
      invariant 1 <= i <= |windows|
      invariant k < i
      invariant forall j :: 0 <= j < i ==> windows[k] <= windows[j]
      invariant forall j :: 0 <= j < k ==> windows[k] < windows[j]
    {
      if windows[i] < windows[k] {
        k := i;
      }
      i := i + 1;
    }
  }

  /**
   * Where the backward widening from block start `s` stops: it takes in
   * every earlier hour priced below `maxRate` and stops at index 0 or just
   * after the nearest earlier hour that is not.
   */
  function WidenedStart(rates: seq<RatePoint>, s: nat, maxRate: int): (r: nat)
    requires s <= |rates|
    ensures r <= s
    ensures forall j :: r <= j < s ==> rates[j].price < maxRate
    ensures r == 0 || rates[r - 1].price >= maxRate
    decreases s
  {
    if s > 0 && rates[s - 1].price < maxRate then WidenedStart(rates, s - 1, maxRate) else s
  }

  /**
   * Where the forward widening from end index `e` stops. Each step tests
   * the price at the index AFTER the current end, `rates[e + 1]`, and the
   * end never passes the last index.
   */
  function WidenedEnd(rates: seq<RatePoint>, e: nat, maxRate: int): (r: nat)
    ensures e <= r
    ensures r == e || r < |rates|
    ensures forall j :: e < j <= r && j < |rates| ==> rates[j].price < maxRate
    ensures r + 1 >= |rates| || rates[r + 1].price >= maxRate
    decreases |rates| - e
  {
    if e + 1 < |rates| && rates[e + 1].price < maxRate then WidenedEnd(rates, e + 1, maxRate) else e
  }

  /**
   * The same forward widening as it was evidently meant: the hour that joins
   * the window is the one at the current end index, so that one is tested.
   */
  function WidenedEndIntended(rates: seq<RatePoint>, e: nat, maxRate: int): (r: nat)
    ensures e <= r
    ensures r == e || r < |rates|
    ensures forall j :: e <= j < r ==> rates[j].price < maxRate
    ensures r + 1 >= |rates| || rates[r].price >= maxRate
    decreases |rates| - e
  {
    if e + 1 < |rates| && rates[e].price < maxRate then WidenedEndIntended(rates, e + 1, maxRate) else e
  }

  /**
   * The forward widening as written lets in an hour priced at or above
   * `maxRate`: with prices 1, 1, 1, 1, 100, 1 for the hours ending 19:00 to
   * 24:00 and a threshold of 16, the cheapest block is hours 0..3, the end
   * index 4 moves to 5 because hour 5 is cheap, and the window then ends at
   * 23:00 and covers hour 4 (22:00 to 23:00), priced 100. The corrected loop
   * ends the window at 22:00.
   */
  lemma ForwardWideningAdmitsExpensiveHour()
    ensures var rs := [RatePoint(1140, 1), RatePoint(1200, 1), RatePoint(1260, 1), RatePoint(1320, 1),
                       RatePoint(1380, 100), RatePoint(1440, 1)];
      && CandidateCount(rs) == 2 && Cost(rs, 0) < Cost(rs, 1)
      && WidenedStart(rs, 0, 16) == 0
      && WidenedEnd(rs, 0 + ChargeHours, 16) == 5
      && WidenedStart(rs, 0, 16) <= 4 < WidenedEnd(rs, 0 + ChargeHours, 16) && rs[4].price >= 16
      && WidenedEndIntended(rs, 0 + ChargeHours, 16) == 4
      // the script's end is 23:00, where the corrected loop would give 22:00
      && AwakeFloor(rs[5].time - MinutesPerHour) == 1380
      && AwakeFloor(rs[4].time - MinutesPerHour) == 1320
  {
    var rs := [RatePoint(1140, 1), RatePoint(1200, 1), RatePoint(1260, 1), RatePoint(1320, 1),
               RatePoint(1380, 100), RatePoint(1440, 1)];
    assert rs[1..5] == [rs[1], rs[2], rs[3], rs[4]];
    assert Sum([rs[4]]) == 100;
    assert Sum([rs[3], rs[4]]) == 101 by { assert [rs[3], rs[4]][1..] == [rs[4]]; }
    assert Sum([rs[2], rs[3], rs[4]]) == 102 by { assert [rs[2], rs[3], rs[4]][1..] == [rs[3], rs[4]]; }
    assert Sum(rs[1..5]) == 103 by { assert rs[1..5][1..] == [rs[2], rs[3], rs[4]]; }
    assert Cost(rs, 1) == 103;
    assert rs[0..4] == [rs[0]] + rs[1..4];
    assert rs[1..4] == [rs[1], rs[2], rs[3]];
    assert Sum([rs[3]]) == 1;
    assert Sum([rs[2], rs[3]]) == 2 by { assert [rs[2], rs[3]][1..] == [rs[3]]; }
    assert Sum(rs[1..4]) == 3 by { assert rs[1..4][1..] == [rs[2], rs[3]]; }
    assert Cost(rs, 0) == 4;
  }

  /**
   * Moves the end of the window up to 09:30 of the same date when it would
   * fall earlier in the day; never moves it earlier.
   */
  function AwakeFloor(end: int): (r: int)
    ensures DateOf(r) == DateOf(end)
    ensures TimeOfDay(r) >= AwakeUntil
    ensures r >= end
    ensures TimeOfDay(end) < AwakeUntil ==> TimeOfDay(r) == AwakeUntil
    ensures TimeOfDay(end) >= AwakeUntil ==> r == end
  {
    DateAndTimeOfDay(end);
    if TimeOfDay(end) < AwakeUntil then
      CombineSplits(DateOf(end), AwakeUntil);
      Combine(DateOf(end), AwakeUntil)
    else end
  }

  /**
   * The charging window for `rates`, with prices below `maxRate` allowed to
   * widen it. On success, `best` is the chosen block, `lo` and `hi` the
   * widened start and end indices.
   */
  method FindOptimalWindow(rates: seq<RatePoint>, maxRate: int)
    returns (r: Result<Window>, ghost best: nat, ghost lo: nat, ghost hi: nat)
    ensures r.Err? <==> |rates| <= ChargeHours
    ensures r.Ok? ==>
      // the earliest of the cheapest candidate blocks
      && best < CandidateCount(rates)
      && (forall i :: 0 <= i < CandidateCount(rates) ==> Cost(rates, best) <= Cost(rates, i))
      && (forall i :: 0 <= i < best ==> Cost(rates, best) < Cost(rates, i))
      // widened only outward, and every index used is in range
      && lo == WidenedStart(rates, best, maxRate)
      && hi == WidenedEnd(rates, best + ChargeHours, maxRate)
      && lo <= best && best + ChargeHours <= hi < |rates|
      // hour-ending timestamps shifted to start times, then the awake floor
      && r.value.start == rates[lo].time - MinutesPerHour
      && r.value.end == AwakeFloor(rates[hi].time - MinutesPerHour)
    ensures r.Ok? && Increasing(rates) ==> r.value.start < r.value.end
  {
    best, lo, hi := 0, 0, 0;
    var windows := WindowCosts(rates);
    if |windows| == 0 {
      return Err(NoWindow), best, lo, hi;
    }
    var startIdx: nat := FirstCheapest(windows);
    best := startIdx;
    var endIdx: nat := startIdx + ChargeHours;

    while startIdx > 0 && rates[startIdx - 1].price < maxRate
      invariant startIdx <= best
      invariant WidenedStart(rates, startIdx, maxRate) == WidenedStart(rates, best, maxRate)
    {
      startIdx := startIdx - 1;
    }
    while endIdx < |rates| - 1 && rates[endIdx + 1].price < maxRate
      invariant best + ChargeHours <= endIdx < |rates|
      invariant WidenedEnd(rates, endIdx, maxRate) == WidenedEnd(rates, best + ChargeHours, maxRate)
      decreases |rates| - endIdx
    {
      endIdx := endIdx + 1;
    }
    lo, hi := startIdx, endIdx;

    var start := rates[startIdx].time - MinutesPerHour;
    var end := rates[endIdx].time - MinutesPerHour;
    end := AwakeFloor(end);
    r := Ok(Window(start, end));
  }
}
