/** The `StreakCalendar` of scripts/streak-goal-manager.js: a day-keyed map of activity
    intensities 0..4 and the three statistics read off it. */
module Calendar {
  import opened ProgressRecord

  predicate Active(data: map<Day, int>, d: Day) {
    d in data && data[d] > 0
  }

  function Min(a: int, b: int): int { if a < b then a else b }
  function Max(a: int, b: int): int { if a < b then b else a }

  /** The number of days the current-streak scan counts: walking back from `day`, at most
      `limit` days, stopping at the first day without activity. */
  function StreakBack(data: map<Day, int>, day: Day, limit: nat): (n: nat)
    ensures n <= limit
    ensures forall d :: day - n < d <= day ==> Active(data, d)
    ensures n < limit ==> !Active(data, day - n)
    decreases limit
  {
    if limit == 0 || !Active(data, day) then 0
    else 1 + StreakBack(data, day - 1, limit - 1)
  }

  /** The three conditions of the scan fix its result: any count meeting them is the scan's. */
  lemma {:induction false} StreakBackUnique(data: map<Day, int>, day: Day, limit: nat, n: nat)
    requires n <= limit
    requires forall d :: day - n < d <= day ==> Active(data, d)
    requires n < limit ==> !Active(data, day - n)
    ensures StreakBack(data, day, limit) == n
  {
  }

  /** Positive values at every index of `[lo, hi)`. */
  predicate PositiveRun(vals: seq<int>, lo: int, hi: int) {
    0 <= lo <= hi <= |vals| && forall k :: lo <= k < hi ==> vals[k] > 0
  }

  /** `Object.keys(...).sort()` on day keys: strictly ascending and holding exactly the keys. */
  function SortedKeys(s: set<Day>): (r: seq<Day>)
    ensures forall i, j :: 0 <= i < j < |r| ==> r[i] < r[j]
    ensures forall d :: d in s <==> d in r
    ensures |r| == |s|
    decreases |s|
  {
    if s == {} then []
    else
      var m := MinOf(s);
      var rest := SortedKeys(s - {m});
      assert forall d :: d in s <==> d == m || d in s - {m};
      [m] + rest
  }

  /** The smallest element of a non-empty set of days. */
  function MinOf(s: set<Day>): (m: Day)
    requires s != {}
    ensures m in s && forall d :: d in s ==> m <= d
  {
    MinExists(s);
    var m :| m in s && forall d :: d in s ==> m <= d;
    m
  }

  lemma {:induction false} MinExists(s: set<Day>)
    requires s != {}
    ensures exists m :: m in s && forall d :: d in s ==> m <= d
    decreases |s|
  {
    NonEmptyHasElement(s);
    var x :| x in s;
    if s - {x} != {} {
      MinExists(s - {x});
      var m :| m in s - {x} && forall d :: d in s - {x} ==> m <= d;
      if x < m {
        forall d | d in s ensures x <= d {
          if d != x {
            assert d in s - {x};
          }
        }
      } else {
        forall d | d in s ensures m <= d {
          if d != x {
            assert d in s - {x};
          }
        }
      }
    } else {
      forall d | d in s ensures x <= d {
      }
    }
  }

  /** The intensities in the order of the given keys. */
  function ValuesAt(data: map<Day, int>, keys: seq<Day>): (vals: seq<int>)
    requires forall k :: 0 <= k < |keys| ==> keys[k] in data
    ensures |vals| == |keys| && forall k :: 0 <= k < |keys| ==> vals[k] == data[keys[k]]
  {
    seq(|keys|, k requires 0 <= k < |keys| => data[keys[k]])
  }

  function Sum(vals: seq<int>): int {
    if vals == [] then 0 else vals[0] + Sum(vals[1..])
  }

  /** With no negative value, every run of positive values is no longer than the sum. */
  lemma {:induction false} RunAtMostSum(vals: seq<int>, lo: int, hi: int)
    requires forall k :: 0 <= k < |vals| ==> vals[k] >= 0
    requires PositiveRun(vals, lo, hi)
    ensures hi - lo <= Sum(vals)
    decreases |vals|
  {
    if vals != [] {
      SumNonNegative(vals[1..]);
      if lo > 0 {
        RunAtMostSum(vals[1..], lo - 1, hi - 1);
      } else if hi > 0 {
        RunAtMostSum(vals[1..], 0, hi - 1);
      }
    }
  }

  lemma {:induction false} SumNonNegative(vals: seq<int>)
    requires forall k :: 0 <= k < |vals| ==> vals[k] >= 0
    ensures Sum(vals) >= 0
    decreases |vals|
  {
    if vals != [] {
      SumNonNegative(vals[1..]);
    }
  }

  /** Intensities of at most 4 sum to at most four times their number. */
  lemma {:induction false} SumAtMostFour(vals: seq<int>)
    requires forall k :: 0 <= k < |vals| ==> vals[k] <= 4
    ensures Sum(vals) <= 4 * |vals|
    decreases |vals|
  {
    if vals != [] {
      SumAtMostFour(vals[1..]);
    }
  }

  /** The calendar the constructor builds: for every day from `firstDay` to `today` the random
      intensity, capped at 4, then at least 1 on the five days ending today. `draws[k]` stands
      for the random value drawn for day `firstDay + k`. */
  method GenerateCalendarData(firstDay: Day, today: Day, draws: seq<nat>) returns (data: map<Day, int>)
    requires firstDay <= today && |draws| == today - firstDay + 1
    ensures forall d :: d in data <==> (firstDay <= d <= today || today - 5 < d <= today)
    ensures forall d :: d in data ==> 0 <= data[d] <= 4
    ensures forall d :: today - 5 < d <= today ==> Active(data, d)
    ensures forall d :: firstDay <= d <= today - 5 ==> data[d] == Min(draws[d - firstDay], 4)
    ensures forall d :: today - 5 < d <= today && firstDay <= d ==> data[d] == Max(Min(draws[d - firstDay], 4), 1)
    ensures forall d :: today - 5 < d < firstDay ==> data[d] == 1
  {
    data := map[];
    var d := firstDay;
    while d <= today
      invariant firstDay <= d <= today + 1
      invariant forall e :: e in data <==> firstDay <= e < d
      invariant forall e :: e in data ==> data[e] == Min(draws[e - firstDay], 4)
    {
      data := data[d := Min(draws[d - firstDay], 4)];
      d := d + 1;
    }
    var i := 0;
    while i < 5
      invariant 0 <= i <= 5
      invariant forall e :: e in data <==> (firstDay <= e <= today || today - i < e <= today)
      invariant forall e :: e in data ==> 0 <= data[e] <= 4
      invariant forall e :: firstDay <= e <= today - i ==> data[e] == Min(draws[e - firstDay], 4)
      invariant forall e :: today - i < e <= today && firstDay <= e ==> data[e] == Max(Min(draws[e - firstDay], 4), 1)
      invariant forall e :: today - i < e < firstDay ==> data[e] == 1
    {
      var date := today - i;
      var previous := if date in data then data[date] else 0;
      data := data[date := Max(previous, 1)];
      i := i + 1;
    }
  }

  /** On a generated calendar the current streak is at least the five forced days. */
  lemma GeneratedStreakAtLeastFive(data: map<Day, int>, today: Day)
    requires forall d :: today - 5 < d <= today ==> Active(data, d)
    ensures StreakBack(data, today, 365) >= 5
  {
  }

  /** The scan of `calculateLongestStreak` over the values in key order: a running count of
      positive values, reset by a non-positive one, and its maximum. */
  method LongestRun(vals: seq<int>) returns (maxStreak: nat)
    ensures maxStreak <= |vals|
    ensures exists lo, hi :: PositiveRun(vals, lo, hi) && hi - lo == maxStreak
    ensures forall lo, hi :: PositiveRun(vals, lo, hi) ==> hi - lo <= maxStreak
  {
    maxStreak := 0;
    var currentStreak := 0;
    var j := 0;
    assert PositiveRun(vals, 0, 0);
    while j < |vals|
      invariant 0 <= j <= |vals|
      invariant 0 <= currentStreak <= maxStreak <= j
      invariant PositiveRun(vals, j - currentStreak, j)
      invariant forall lo :: PositiveRun(vals, lo, j) ==> j - lo <= currentStreak
      invariant exists lo, hi :: PositiveRun(vals, lo, hi) && hi - lo == maxStreak
      invariant forall lo, hi :: hi <= j && PositiveRun(vals, lo, hi) ==> hi - lo <= maxStreak
    {
      ghost var next := j + 1;
      if vals[j] > 0 {
        currentStreak := currentStreak + 1;
        maxStreak := Max(maxStreak, currentStreak);
        assert PositiveRun(vals, j + 1 - currentStreak, j + 1);
        forall lo | PositiveRun(vals, lo, next) ensures next - lo <= currentStreak {
          if lo <= j {
            assert PositiveRun(vals, lo, j);
          }
        }
      } else {
        currentStreak := 0;
        forall lo | PositiveRun(vals, lo, next) ensures next - lo <= currentStreak {
        }
      }
      forall lo, hi | hi <= next && PositiveRun(vals, lo, hi) ensures hi - lo <= maxStreak {
        if hi == next {
          assert next - lo <= currentStreak;
        } else {
          assert hi <= j;
        }
      }
      j := j + 1;
    }
  }

  class StreakCalendar {
    var calendarData: map<Day, int>

    constructor (firstDay: Day, today: Day, draws: seq<nat>)
      requires firstDay <= today && |draws| == today - firstDay + 1
      ensures forall d :: d in calendarData <==> (firstDay <= d <= today || today - 5 < d <= today)
      ensures forall d :: d in calendarData ==> 0 <= calendarData[d] <= 4
      ensures forall d :: today - 5 < d <= today ==> Active(calendarData, d)
      ensures forall d :: firstDay <= d <= today - 5 ==> calendarData[d] == Min(draws[d - firstDay], 4)
      ensures forall d :: today - 5 < d <= today && firstDay <= d ==>
        calendarData[d] == Max(Min(draws[d - firstDay], 4), 1)
      ensures forall d :: today - 5 < d < firstDay ==> calendarData[d] == 1
    {
      var data := GenerateCalendarData(firstDay, today, draws);
      calendarData := data;
    }

    /** `calculateCurrentStreak`: count back from today while the day is active, at most 365 days. */
    method CalculateCurrentStreak(today: Day) returns (streak: nat)
      ensures streak == StreakBack(calendarData, today, 365)
    {
      streak := 0;
      var i := 0;
      while i < 365
        invariant 0 <= i <= 365 && streak == i
        invariant forall d :: today - i < d <= today ==> Active(calendarData, d)
      {
        var date := today - i;
        if date in calendarData && calendarData[date] > 0 {
          streak := streak + 1;
        } else {
          break;
        }
        i := i + 1;
      }
      StreakBackUnique(calendarData, today, 365, streak);
    }

    /** `calculateLongestStreak`: the longest run of active days over the keys in ascending order
        (days missing from the map do not break a run). */
    method CalculateLongestStreak() returns (maxStreak: nat)
      ensures var vals := ValuesAt(calendarData, SortedKeys(calendarData.Keys));
        && maxStreak <= |calendarData.Keys|
        && (exists lo, hi :: PositiveRun(vals, lo, hi) && hi - lo == maxStreak)
        && forall lo, hi :: PositiveRun(vals, lo, hi) ==> hi - lo <= maxStreak
    {
      var sortedDates := SortedKeys(calendarData.Keys);
      var vals := ValuesAt(calendarData, sortedDates);
      maxStreak := LongestRun(vals);
      ghost var lo, hi :| PositiveRun(vals, lo, hi) && hi - lo == maxStreak;
      assert vals == ValuesAt(calendarData, SortedKeys(calendarData.Keys));
      assert PositiveRun(ValuesAt(calendarData, SortedKeys(calendarData.Keys)), lo, hi);
    }

    /** `calculateTotalContributions`: the sum of all intensities, at most four per day when
        every intensity is at most 4. */
    function CalculateTotalContributions(): (total: int)
      reads this
      ensures (forall d :: d in calendarData ==> calendarData[d] <= 4) ==> total <= 4 * |calendarData.Keys|
    {
      var vals := ValuesAt(calendarData, SortedKeys(calendarData.Keys));
      if forall d :: d in calendarData ==> calendarData[d] <= 4 then
        SumAtMostFour(vals);
        Sum(vals)
      else
        Sum(vals)
    }

    /** On a calendar of intensities 0..4, the longest streak is at most the total, which is at
        most four per day. */
    lemma LongestWithinTotal(lo: int, hi: int)
      requires forall d :: d in calendarData ==> 0 <= calendarData[d] <= 4
      requires PositiveRun(ValuesAt(calendarData, SortedKeys(calendarData.Keys)), lo, hi)
      ensures hi - lo <= CalculateTotalContributions() <= 4 * |calendarData.Keys|
    {
      var vals := ValuesAt(calendarData, SortedKeys(calendarData.Keys));
      RunAtMostSum(vals, lo, hi);
      SumAtMostFour(vals);
    }
  }
}
