/** The daily progress store: a map from date to day record, the two streak
    counters computed from it, the Monday-start week projection, the upsert
    of one day, and the conversion of the map to and from the plain object
    that is written to storage. */
module ProgressStore {
  import opened Common
  import opened ProgressTypes

  // ---------------------------------------------------------------------
  // Sorted keys

  predicate StrictlyIncreasing(ks: seq<Date>) {
    forall i, j :: 0 <= i < j < |ks| ==> ks[i] < ks[j]
  }

  lemma {:induction false} MinExists(s: set<Date>)
    requires s != {}
    ensures exists x :: x in s && forall y :: y in s ==> x <= y
    decreases |s|
  {
    NonEmptyHasMember(s);
    var z :| z in s;
    if s != {z} {
      MinExists(s - {z});
      var x :| x in s - {z} && forall y :: y in s - {z} ==> x <= y;
      var w := if z < x then z else x;
      forall y | y in s ensures w <= y {
        if y != z { assert y in s - {z}; }
      }
    } else {
      assert forall y :: y in s ==> z <= y;
    }
  }

  function SetMin(s: set<Date>): (x: Date)
    requires s != {}
    ensures x in s && forall y :: y in s ==> x <= y
  {
    MinExists(s);
    var x :| x in s && forall y :: y in s ==> x <= y;
    x
  }

  /** `Array.from(keys).sort()`: the keys in ascending order, each once. */
  function SortedKeys(s: set<Date>): (ks: seq<Date>)
    ensures StrictlyIncreasing(ks)
    ensures forall x :: x in ks <==> x in s
    ensures |ks| == |s|
    decreases |s|
  {
    if s == {} then []
    else
      var x := SetMin(s);
      var rest := SortedKeys(s - {x});
      assert forall j :: 0 <= j < |rest| ==> x < rest[j] by {
        forall j | 0 <= j < |rest| ensures x < rest[j] {
          assert rest[j] in s - {x};
        }
      }
      [x] + rest
  }

  /** Two ascending sequences with the same members start alike. */
  lemma SameHead(a: seq<Date>, b: seq<Date>)
    requires StrictlyIncreasing(a) && StrictlyIncreasing(b)
    requires forall x :: x in a <==> x in b
    requires |a| > 0
    ensures |b| > 0 && a[0] == b[0]
  {
    assert a[0] in a;
    var i :| 0 <= i < |b| && b[i] == a[0];
    assert b[0] in a;
    var j :| 0 <= j < |a| && a[j] == b[0];
    assert b[0] <= b[i] && a[0] <= a[j];
  }

  /** A later member of one of them is a later member of the other. */
  lemma TailMember(a: seq<Date>, b: seq<Date>, x: Date)
    requires StrictlyIncreasing(a) && StrictlyIncreasing(b)
    requires forall y :: y in a <==> y in b
    requires |a| > 0 && |b| > 0 && a[0] == b[0]
    requires x in a[1..]
    ensures x in b[1..]
  {
    var i :| 1 <= i < |a| && a[i] == x;
    assert a[0] < x;
    assert x in b;
    var k :| 0 <= k < |b| && b[k] == x;
    assert b[1..][k - 1] == x;
  }

  /** An ascending sequence is determined by its members. */
  lemma {:induction false} StrictlyIncreasingUnique(a: seq<Date>, b: seq<Date>)
    requires StrictlyIncreasing(a) && StrictlyIncreasing(b)
    requires forall x :: x in a <==> x in b
    ensures a == b
    decreases |a|
  {
    if |a| > 0 {
      SameHead(a, b);
      forall x ensures x in a[1..] <==> x in b[1..] {
        if x in a[1..] {
          TailMember(a, b, x);
        }
        if x in b[1..] {
          TailMember(b, a, x);
        }
      }
      StrictlyIncreasingUnique(a[1..], b[1..]);
      assert a == [a[0]] + a[1..];
      assert b == [b[0]] + b[1..];
    } else if |b| > 0 {
      SameHead(b, a);
    }
  }

  // ---------------------------------------------------------------------
  // Current streak

  /** The number of consecutive completed days ending at `d`, looking back
      at most `n` days. */
  function RunEndingAt(m: History, d: Date, n: nat): (r: nat)
    ensures r <= n
    ensures forall e :: d - r < e <= d ==> IsCompleted(m, e)
    ensures r < n ==> !IsCompleted(m, d - r)
    decreases n
  {
    if n == 0 || !IsCompleted(m, d) then 0 else 1 + RunEndingAt(m, d - 1, n - 1)
  }

  /** The current streak: the run of completed records ending on `today`,
      of which at most 31 days (today and the 30 before it) are looked at. */
  function CurrentStreak(m: History, today: Date): (r: nat)
    ensures r <= 31
    ensures !IsCompleted(m, today) ==> r == 0
    ensures forall e :: today - r < e <= today ==> IsCompleted(m, e)
    ensures r < 31 ==> !IsCompleted(m, today - r)
  {
    RunEndingAt(m, today, 31)
  }

  /** Any length with the run property is the run length. */
  lemma {:induction false} RunLengthUnique(m: History, d: Date, n: nat, k: nat)
    requires k <= n
    requires forall e :: d - k < e <= d ==> IsCompleted(m, e)
    requires k < n ==> !IsCompleted(m, d - k)
    ensures RunEndingAt(m, d, n) == k
    decreases n
  {
    if k > 0 {
      assert IsCompleted(m, d);
      RunLengthUnique(m, d - 1, n - 1, k - 1);
    }
  }

  // ---------------------------------------------------------------------
  // Longest streak

  /** The two counters of the longest-streak loop: the run in progress and
      the best run so far. */
  datatype Runs = Runs(temp: nat, longest: nat)

  /** One step of the longest-streak loop on a date that is or is not completed. */
  function RunStep(r: Runs, completed: bool): Runs {
    if completed then
      Runs(r.temp + 1, if r.longest >= r.temp + 1 then r.longest else r.temp + 1)
    else
      Runs(0, r.longest)
  }

  /** The longest-streak loop run over the dates `ks` in order. */
  function RunFold(m: History, ks: seq<Date>): Runs
    decreases |ks|
  {
    if |ks| == 0 then Runs(0, 0)
    else RunStep(RunFold(m, ks[..|ks| - 1]), IsCompleted(m, ks[|ks| - 1]))
  }

  /** The run in progress is the block of completed dates at the end of `ks`,
      and it is never longer than the best run. */
  lemma {:induction false} RunFoldTrailing(m: History, ks: seq<Date>)
    ensures RunFold(m, ks).temp <= RunFold(m, ks).longest
    ensures RunFold(m, ks).temp <= |ks|
    ensures forall k :: |ks| - RunFold(m, ks).temp <= k < |ks| ==> IsCompleted(m, ks[k])
    ensures RunFold(m, ks).temp < |ks| ==> !IsCompleted(m, ks[|ks| - RunFold(m, ks).temp - 1])
    decreases |ks|
  {
    if |ks| > 0 {
      var p := ks[..|ks| - 1];
      RunFoldTrailing(m, p);
      assert forall k :: 0 <= k < |p| ==> p[k] == ks[k];
    }
  }

  /** The longest streak: the longest run of completed records among the
      stored dates taken in ascending order. */
  function LongestStreak(m: History): nat {
    RunFold(m, SortedKeys(m.Keys)).longest
  }

  /** Positions `i` to `j` (exclusive) of `ks` are completed days. */
  predicate AllCompleted(m: History, ks: seq<Date>, i: int, j: int)
    requires 0 <= i <= j <= |ks|
  {
    forall k :: i <= k < j ==> IsCompleted(m, ks[k])
  }

  /** No block of consecutive completed entries is longer than `longest`. */
  lemma {:induction false} RunFoldBound(m: History, ks: seq<Date>, i: int, j: int)
    requires 0 <= i <= j <= |ks|
    requires AllCompleted(m, ks, i, j)
    ensures j - i <= RunFold(m, ks).longest
    decreases |ks|
  {
    var r := RunFold(m, ks);
    RunFoldTrailing(m, ks);
    if j == |ks| {
      if r.temp < |ks| {
        assert !IsCompleted(m, ks[|ks| - r.temp - 1]);
        assert i > |ks| - r.temp - 1;
      }
    } else {
      var p := ks[..|ks| - 1];
      assert AllCompleted(m, p, i, j) by {
        forall k | i <= k < j ensures IsCompleted(m, p[k]) {
          assert p[k] == ks[k];
        }
      }
      RunFoldBound(m, p, i, j);
    }
  }

  /** Some block of consecutive completed entries is exactly `longest` long. */
  lemma {:induction false} RunFoldAttained(m: History, ks: seq<Date>)
    ensures exists i, j :: 0 <= i <= j <= |ks| && j - i == RunFold(m, ks).longest
                           && AllCompleted(m, ks, i, j)
    decreases |ks|
  {
    var r := RunFold(m, ks);
    RunFoldTrailing(m, ks);
    if |ks| == 0 {
      assert AllCompleted(m, ks, 0, 0);
    } else {
      var p := ks[..|ks| - 1];
      var rp := RunFold(m, p);
      if r.longest == r.temp {
        assert AllCompleted(m, ks, |ks| - r.temp, |ks|);
      } else {
        assert r.longest == rp.longest;
        RunFoldAttained(m, p);
        var i, j :| 0 <= i <= j <= |p| && j - i == rp.longest && AllCompleted(m, p, i, j);
        assert AllCompleted(m, ks, i, j) by {
          forall k | i <= k < j ensures IsCompleted(m, ks[k]) {
            assert ks[k] == p[k];
          }
        }
      }
    }
  }

  /** The longest streak of a map is the length of its longest run of
      completed entries in date order: no run is longer, and one run is that
      long. A missing date between two entries does not end a run. */
  lemma LongestStreakIsLongestRun(m: History)
    ensures forall i, j :: 0 <= i <= j <= |SortedKeys(m.Keys)| && AllCompleted(m, SortedKeys(m.Keys), i, j) ==>
      j - i <= LongestStreak(m)
    ensures exists i, j :: (0 <= i <= j <= |SortedKeys(m.Keys)| && j - i == LongestStreak(m)
                            && AllCompleted(m, SortedKeys(m.Keys), i, j))
  {
    var ks := SortedKeys(m.Keys);
    assert LongestStreak(m) == RunFold(m, ks).longest;
    forall i, j | 0 <= i <= j <= |ks| && AllCompleted(m, ks, i, j)
      ensures j - i <= LongestStreak(m)
    {
      RunFoldBound(m, ks, i, j);
    }
    RunFoldAttained(m, ks);
  }

  lemma LongestStreakOfEmpty()
    ensures LongestStreak(map[]) == 0
  {
    assert SortedKeys({}) == [];
  }

  /** Calendar gaps do not break a run: two completed days with a missing day
      between them form a longest streak of 2, while the current streak on
      the later day is 1. */
  lemma GapDoesNotBreakLongestStreak()
    ensures var m := map[0 := DayProgress(0, true, 100.0, 10000.0, 8.0, true),
                         2 := DayProgress(2, true, 100.0, 10000.0, 8.0, true)];
      LongestStreak(m) == 2 && CurrentStreak(m, 2) == 1
  {
    var m := map[0 := DayProgress(0, true, 100.0, 10000.0, 8.0, true),
                 2 := DayProgress(2, true, 100.0, 10000.0, 8.0, true)];
    var ks := SortedKeys(m.Keys);
    assert m.Keys == {0, 2};
    StrictlyIncreasingUnique(ks, [0, 2]);
    assert [0, 2][..1] == [0];
    assert RunFold(m, [0]) == Runs(1, 1);
    assert RunEndingAt(m, 1, 30) == 0;
  }

  /** In an ascending sequence of integers, the run of consecutive day
      numbers ending at position `jt` occupies consecutive positions. */
  lemma {:induction false} ConsecutiveDaysAdjacent(ks: seq<Date>, jt: int, c: nat)
    requires StrictlyIncreasing(ks)
    requires 0 <= jt < |ks| && c >= 1
    requires forall e :: ks[jt] - c < e <= ks[jt] ==> e in ks
    ensures jt - c + 1 >= 0
    ensures forall k :: jt - c < k <= jt ==> ks[k] == ks[jt] - (jt - k)
    decreases c
  {
    if c > 1 {
      ConsecutiveDaysAdjacent(ks, jt, c - 1);
      var e := ks[jt] - (c - 1);
      assert e in ks;
      var p :| 0 <= p < |ks| && ks[p] == e;
      var q := jt - c + 2;
      assert ks[q] == e + 1;
      assert p < q;
      assert ks[p] <= ks[q - 1] < ks[q];
      assert p == q - 1;
    }
  }

  /** The current streak never exceeds the longest streak of the same map. */
  lemma {:induction false} CurrentAtMostLongest(m: History, today: Date)
    ensures CurrentStreak(m, today) <= LongestStreak(m)
  {
    var c := CurrentStreak(m, today);
    if c > 0 {
      CompletedDaysFormRun(m, SortedKeys(m.Keys), today, c);
    }
  }

  /** `c` completed days ending at `today` are a block of `c` consecutive
      completed entries of any ascending listing of the map's dates. */
  lemma {:induction false} CompletedDaysFormRun(m: History, ks: seq<Date>, today: Date, c: nat)
    requires StrictlyIncreasing(ks)
    requires forall x :: x in ks <==> x in m
    requires c > 0
    requires forall e :: today - c < e <= today ==> IsCompleted(m, e)
    ensures c <= RunFold(m, ks).longest
  {
    assert IsCompleted(m, today);
    assert today in ks;
    var jt :| 0 <= jt < |ks| && ks[jt] == today;
    forall e | ks[jt] - c < e <= ks[jt] ensures e in ks {
      assert IsCompleted(m, e);
    }
    ConsecutiveDaysAdjacent(ks, jt, c);
    assert AllCompleted(m, ks, jt - c + 1, jt + 1) by {
      forall k | jt - c + 1 <= k < jt + 1 ensures IsCompleted(m, ks[k]) {
        assert ks[k] == today - (jt - k);
      }
    }
    RunFoldBound(m, ks, jt - c + 1, jt + 1);
  }

  /** The first loop of `calculateStreak`: walks back from `today` over at
      most 31 days and stops at the first day that is not completed. */
  method CurrentStreakLoop(m: History, today: Date) returns (current: nat)
    ensures current == CurrentStreak(m, today)
  {
    current := 0;
    var i := 0;
    while i <= 30
      invariant 0 <= i <= 31
      invariant current == i
      invariant forall e :: today - i < e <= today ==> IsCompleted(m, e)
    {
      var date := today - i;
      if date in m && m[date].completed {
        if i == 0 || current > 0 {
          current := current + 1;
        }
      } else if i == 0 {
        break;
      } else {
        break;
      }
      i := i + 1;
    }
    RunLengthUnique(m, today, 31, current);
  }

  /** The second loop of `calculateStreak`: walks the sorted dates, counting
      the run in progress and keeping the best one. */
  method LongestStreakLoop(m: History) returns (longest: nat)
    ensures longest == LongestStreak(m)
  {
    var sortedDates := SortedKeys(m.Keys);
    longest := LongestRunOver(m, sortedDates);
  }

  /** The loop itself, over the dates in the order given. */
  method LongestRunOver(m: History, dates: seq<Date>) returns (longest: nat)
    ensures longest == RunFold(m, dates).longest
  {
    longest := 0;
    var temp := 0;
    var j := 0;
    while j < |dates|
      invariant 0 <= j <= |dates|
      invariant RunFold(m, dates[..j]) == Runs(temp, longest)
    {
      var date := dates[j];
      assert dates[..j + 1][..j] == dates[..j];
      if date in m && m[date].completed {
        temp := temp + 1;
        longest := if longest >= temp then longest else temp;
      } else {
        temp := 0;
      }
      j := j + 1;
    }
    assert dates[..j] == dates;
  }

  /** `calculateStreak`: the current and the longest streak of a map. */
  method CalculateStreak(m: History, today: Date) returns (current: nat, longest: nat)
    ensures current == CurrentStreak(m, today)
    ensures longest == LongestStreak(m)
    ensures current <= longest
  {
    current := CurrentStreakLoop(m, today);
    longest := LongestStreakLoop(m);
    CurrentAtMostLongest(m, today);
  }

  // ---------------------------------------------------------------------
  // Week projection

  /** The week containing `today`, Monday first: the stored record of each
      day or a zero record for it, the current streak, and the number of
      weeks the stored days would fill. */
  function WeekOf(m: History, today: Date): (w: WeeklyProgress)
    ensures w.startDate % 7 == 0 && w.startDate <= today < w.startDate + 7
    ensures |w.days| == 7
    ensures forall k :: 0 <= k < 7 ==> w.days[k] == DayOrZero(m, w.startDate + k)
    ensures w.streak == CurrentStreak(m, today)
    ensures (w.totalWeeks - 1) * 7 < |m| <= w.totalWeeks * 7
  {
    var monday := MondayOf(today);
    WeeklyProgress(
      monday,
      seq(7, k requires 0 <= k < 7 => DayOrZero(m, monday + k)),
      CurrentStreak(m, today),
      (|m| + 6) / 7)
  }

  /** `getCurrentWeekData`: builds the seven days by pushing them one by one. */
  method BuildWeekData(m: History, today: Date) returns (w: WeeklyProgress)
    ensures w == WeekOf(m, today)
  {
    var current := CurrentStreakLoop(m, today);
    var weekStart := MondayOf(today);
    var days: seq<DayProgress> := [];
    var i := 0;
    while i < 7
      invariant 0 <= i <= 7
      invariant |days| == i
      invariant forall k :: 0 <= k < i ==> days[k] == DayOrZero(m, weekStart + k)
    {
      var date := weekStart + i;
      if date in m {
        days := days + [m[date]];
      } else {
        days := days + [ZeroDay(date)];
      }
      i := i + 1;
    }
    w := WeeklyProgress(weekStart, days, current, (|m| + 6) / 7);
    assert w.days == WeekOf(m, today).days;
  }

  // ---------------------------------------------------------------------
  // Counting, upsert, sample data

  /** The number of completed records among the dates `ks`. */
  function CountCompletedIn(m: History, ks: seq<Date>): (n: nat)
    ensures n <= |ks|
    ensures n == 0 <==> forall k :: 0 <= k < |ks| ==> !IsCompleted(m, ks[k])
    decreases |ks|
  {
    if |ks| == 0 then 0
    else
      var rest := CountCompletedIn(m, ks[1..]);
      assert forall k :: 1 <= k < |ks| ==> ks[k] == ks[1..][k - 1];
      (if IsCompleted(m, ks[0]) then 1 else 0) + rest
  }

  /** `Array.from(values).filter(d => d.completed).length`: every record is
      looked at once, in date order. */
  function CompletedCount(m: History): (n: nat)
    ensures n <= |m|
    ensures n == 0 <==> forall d :: d in m ==> !m[d].completed
  {
    var ks := SortedKeys(m.Keys);
    assert |m.Keys| == |m|;
    assert forall d :: d in m ==> d in ks;
    CountCompletedIn(m, ks)
  }

  /** The record `updateDayProgress` stores: the existing record overlaid
      with the supplied fields, with `completed` recomputed from the
      supplied progress (80 or more) and kept when no progress is supplied. */
  function ApplyUpdate(existing: DayProgress, u: DayUpdate): (r: DayProgress)
    ensures u.progress.Some? ==> (r.completed <==> u.progress.value >= 80.0)
    ensures u.progress.None? ==> r.completed == existing.completed
    ensures r.progress == u.progress.GetOr(existing.progress)
    ensures r.steps == u.steps.GetOr(existing.steps)
    ensures r.distance == u.distance.GetOr(existing.distance)
    ensures r.goalsReached == u.goalsReached.GetOr(existing.goalsReached)
    ensures r.date == u.date.GetOr(existing.date)
  {
    DayProgress(
      u.date.GetOr(existing.date),
      if u.progress.Some? then u.progress.value >= 80.0 else existing.completed,
      u.progress.GetOr(existing.progress),
      u.steps.GetOr(existing.steps),
      u.distance.GetOr(existing.distance),
      u.goalsReached.GetOr(existing.goalsReached))
  }

  /** The `completed` field of an update never reaches the store. */
  lemma CompletedFieldIgnored(existing: DayProgress, u: DayUpdate, c: Option<bool>)
    ensures ApplyUpdate(existing, u.(completed := c)) == ApplyUpdate(existing, u)
  {
  }

  /** Applying the same update twice stores the same record as applying it once. */
  lemma ApplyUpdateIdempotent(existing: DayProgress, u: DayUpdate)
    ensures ApplyUpdate(ApplyUpdate(existing, u), u) == ApplyUpdate(existing, u)
  {
  }

  /** An update with no fields leaves a record as it is. */
  lemma EmptyUpdateKeepsRecord(existing: DayProgress)
    ensures ApplyUpdate(existing, DayUpdate(None, None, None, None, None, None)) == existing
  {
  }

  /** The map after `updateDayProgress(date, u)`: only the entry for `date`
      changes, and it becomes the existing-or-zero record overlaid with `u`. */
  function Upsert(m: History, date: Date, u: DayUpdate): (r: History)
    ensures r.Keys == m.Keys + {date}
    ensures r[date] == ApplyUpdate(DayOrZero(m, date), u)
    ensures forall d :: d in m && d != date ==> r[d] == m[d]
  {
    m[date := ApplyUpdate(DayOrZero(m, date), u)]
  }

  /** The random values one sample day is drawn from. */
  datatype SampleDraw = SampleDraw(isCompleted: bool, steps: real, distance: real)

  /** The ranges the generator draws from: whole steps in 8000..12999 and a
      distance in [6, 9) for a completed draw, whole steps in 2000..8999 and
      a distance in [1, 6) otherwise. */
  predicate DrawInRange(s: SampleDraw) {
    s.steps.Floor as real == s.steps
    && if s.isCompleted then 8000.0 <= s.steps <= 12999.0 && 6.0 <= s.distance < 9.0
       else 2000.0 <= s.steps <= 8999.0 && 1.0 <= s.distance < 6.0
  }

  predicate DrawsInRange(draws: seq<SampleDraw>) {
    forall i :: 0 <= i < |draws| ==> DrawInRange(draws[i])
  }

  /** One generated sample day: progress is the mean of the two goal ratios
      capped at 100 and rounded, the day counts as completed only when it was
      drawn completed and reached 80, the distance is rounded to one decimal
      and the goals are judged on the unrounded distance. */
  function SampleDay(date: Date, s: SampleDraw): (r: DayProgress)
    ensures r.date == date
    ensures r.completed <==> s.isCompleted && ((s.steps / 10000.0) + (s.distance / 8.0)) / 2.0 * 100.0 >= 80.0
    ensures r.completed ==> r.progress >= 80.0
    ensures r.progress <= 100.0
    ensures r.goalsReached <==> s.steps >= 10000.0 && s.distance >= 8.0
  {
    var progress := Min(((s.steps / 10000.0) + (s.distance / 8.0)) / 2.0 * 100.0, 100.0);
    DayProgress(
      date,
      s.isCompleted && progress >= 80.0,
      Round(progress) as real,
      s.steps,
      Round(s.distance * 10.0) as real / 10.0,
      s.steps >= 10000.0 && s.distance >= 8.0)
  }

  /** The first `n` days of the sample history, from 21 days before `today`
      on; day `today - 21 + k` is drawn from the `k`-th draw. */
  function SampleUpTo(today: Date, draws: seq<SampleDraw>, n: nat): History
    requires |draws| == 22 && n <= 22
    decreases n
  {
    if n == 0 then map[]
    else
      var date := today - 22 + n;
      SampleUpTo(today, draws, n - 1)[date := SampleDay(date, draws[n - 1])]
  }

  /** After `n` iterations the history holds exactly the first `n` days, each
      drawn from its own draw. */
  lemma {:induction false} SampleUpToContents(today: Date, draws: seq<SampleDraw>, n: nat)
    requires |draws| == 22 && n <= 22
    ensures forall d :: d in SampleUpTo(today, draws, n) <==> today - 21 <= d < today - 21 + n
    ensures forall d :: d in SampleUpTo(today, draws, n) ==>
      SampleUpTo(today, draws, n)[d] == SampleDay(d, draws[d - (today - 21)])
    decreases n
  {
    if n > 0 {
      SampleUpToContents(today, draws, n - 1);
    }
  }

  /** The sample history: the 22 consecutive days ending on `today`. */
  function SampleData(today: Date, draws: seq<SampleDraw>): (m: History)
    requires |draws| == 22
    requires DrawsInRange(draws)
    ensures forall d :: d in m <==> today - 21 <= d <= today
  {
    SampleUpToContents(today, draws, |draws|);
    SampleUpTo(today, draws, |draws|)
  }

  /** Every sample record carries its own date, and a completed record has a
      progress of at least 80. */
  lemma SampleDataRecords(today: Date, draws: seq<SampleDraw>)
    requires |draws| == 22
    requires DrawsInRange(draws)
    ensures forall d :: d in SampleData(today, draws) ==>
      SampleData(today, draws)[d].date == d
      && (SampleData(today, draws)[d].completed ==> SampleData(today, draws)[d].progress >= 80.0)
  {
    SampleUpToContents(today, draws, |draws|);
    var m := SampleData(today, draws);
    forall d | d in m ensures m[d].date == d && (m[d].completed ==> m[d].progress >= 80.0) {
      var r := SampleDay(d, draws[d - (today - 21)]);
      assert m[d] == r;
    }
  }

  /** Within the drawn ranges only a completed draw can reach both goals,
      and a sample day that reaches both goals is completed. */
  lemma SampleGoalsOnlyOnCompletedDraws(date: Date, s: SampleDraw)
    requires DrawInRange(s)
    ensures SampleDay(date, s).goalsReached ==> s.isCompleted && SampleDay(date, s).completed
  {
  }

  /** Every sample record that reaches both goals is completed. */
  lemma SampleGoalsImplyCompleted(today: Date, draws: seq<SampleDraw>)
    requires |draws| == 22
    requires DrawsInRange(draws)
    ensures forall d :: d in SampleData(today, draws) && SampleData(today, draws)[d].goalsReached ==>
      SampleData(today, draws)[d].completed
  {
    SampleUpToContents(today, draws, |draws|);
    var m := SampleData(today, draws);
    forall d | d in m && m[d].goalsReached ensures m[d].completed {
      var s := draws[d - (today - 21)];
      assert m[d] == SampleDay(d, s);
      SampleGoalsOnlyOnCompletedDraws(d, s);
    }
  }

  /** `generateSampleData`: the loop from 21 days ago up to today. */
  method GenerateSampleData(today: Date, draws: seq<SampleDraw>) returns (data: History)
    requires |draws| == 22
    requires DrawsInRange(draws)
    ensures data == SampleData(today, draws)
  {
    data := map[];
    var i := 21;
    while i >= 0
      invariant -1 <= i <= 21
      invariant data == SampleUpTo(today, draws, 21 - i)
    {
      var date := today - i;
      data := data[date := SampleDay(date, draws[21 - i])];
      i := i - 1;
    }
  }

  // ---------------------------------------------------------------------
  // The store

  /** The persisted state of the store, with the derived fields. */
  datatype ProgressState = ProgressState(
    historicalData: History,
    currentWeek: WeeklyProgress,
    longestStreak: nat,
    currentStreak: nat,
    totalDaysCompleted: nat)

  method InitialWeek(today: Date, weekDraws: seq<SampleDraw>) returns (week: WeeklyProgress)
    requires |weekDraws| == 22 && DrawsInRange(weekDraws)
    ensures week == WeekOf(SampleData(today, weekDraws), today)
  {
    var other := GenerateSampleData(today, weekDraws);
    week := BuildWeekData(other, today);
  }

  class Store {
    var historicalData: History
    var currentWeek: WeeklyProgress
    var longestStreak: nat
    var currentStreak: nat
    var totalDaysCompleted: nat

    /** The derived fields agree with `historicalData` as seen on `today`. */
    predicate Derived(today: Date)
      reads this
    {
      currentStreak == CurrentStreak(historicalData, today)
      && longestStreak == LongestStreak(historicalData)
      && currentWeek == WeekOf(historicalData, today)
      && totalDaysCompleted == CompletedCount(historicalData)
    }

    function State(): ProgressState
      reads this
    {
      ProgressState(historicalData, currentWeek, longestStreak, currentStreak, totalDaysCompleted)
    }

    /** The initial state: one sample history is stored, and the week is
        built from a second, independently drawn one; the counters start at 0. */
    constructor(today: Date, draws: seq<SampleDraw>, weekDraws: seq<SampleDraw>)
      requires |draws| == 22 && |weekDraws| == 22
      requires DrawsInRange(draws) && DrawsInRange(weekDraws)
      ensures historicalData == SampleData(today, draws)
      ensures currentWeek == WeekOf(SampleData(today, weekDraws), today)
      ensures longestStreak == 0 && currentStreak == 0 && totalDaysCompleted == 0
    {
      var week := InitialWeek(today, weekDraws);
      var data := GenerateSampleData(today, draws);
      historicalData, currentWeek := data, week;
      longestStreak, currentStreak, totalDaysCompleted := 0, 0, 0;
    }

    /** Sets every field from `data`, recomputing the derived ones. */
    method Recompute(data: History, today: Date)
      modifies this
      ensures historicalData == data
      ensures Derived(today)
    {
      var current, longest := CalculateStreak(data, today);
      var week := BuildWeekData(data, today);
      historicalData := data;
      currentStreak := current;
      longestStreak := longest;
      currentWeek := week;
      totalDaysCompleted := CompletedCount(data);
    }

    /** `updateDayProgress`: upserts one day and recomputes the derived fields. */
    method UpdateDayProgress(date: Date, u: DayUpdate, today: Date)
      modifies this
      ensures historicalData == Upsert(old(historicalData), date, u)
      ensures Derived(today)
    {
      var existing := if date in historicalData then historicalData[date] else ZeroDay(date);
      var updated := ApplyUpdate(existing, u);
      var newData := historicalData[date := updated];
      Recompute(newData, today);
    }

    /** `getCurrentWeekData`. */
    method GetCurrentWeekData(today: Date) returns (w: WeeklyProgress)
      ensures w == WeekOf(historicalData, today)
    {
      w := BuildWeekData(historicalData, today);
    }

    /** `getStreakData`. */
    method GetStreakData(today: Date) returns (current: nat, longest: nat)
      ensures current == CurrentStreak(historicalData, today)
      ensures longest == LongestStreak(historicalData)
      ensures current <= longest
    {
      current, longest := CalculateStreak(historicalData, today);
    }

    /** `loadHistoricalData`: keeps the map, recomputes the derived fields. */
    method LoadHistoricalData(today: Date)
      modifies this
      ensures historicalData == old(historicalData)
      ensures Derived(today)
    {
      Recompute(historicalData, today);
    }

    /** `resetProgress`: a fresh sample history with its derived fields. */
    method ResetProgress(today: Date, draws: seq<SampleDraw>)
      requires |draws| == 22
      requires DrawsInRange(draws)
      modifies this
      ensures historicalData == SampleData(today, draws)
      ensures Derived(today)
    {
      var data := GenerateSampleData(today, draws);
      Recompute(data, today);
    }
  }

  // ---------------------------------------------------------------------
  // Storage boundary

  /** The plain object `Object.fromEntries` produces, as its list of entries. */
  type Entries = seq<(Date, DayProgress)>

  predicate DistinctKeys(es: Entries) {
    forall i, j :: 0 <= i < j < |es| ==> es[i].0 != es[j].0
  }

  /** `es` lists every entry of `m` exactly once. */
  predicate IsEntriesOf(es: Entries, m: History) {
    DistinctKeys(es)
    && (forall i :: 0 <= i < |es| ==> es[i].0 in m && m[es[i].0] == es[i].1)
    && (forall k :: k in m ==> exists i :: 0 <= i < |es| && es[i].0 == k)
  }

  /** `new Map(Object.entries(obj))`: later entries overwrite earlier ones. */
  function FromEntries(es: Entries): (m: History)
    ensures forall k :: k in m <==> exists i :: 0 <= i < |es| && es[i].0 == k
    ensures forall i :: 0 <= i < |es| && (forall j :: i < j < |es| ==> es[j].0 != es[i].0)
                        ==> m[es[i].0] == es[i].1
    decreases |es|
  {
    if |es| == 0 then map[]
    else
      var p := es[..|es| - 1];
      var m := FromEntries(p);
      assert forall i :: 0 <= i < |p| ==> p[i] == es[i];
      m[es[|es| - 1].0 := es[|es| - 1].1]
  }

  /** Reading back the entries of a map rebuilds that map. */
  lemma EntriesRoundTrip(es: Entries, m: History)
    requires IsEntriesOf(es, m)
    ensures FromEntries(es) == m
  {
    var r := FromEntries(es);
    assert r.Keys == m.Keys;
    forall k | k in m ensures r[k] == m[k] {
      var i :| 0 <= i < |es| && es[i].0 == k;
    }
  }

  /** `Object.fromEntries(map)`: the entries of the map, each once. */
  method ToEntries(m: History) returns (es: Entries)
    ensures IsEntriesOf(es, m)
  {
    es := [];
    var rest := m.Keys;
    while rest != {}
      invariant rest <= m.Keys
      invariant DistinctKeys(es)
      invariant forall i :: 0 <= i < |es| ==> es[i].0 in m && es[i].0 !in rest && m[es[i].0] == es[i].1
      invariant forall k :: k in m && k !in rest ==> exists i :: 0 <= i < |es| && es[i].0 == k
      decreases rest
    {
      NonEmptyHasMember(rest);
      var k :| k in rest;
      ghost var before := es;
      es := es + [(k, m[k])];
      rest := rest - {k};
      forall k' | k' in m && k' !in rest
        ensures exists i :: 0 <= i < |es| && es[i].0 == k'
      {
        if k' == k {
          assert es[|es| - 1].0 == k';
        } else {
          var i :| 0 <= i < |before| && before[i].0 == k';
          assert es[i].0 == k';
        }
      }
    }
  }

  /** What is written under the store's storage key. */
  datatype StoredProgress = StoredProgress(
    historicalData: Entries,
    currentWeek: WeeklyProgress,
    longestStreak: nat,
    currentStreak: nat,
    totalDaysCompleted: nat,
    version: int)

  /** The storage key of the store, as an in-memory slot. */
  class Storage {
    var slot: Option<StoredProgress>

    constructor()
      ensures slot == None
    {
      slot := None;
    }

    /** `setItem`: the map is written as its plain-object entries, the other
        fields as they are, with version 1. */
    method SetItem(s: ProgressState)
      modifies this
      ensures slot.Some? && IsEntriesOf(slot.value.historicalData, s.historicalData)
      ensures slot.value.version == 1
      ensures slot.value.currentWeek == s.currentWeek && slot.value.longestStreak == s.longestStreak
      ensures slot.value.currentStreak == s.currentStreak && slot.value.totalDaysCompleted == s.totalDaysCompleted
    {
      var es := ToEntries(s.historicalData);
      slot := Some(StoredProgress(es, s.currentWeek, s.longestStreak, s.currentStreak, s.totalDaysCompleted, 1));
    }

    /** `getItem`: nothing when the key is empty, otherwise the state with the
        map rebuilt from its entries. */
    method GetItem() returns (r: Option<ProgressState>)
      ensures slot.None? ==> r.None?
      ensures slot.Some? ==> r == Some(ProgressState(
        FromEntries(slot.value.historicalData), slot.value.currentWeek,
        slot.value.longestStreak, slot.value.currentStreak, slot.value.totalDaysCompleted))
    {
      if slot.None? {
        return None;
      }
      var v := slot.value;
      r := Some(ProgressState(FromEntries(v.historicalData), v.currentWeek,
                              v.longestStreak, v.currentStreak, v.totalDaysCompleted));
    }
  }

  /** Reading back what was written gives the same state. */
  method StorageRoundTrip(s: ProgressState) returns (r: Option<ProgressState>)
    ensures r == Some(s)
  {
    var storage := new Storage();
    storage.SetItem(s);
    r := storage.GetItem();
    EntriesRoundTrip(storage.slot.value.historicalData, s.historicalData);
  }
}
