/** The progress hook: turning a health reading into today's record, and
    the small helpers it offers over the week and the streak. */
module ProgressHook {
  import opened Common
  import opened AppTypes
  import opened HealthService
  import opened ProgressTypes
  import opened ProgressStore

  /** The unrounded mean of the two capped goal percentages of a reading. */
  function Overall(h: HealthData): (r: real)
    requires PositiveGoals(h)
    ensures r <= 100.0
  {
    OverallPercent(h.steps, h.goalSteps, h.distance, h.goalDistance)
  }

  /** The partial record `updateTodayProgress` hands to the store. */
  function TodayUpdate(h: HealthData): (u: DayUpdate)
    requires PositiveGoals(h)
    ensures u.date.None?
    ensures u.progress.Some? && u.progress.value == Round(Overall(h)) as real
    ensures u.steps == Some(h.steps) && u.distance == Some(h.distance)
    ensures u.goalsReached == Some(GoalsReached(h))
    ensures u.completed == Some(Overall(h) >= 80.0)
  {
    DayUpdate(None, Some(Overall(h) >= 80.0), Some(Round(Overall(h)) as real),
      Some(h.steps), Some(h.distance), Some(GoalsReached(h)))
  }

  /** The record stored for today: the steps and distance of the reading,
      the goals flag, a whole-number progress in [0, 100] for non-negative
      readings, and `completed` decided by the ROUNDED progress, so that an
      average of 79.5 already counts. */
  lemma {:induction false} StoredTodayRecord(m: History, today: Date, h: HealthData)
    requires PositiveGoals(h)
    ensures var r := Upsert(m, today, TodayUpdate(h))[today];
      r.steps == h.steps && r.distance == h.distance
      && r.goalsReached == GoalsReached(h)
      && r.progress <= 100.0
      && (h.steps >= 0.0 && h.distance >= 0.0 ==> r.progress >= 0.0)
      && (r.completed <==> Overall(h) >= 79.5)
  {
    var x := Overall(h);
    var n := Round(x);
    assert n as real - 0.5 <= x < n as real + 0.5;
    assert n <= 100;
    if x >= 79.5 {
      assert n > 79;
    }
    if n >= 80 {
      assert x >= 79.5;
    }
  }

  /** The `completed` flag the hook computes is not the one stored: 5900 of
      10000 steps and the full 8 km average to 79.5 %, which the hook calls
      not completed and the store, from the rounded 80, calls completed. */
  lemma CompletedFlagDiscarded(m: History, today: Date)
    ensures var h := HealthData(5900.0, 8.0, 10000.0, 8.0, None, None);
      TodayUpdate(h).completed == Some(false)
      && Upsert(m, today, TodayUpdate(h))[today].completed
  {
    var h := HealthData(5900.0, 8.0, 10000.0, 8.0, None, None);
    assert Overall(h) == 79.5;
    StoredTodayRecord(m, today, h);
  }

  /** `updateTodayProgress`: upserts today's record built from the reading. */
  method UpdateTodayProgress(store: ProgressStore.Store, h: HealthData, today: Date)
    requires PositiveGoals(h)
    modifies store
    ensures store.historicalData == Upsert(old(store.historicalData), today, TodayUpdate(h))
    ensures store.Derived(today)
  {
    var u := TodayUpdate(h);
    store.UpdateDayProgress(today, u, today);
  }

  /** `days.find(day => day.date === today)`: the first record of the day. */
  function FindDay(days: seq<DayProgress>, date: Date): (r: Option<DayProgress>)
    ensures r.None? <==> forall i :: 0 <= i < |days| ==> days[i].date != date
    ensures r.Some? ==> exists i :: (0 <= i < |days| && days[i] == r.value && days[i].date == date
      && forall j :: 0 <= j < i ==> days[j].date != date)
    decreases |days|
  {
    if |days| == 0 then None
    else if days[0].date == date then Some(days[0])
    else
      var r := FindDay(days[1..], date);
      if r.Some? then
        var i :| 0 <= i < |days| - 1 && days[1..][i] == r.value && days[1..][i].date == date
          && forall j :: 0 <= j < i ==> days[1..][j].date != date;
        assert days[i + 1] == r.value && days[i + 1].date == date;
        assert forall j :: 0 <= j < i + 1 ==> days[j].date != date by {
          forall j | 0 <= j < i + 1 ensures days[j].date != date {
            if j > 0 {
              assert days[j] == days[1..][j - 1];
            }
          }
        }
        r
      else
        assert forall i :: 0 <= i < |days| ==> days[i].date != date by {
          forall i | 0 <= i < |days| ensures days[i].date != date {
            if i > 0 {
              assert days[i] == days[1..][i - 1];
            }
          }
        }
        r
  }

  /** Every stored record carries its own key as date. */
  predicate DatesMatchKeys(m: History) {
    forall d :: d in m ==> m[d].date == d
  }

  /** `getTodayProgress`: for a history whose records carry their own
      dates, today's record in the current week is exactly the stored one,
      or the zero record when today has none. */
  lemma {:induction false} TodayProgressIsStoredRecord(m: History, today: Date)
    requires DatesMatchKeys(m)
    ensures FindDay(WeekOf(m, today).days, today) == Some(DayOrZero(m, today))
  {
    var w := WeekOf(m, today);
    FindInLookedUpDays(m, w.days, w.startDate, today);
  }

  /** The search for `date` in records looked up day by day from `start`
      finds the stored record of `date`, or its zero record. */
  lemma FindInLookedUpDays(m: History, days: seq<DayProgress>, start: Date, date: Date)
    requires DatesMatchKeys(m)
    requires forall k :: 0 <= k < |days| ==> days[k] == DayOrZero(m, start + k)
    requires start <= date < start + |days|
    ensures FindDay(days, date) == Some(DayOrZero(m, date))
  {
    DaysOrZeroDated(m, days, start);
    FindInDatedDays(days, start, date);
  }

  /** Records looked up day by day from `start` on carry the dates `start`,
      `start + 1`, … when the stored records carry their own dates. */
  lemma DaysOrZeroDated(m: History, days: seq<DayProgress>, start: Date)
    requires DatesMatchKeys(m)
    requires forall k :: 0 <= k < |days| ==> days[k] == DayOrZero(m, start + k)
    ensures forall i :: 0 <= i < |days| ==> days[i].date == start + i
  {
  }

  /** In a run of records dated `start`, `start + 1`, …, the search for a
      date inside the run finds the record at that date's offset. */
  lemma FindInDatedDays(days: seq<DayProgress>, start: Date, date: Date)
    requires forall i :: 0 <= i < |days| ==> days[i].date == start + i
    requires start <= date < start + |days|
    ensures FindDay(days, date) == Some(days[date - start])
  {
    var k := date - start;
    assert days[k].date == date;
    var r := FindDay(days, date);
    var i :| 0 <= i < |days| && days[i] == r.value && days[i].date == date
      && forall j :: 0 <= j < i ==> days[j].date != date;
    assert i == k;
  }

  /** `getWeekCompletion`: the rounded share of completed days, out of 7. */
  function WeekCompletion(w: WeeklyProgress): int {
    Round(CompletedDays(w.days) as real / 7.0 * 100.0)
  }

  /** For a seven-day week the completion lies in [0, 100]; it is 0 exactly
      when no day is completed and 100 exactly when all are. */
  lemma {:induction false} WeekCompletionBounds(w: WeeklyProgress)
    requires |w.days| == 7
    ensures 0 <= WeekCompletion(w) <= 100
    ensures WeekCompletion(w) == 0 <==> forall i :: 0 <= i < 7 ==> !w.days[i].completed
    ensures WeekCompletion(w) == 100 <==> forall i :: 0 <= i < 7 ==> w.days[i].completed
  {
    var n := CompletedDays(w.days);
    var x := n as real / 7.0 * 100.0;
    var r := Round(x);
    assert r as real - 0.5 <= x < r as real + 0.5;
    assert n <= 7;
    if n >= 1 {
      assert x >= 100.0 / 7.0;
      assert r >= 14;
    }
    if n <= 6 {
      assert x <= 600.0 / 7.0;
      assert r <= 86;
    }
  }

  /** `isOnStreak`. */
  predicate IsOnStreak(current: nat) {
    current > 0
  }

  /** The hook is on a streak exactly when today is completed. */
  lemma OnStreakIffTodayCompleted(m: History, today: Date)
    ensures IsOnStreak(CurrentStreak(m, today)) <==> IsCompleted(m, today)
  {
  }

  /** The five encouragement messages; the last three show the streak. */
  datatype Motivation = StartJourney | GreatStart | BuildingHabit(days: nat) | OnFire(days: nat) | Legend(days: nat)

  /** `getMotivationalMessage`, by streak band. */
  function MotivationalMessage(current: nat): (r: Motivation)
    ensures r == StartJourney <==> current == 0
    ensures r == GreatStart <==> current == 1
    ensures r.BuildingHabit? <==> 2 <= current < 7
    ensures r.OnFire? <==> 7 <= current < 21
    ensures r.Legend? <==> current >= 21
    ensures !r.StartJourney? && !r.GreatStart? ==> r.days == current
  {
    if current == 0 then StartJourney
    else if current == 1 then GreatStart
    else if current < 7 then BuildingHabit(current)
    else if current < 21 then OnFire(current)
    else Legend(current)
  }

  /** The message never falls back as the streak grows: the band index is
      monotone in the streak. */
  function Band(r: Motivation): nat {
    match r
    case StartJourney => 0
    case GreatStart => 1
    case BuildingHabit(_) => 2
    case OnFire(_) => 3
    case Legend(_) => 4
  }

  lemma MotivationMonotone(a: nat, b: nat)
    requires a <= b
    ensures Band(MotivationalMessage(a)) <= Band(MotivationalMessage(b))
  {
  }
}
