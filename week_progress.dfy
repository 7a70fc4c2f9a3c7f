/** One week card of the progress map: the completed count, the step and
    distance totals, the completion rate and the per-day overall progress.
    Its day records carry their own goals and differ from the store's. */
module WeekProgressView {
  import opened Common

  datatype Goals = Goals(steps: real, distance: real)

  /** A day as the week card shows it; `day` is its index in the week. */
  datatype CardDay = CardDay(day: nat, date: int, completed: bool, steps: real, distance: real, goals: Goals)

  datatype WeekCard = WeekCard(week: nat, startDate: int, days: seq<CardDay>)

  /** `days.filter(day => day.completed).length`. */
  function CountCompleted(days: seq<CardDay>): (n: nat)
    ensures n <= |days|
    ensures n == 0 <==> forall i :: 0 <= i < |days| ==> !days[i].completed
    ensures n == |days| <==> forall i :: 0 <= i < |days| ==> days[i].completed
    decreases |days|
  {
    if |days| == 0 then 0
    else
      assert forall i :: 1 <= i < |days| ==> days[1..][i - 1] == days[i];
      (if days[0].completed then 1 else 0) + CountCompleted(days[1..])
  }

  /** `days.reduce((sum, day) => sum + day.steps, 0)`. */
  function TotalSteps(days: seq<CardDay>): real
    decreases |days|
  {
    if |days| == 0 then 0.0 else days[0].steps + TotalSteps(days[1..])
  }

  /** `days.reduce((sum, day) => sum + day.distance, 0)`. */
  function TotalDistance(days: seq<CardDay>): real
    decreases |days|
  {
    if |days| == 0 then 0.0 else days[0].distance + TotalDistance(days[1..])
  }

  /** The totals are plain sums: they split over any division of the week
      into two parts. */
  lemma {:induction false} TotalsSplit(a: seq<CardDay>, b: seq<CardDay>)
    ensures TotalSteps(a + b) == TotalSteps(a) + TotalSteps(b)
    ensures TotalDistance(a + b) == TotalDistance(a) + TotalDistance(b)
    decreases |a|
  {
    if |a| == 0 {
      assert a + b == b;
    } else {
      assert (a + b)[0] == a[0];
      assert (a + b)[1..] == a[1..] + b;
      TotalsSplit(a[1..], b);
    }
  }

  /** With no negative readings, each total is at least every single day's
      reading. */
  lemma {:induction false} TotalsDominateDays(days: seq<CardDay>, i: int)
    requires forall k :: 0 <= k < |days| ==> days[k].steps >= 0.0 && days[k].distance >= 0.0
    requires 0 <= i < |days|
    ensures TotalSteps(days) >= days[i].steps
    ensures TotalDistance(days) >= days[i].distance
    decreases |days|
  {
    if i == 0 {
      TotalsNonNegative(days[1..]);
    } else {
      TotalsDominateDays(days[1..], i - 1);
    }
  }

  lemma {:induction false} TotalsNonNegative(days: seq<CardDay>)
    requires forall k :: 0 <= k < |days| ==> days[k].steps >= 0.0 && days[k].distance >= 0.0
    ensures TotalSteps(days) >= 0.0 && TotalDistance(days) >= 0.0
    decreases |days|
  {
    if |days| > 0 {
      TotalsNonNegative(days[1..]);
    }
  }

  /** `n / total * 100`: the share of `n` in `total`, in percent. */
  function Share(n: nat, total: nat): (r: real)
    requires 0 < total && n <= total
    ensures 0.0 <= r <= 100.0
    ensures r == 0.0 <==> n == 0
    ensures r == 100.0 <==> n == total
  {
    assert n as real <= total as real;
    n as real / total as real * 100.0
  }

  /** `completedDays / days.length * 100`, over the actual length. */
  function CompletionRate(days: seq<CardDay>): (r: real)
    requires |days| > 0
    ensures 0.0 <= r <= 100.0
    ensures r == 0.0 <==> forall i :: 0 <= i < |days| ==> !days[i].completed
    ensures r == 100.0 <==> forall i :: 0 <= i < |days| ==> days[i].completed
  {
    Share(CountCompleted(days), |days|)
  }

  /** A day cell's overall progress: the mean of its two capped
      percentages. */
  function DayOverall(d: CardDay): (r: real)
    requires d.goals.steps > 0.0 && d.goals.distance > 0.0
    ensures r <= 100.0
    ensures d.steps >= 0.0 && d.distance >= 0.0 ==> r >= 0.0
    ensures r == 100.0 <==> d.steps >= d.goals.steps && d.distance >= d.goals.distance
  {
    OverallPercent(d.steps, d.goals.steps, d.distance, d.goals.distance)
  }

  /** What the card's header and summary show. The header reads the
      seventh day, so the card needs at least seven. */
  datatype Summary = Summary(completedDays: nat, totalSteps: real, totalDistance: real,
                             completionPercent: int, lastDate: int)

  function WeekSummary(w: WeekCard): (s: Summary)
    requires |w.days| >= 7
    ensures s.completedDays == CountCompleted(w.days) && s.completedDays <= |w.days|
    ensures s.completionPercent == Round(CompletionRate(w.days))
    ensures 0 <= s.completionPercent <= 100
    ensures s.totalSteps == TotalSteps(w.days) && s.totalDistance == TotalDistance(w.days)
    ensures s.lastDate == w.days[6].date
  {
    var rate := CompletionRate(w.days);
    Summary(CountCompleted(w.days), TotalSteps(w.days), TotalDistance(w.days), Round(rate), w.days[6].date)
  }

  /** The first week of the fixture data: four days completed out of
      seven, shown as 57 %, with 66000 steps and 49.5 km in total. */
  function FixtureWeek(): WeekCard {
    var g := Goals(10000.0, 8.0);
    WeekCard(0, 0, [
      CardDay(0, 0, true, 12500.0, 9.2, g),
      CardDay(1, 1, true, 11200.0, 8.8, g),
      CardDay(2, 2, false, 6500.0, 4.2, g),
      CardDay(3, 3, true, 13000.0, 10.1, g),
      CardDay(4, 4, false, 7800.0, 5.9, g),
      CardDay(5, 5, true, 10800.0, 8.5, g),
      CardDay(6, 6, false, 4200.0, 2.8, g)])
  }

  lemma {:induction false} FixtureSummary()
    ensures WeekSummary(FixtureWeek()) == Summary(4, 66000.0, 49.5, 57, 6)
  {
    var w := FixtureWeek();
    var d := w.days;
    assert d[1..][1..][1..][1..][1..][1..][1..] == [];
    assert CountCompleted(d) == 4;
    assert TotalSteps(d) == 66000.0;
    assert TotalDistance(d) == 49.5;
    assert CompletionRate(d) == 400.0 / 7.0;
    assert Round(400.0 / 7.0) == 57;
  }

  datatype Key = Enter | Space | OtherKey

  /** `handleKeyDown`: the number of times `onClick` is called. */
  function KeyDownClicks(k: Key): (n: nat)
    ensures n <= 1
    ensures n == 1 <==> k == Enter || k == Space
  {
    match k
    case Enter => 1
    case Space => 1
    case OtherKey => 0
  }
}
