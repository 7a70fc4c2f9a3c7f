/** The streak banner: icon, colour and message bands for the current
    streak, the weekly progress bar, the milestone markers and the best
    streak block. */
module StreakView {
  import opened ProgressTypes
  import ProgressStore

  datatype Icon = Target | Flame | Trophy

  /** `getStreakIcon`. */
  function StreakIcon(streak: nat): (r: Icon)
    ensures r == Target <==> streak == 0
    ensures r == Flame <==> 1 <= streak < 7
    ensures r == Trophy <==> streak >= 7
  {
    if streak == 0 then Target
    else if streak < 7 then Flame
    else Trophy
  }

  datatype StreakColor = Gray | LightOrange | Orange | Red | Purple

  /** `getStreakColor`. */
  function StreakColorOf(streak: nat): (r: StreakColor)
    ensures r == Gray <==> streak == 0
    ensures r == LightOrange <==> 1 <= streak < 3
    ensures r == Orange <==> 3 <= streak < 7
    ensures r == Red <==> 7 <= streak < 14
    ensures r == Purple <==> streak >= 14
  {
    if streak == 0 then Gray
    else if streak < 3 then LightOrange
    else if streak < 7 then Orange
    else if streak < 14 then Red
    else Purple
  }

  datatype StreakMessage =
    | StartStreak
    | GreatStart
    | DaysStrong(days: nat)
    | DaysOnFire(days: nat)
    | DaysUnstoppable(days: nat)
    | DaysLegendary(days: nat)

  /** `getStreakMessage`. */
  function StreakMessageOf(streak: nat): (r: StreakMessage)
    ensures r == StartStreak <==> streak == 0
    ensures r == GreatStart <==> streak == 1
    ensures r.DaysStrong? <==> 2 <= streak < 7
    ensures r.DaysOnFire? <==> 7 <= streak < 14
    ensures r.DaysUnstoppable? <==> 14 <= streak < 21
    ensures r.DaysLegendary? <==> streak >= 21
    ensures streak >= 2 ==> r.days == streak
  {
    if streak == 0 then StartStreak
    else if streak == 1 then GreatStart
    else if streak < 7 then DaysStrong(streak)
    else if streak < 14 then DaysOnFire(streak)
    else if streak < 21 then DaysUnstoppable(streak)
    else DaysLegendary(streak)
  }

  /** The three band tables agree at their shared edges: the trophy is shown
      exactly for the red and purple colours and for the fire, unstoppable
      and legendary messages. */
  lemma BandsAgree(streak: nat)
    ensures StreakIcon(streak) == Trophy <==> StreakColorOf(streak) in {Red, Purple}
    ensures StreakIcon(streak) == Trophy <==>
      (StreakMessageOf(streak).DaysOnFire? || StreakMessageOf(streak).DaysUnstoppable?
       || StreakMessageOf(streak).DaysLegendary?)
    ensures StreakIcon(streak) == Target <==> StreakColorOf(streak) == Gray
  {
  }

  /** The width of the weekly bar in percent: one seventh per day, full
      from a week on. */
  function BarWidth(streak: nat): (r: real)
    ensures 0.0 <= r <= 100.0
    ensures r == 0.0 <==> streak == 0
    ensures r == 100.0 <==> streak >= 7
    ensures streak < 7 ==> r * 7.0 == streak as real * 100.0
  {
    if streak > 0 then
      var w := streak as real / 7.0 * 100.0;
      if w <= 100.0 then w else 100.0
    else 0.0
  }

  /** The bar fills up as the streak grows. */
  lemma BarWidthMonotone(a: nat, b: nat)
    requires a <= b
    ensures BarWidth(a) <= BarWidth(b)
  {
  }

  datatype BarColor = OrangeBar | RedBar | PurpleBar

  /** The bar's gradient. */
  function BarColorOf(streak: nat): (r: BarColor)
    ensures r == OrangeBar <==> streak < 3
    ensures r == RedBar <==> 3 <= streak < 7
    ensures r == PurpleBar <==> streak >= 7
  {
    if streak < 3 then OrangeBar
    else if streak < 7 then RedBar
    else PurpleBar
  }

  /** The milestone markers, left to right. */
  const Milestones: seq<nat> := [3, 7, 14, 21]

  /** Which markers are drawn as reached. */
  function ReachedMilestones(streak: nat): (r: seq<bool>)
    ensures |r| == |Milestones|
    ensures forall i :: 0 <= i < |r| ==> (r[i] <==> streak >= Milestones[i])
  {
    seq(|Milestones|, i requires 0 <= i < |Milestones| => streak >= Milestones[i])
  }

  /** The reached markers are always a prefix: a marker is reached only if
      every one to its left is, and the full bar coincides with the second. */
  lemma ReachedMilestonesPrefix(streak: nat)
    ensures var r := ReachedMilestones(streak);
      forall i, j :: 0 <= i < j < |r| && r[j] ==> r[i]
    ensures ReachedMilestones(streak)[1] <==> BarWidth(streak) == 100.0
  {
  }

  /** The best-streak block is shown for a positive longest streak. */
  predicate ShowsBestStreak(longest: nat) {
    longest > 0
  }

  /** Fed by the progress store, the banner shows the best streak whenever
      the user is on a streak. */
  lemma BestStreakShownOnStreak(m: History, today: Date)
    ensures ProgressStore.CurrentStreak(m, today) > 0 ==> ShowsBestStreak(ProgressStore.LongestStreak(m))
  {
    ProgressStore.CurrentAtMostLongest(m, today);
  }
}
