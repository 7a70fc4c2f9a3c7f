/** The achievement records, the built-in catalog, the user statistics
    they are judged against, and the pure rules of the achievement service:
    the merge of stored records over the catalog, the progress of one
    achievement, the two evaluation passes and the notification queue.
    Timestamps (`new Date()`) are an integer `now` supplied by the caller;
    a calendar day is the integer day number of `ProgressTypes`. */
module Achievements {
  import opened Common
  import opened ProgressTypes

  datatype Category = StepsCategory | DistanceCategory | StreakCategory | SpecialCategory | MilestonesCategory

  /** What an achievement's threshold is compared with. */
  datatype ConditionType =
    | StepsDaily | StepsTotal | DistanceDaily | DistanceTotal
    | StreakDays | PetTaps | Pirouettes | GoalAchievements

  datatype Condition = Condition(kind: ConditionType, value: real)

  datatype Rarity = Common | Rare | Epic | Legendary

  /** One achievement; `progress` is a percentage and `unlockedAt` the
      timestamp of the unlock, absent while locked. The emoji icon is not
      part of this model. */
  datatype Achievement = Achievement(
    id: string,
    title: string,
    description: string,
    category: Category,
    condition: Condition,
    unlocked: bool,
    unlockedAt: Option<int>,
    progress: real,
    rarity: Rarity)

  /** The counters kept across sessions. */
  datatype UserStats = UserStats(
    totalSteps: real,
    totalDistance: real,
    currentStreak: int,
    maxStreak: int,
    totalPetTaps: int,
    totalPirouettes: int,
    totalGoalAchievements: int,
    daysActive: int,
    lastActiveDate: Option<Date>)

  /** A `Partial<UserStats>`, and also the parsed JSON object of the stats
      key: every field may be absent. */
  datatype StatsUpdate = StatsUpdate(
    totalSteps: Option<real>,
    totalDistance: Option<real>,
    currentStreak: Option<int>,
    maxStreak: Option<int>,
    totalPetTaps: Option<int>,
    totalPirouettes: Option<int>,
    totalGoalAchievements: Option<int>,
    daysActive: Option<int>,
    lastActiveDate: Option<Date>)

  /** An entry of the stored achievement list, as JSON gives it back: every
      field may be absent. */
  datatype StoredAchievement = StoredAchievement(
    id: Option<string>,
    title: Option<string>,
    description: Option<string>,
    category: Option<Category>,
    condition: Option<Condition>,
    unlocked: Option<bool>,
    unlockedAt: Option<int>,
    progress: Option<real>,
    rarity: Option<Rarity>)

  datatype Notification = Notification(achievement: Achievement, timestamp: int, seen: bool)

  /** A locked catalog entry. */
  function Locked(id: string, title: string, description: string, category: Category,
                  kind: ConditionType, value: real, rarity: Rarity): Achievement
  {
    Achievement(id, title, description, category, Condition(kind, value), false, None, 0.0, rarity)
  }

  /** The ids of the built-in achievements, in catalog order. */
  function CatalogIds(): seq<string> {
    ["first_steps", "daily_walker", "step_master", "marathon_walker",
     "first_kilometer", "distance_daily", "hundred_km",
     "streak_3", "streak_7", "streak_30",
     "pet_lover", "pirouette_master", "goal_crusher"]
  }

  /** The thirteen built-in achievements. */
  function Catalog(): (r: seq<Achievement>)
    ensures |r| == 13
    ensures forall i :: 0 <= i < |r| ==> r[i].id == CatalogIds()[i]
    ensures forall i :: 0 <= i < |r| ==>
      !r[i].unlocked && r[i].unlockedAt.None? && r[i].progress == 0.0 && r[i].condition.value > 0.0
  {
    [Locked("first_steps", "First Steps", "Take your first 100 steps",
            StepsCategory, StepsTotal, 100.0, Common),
     Locked("daily_walker", "Daily Walker", "Reach your daily step goal",
            StepsCategory, StepsDaily, 10000.0, Common),
     Locked("step_master", "Step Master", "Walk 100,000 total steps",
            StepsCategory, StepsTotal, 100000.0, Epic),
     Locked("marathon_walker", "Marathon Walker", "Walk 1 million steps",
            StepsCategory, StepsTotal, 1000000.0, Legendary),
     Locked("first_kilometer", "First Kilometer", "Walk your first kilometer",
            DistanceCategory, DistanceTotal, 1.0, Common),
     Locked("distance_daily", "Daily Distance", "Reach your daily distance goal",
            DistanceCategory, DistanceDaily, 8.0, Common),
     Locked("hundred_km", "Century Walker", "Walk 100 kilometers total",
            DistanceCategory, DistanceTotal, 100.0, Rare),
     Locked("streak_3", "Getting Started", "Maintain a 3-day streak",
            StreakCategory, StreakDays, 3.0, Common),
     Locked("streak_7", "Week Warrior", "Maintain a 7-day streak",
            StreakCategory, StreakDays, 7.0, Rare),
     Locked("streak_30", "Consistency King", "Maintain a 30-day streak",
            StreakCategory, StreakDays, 30.0, Epic),
     Locked("pet_lover", "Pet Lover", "Tap your pet 100 times",
            SpecialCategory, PetTaps, 100.0, Common),
     Locked("pirouette_master", "Pirouette Master", "Make your pet do 50 pirouettes",
            SpecialCategory, Pirouettes, 50.0, Rare),
     Locked("goal_crusher", "Goal Crusher", "Achieve your daily goals 10 times",
            MilestonesCategory, GoalAchievements, 10.0, Rare)]
  }

  /** No two entries of `list` share an id. */
  predicate DistinctIds(list: seq<Achievement>) {
    forall i, j :: 0 <= i < j < |list| ==> list[i].id != list[j].id
  }

  /** The catalog ids are pairwise different. */
  lemma CatalogIdsDistinct()
    ensures DistinctIds(Catalog())
  {
    var ids := CatalogIds();
    var c := Catalog();
    forall i, j | 0 <= i < j < |c|
      ensures c[i].id != c[j].id
    {
      assert c[i].id == ids[i] && c[j].id == ids[j];
    }
  }

  /** Every threshold of `list` is positive, so a percentage can be taken. */
  predicate PositiveThresholds(list: seq<Achievement>) {
    forall i :: 0 <= i < |list| ==> list[i].condition.value > 0.0
  }

  // ---------------------------------------------------------------- stats

  /** The statistics of a user who has no stored stats. */
  function DefaultStats(): UserStats {
    UserStats(0.0, 0.0, 0, 0, 0, 0, 0, 0, None)
  }

  /** An update that changes nothing. */
  function NoUpdate(): StatsUpdate {
    StatsUpdate(None, None, None, None, None, None, None, None, None)
  }

  /** `{ ...s, ...u }`: every field present in `u` wins. */
  function ApplyUpdate(s: UserStats, u: StatsUpdate): (r: UserStats)
    ensures u == NoUpdate() ==> r == s
    ensures r.totalSteps == u.totalSteps.GetOr(s.totalSteps)
    ensures r.totalDistance == u.totalDistance.GetOr(s.totalDistance)
    ensures r.currentStreak == u.currentStreak.GetOr(s.currentStreak)
    ensures r.maxStreak == u.maxStreak.GetOr(s.maxStreak)
    ensures u.totalPetTaps.Some? ==> r.totalPetTaps == u.totalPetTaps.value
    ensures u.totalPetTaps.None? ==> r.totalPetTaps == s.totalPetTaps
    ensures r.totalPirouettes == u.totalPirouettes.GetOr(s.totalPirouettes)
    ensures r.totalGoalAchievements == u.totalGoalAchievements.GetOr(s.totalGoalAchievements)
    ensures r.daysActive == u.daysActive.GetOr(s.daysActive)
    ensures r.lastActiveDate == if u.lastActiveDate.Some? then u.lastActiveDate else s.lastActiveDate
  {
    UserStats(
      u.totalSteps.GetOr(s.totalSteps),
      u.totalDistance.GetOr(s.totalDistance),
      u.currentStreak.GetOr(s.currentStreak),
      u.maxStreak.GetOr(s.maxStreak),
      u.totalPetTaps.GetOr(s.totalPetTaps),
      u.totalPirouettes.GetOr(s.totalPirouettes),
      u.totalGoalAchievements.GetOr(s.totalGoalAchievements),
      u.daysActive.GetOr(s.daysActive),
      if u.lastActiveDate.Some? then u.lastActiveDate else s.lastActiveDate)
  }

  /** The JSON object written for `s`: every field present except an absent
      `lastActiveDate`, which `JSON.stringify` drops. */
  function Written(s: UserStats): StatsUpdate {
    StatsUpdate(Some(s.totalSteps), Some(s.totalDistance), Some(s.currentStreak),
                Some(s.maxStreak), Some(s.totalPetTaps), Some(s.totalPirouettes),
                Some(s.totalGoalAchievements), Some(s.daysActive), s.lastActiveDate)
  }

  /** `getUserStats` over the stats key: the defaults, overlaid by what is stored. */
  function StatsFrom(slot: Option<StatsUpdate>): (r: UserStats)
    ensures slot.None? ==> r == DefaultStats()
  {
    if slot.Some? then ApplyUpdate(DefaultStats(), slot.value) else DefaultStats()
  }

  /** Reading back written stats gives them unchanged. */
  lemma StatsRoundTrip(s: UserStats)
    ensures StatsFrom(Some(Written(s))) == s
  {
  }

  /** `trackPetTap`: one more pet tap. */
  function PetTapUpdate(s: UserStats): (u: StatsUpdate)
    ensures ApplyUpdate(s, u) == s.(totalPetTaps := s.totalPetTaps + 1)
  {
    NoUpdate().(totalPetTaps := Some(s.totalPetTaps + 1))
  }

  /** `trackPirouette`: one more pirouette. */
  function PirouetteUpdate(s: UserStats): (u: StatsUpdate)
    ensures ApplyUpdate(s, u) == s.(totalPirouettes := s.totalPirouettes + 1)
  {
    NoUpdate().(totalPirouettes := Some(s.totalPirouettes + 1))
  }

  /** The streak `trackDailyProgress` records: it moves only when the goal was
      met on a day not yet recorded; it then grows after an active yesterday
      and restarts at 1 otherwise. The middle branch of the source (last
      active today) is unreachable behind its guard and kept as written. */
  function NewStreak(s: UserStats, goalAchieved: bool, today: Date): (r: int)
    ensures goalAchieved && s.lastActiveDate == Some(today - 1) ==> r == s.currentStreak + 1
    ensures goalAchieved && s.lastActiveDate != Some(today - 1) && s.lastActiveDate != Some(today) ==> r == 1
    ensures !goalAchieved || s.lastActiveDate == Some(today) ==> r == s.currentStreak
  {
    if goalAchieved && s.lastActiveDate != Some(today) then
      if s.lastActiveDate == Some(today - 1) then s.currentStreak + 1
      else if s.lastActiveDate == Some(today) then s.currentStreak
      else 1
    else s.currentStreak
  }

  /** The update `trackDailyProgress(steps, distance, goalAchieved)` writes on `today`. */
  function DailyUpdate(s: UserStats, steps: real, distance: real, goalAchieved: bool, today: Date): StatsUpdate {
    var streak := NewStreak(s, goalAchieved, today);
    StatsUpdate(
      Some(Max(s.totalSteps, steps)),
      Some(Max(s.totalDistance, distance)),
      Some(streak),
      Some(MaxInt(s.maxStreak, streak)),
      None,
      None,
      if goalAchieved then Some(s.totalGoalAchievements + 1) else None,
      Some(if s.lastActiveDate != Some(today) then s.daysActive + 1 else s.daysActive),
      Some(today))
  }

  /** The stats after `trackDailyProgress`. */
  function DailyStats(s: UserStats, steps: real, distance: real, goalAchieved: bool, today: Date): UserStats {
    ApplyUpdate(s, DailyUpdate(s, steps, distance, goalAchieved, today))
  }

  /** What `trackDailyProgress` promises about the stats: the totals are
      running maxima of the readings and never drop, the best streak keeps
      up with the current one, the day is recorded, a new day is counted
      once, every call with a met goal counts, and the tap counters are
      untouched. */
  lemma DailyProgressStats(s: UserStats, steps: real, distance: real, goalAchieved: bool, today: Date)
    ensures var r := DailyStats(s, steps, distance, goalAchieved, today);
      && r.totalSteps >= s.totalSteps && r.totalSteps >= steps
      && (r.totalSteps == s.totalSteps || r.totalSteps == steps)
      && r.totalDistance >= s.totalDistance && r.totalDistance >= distance
      && (r.totalDistance == s.totalDistance || r.totalDistance == distance)
      && r.currentStreak == NewStreak(s, goalAchieved, today)
      && r.maxStreak == MaxInt(s.maxStreak, r.currentStreak)
      && r.lastActiveDate == Some(today)
      && r.daysActive == (if s.lastActiveDate == Some(today) then s.daysActive else s.daysActive + 1)
      && r.totalGoalAchievements == (if goalAchieved then s.totalGoalAchievements + 1 else s.totalGoalAchievements)
      && r.totalPetTaps == s.totalPetTaps && r.totalPirouettes == s.totalPirouettes
  {
  }

  /** A second `trackDailyProgress` on the same day keeps the streak and the
      active-day count, yet counts another goal achievement when the goal is
      met again. */
  lemma SameDayTwice(s: UserStats, steps: real, distance: real, goalAchieved: bool, today: Date)
    ensures var once := DailyStats(s, steps, distance, goalAchieved, today);
      var twice := DailyStats(once, steps, distance, goalAchieved, today);
      && twice.currentStreak == once.currentStreak
      && twice.daysActive == once.daysActive
      && twice.totalSteps == once.totalSteps
      && (goalAchieved ==> twice.totalGoalAchievements == once.totalGoalAchievements + 1)
  {
  }

  /** Stats whose best streak is at least the current one keep that
      property through `trackDailyProgress`. */
  lemma MaxStreakDominates(s: UserStats, steps: real, distance: real, goalAchieved: bool, today: Date)
    requires s.maxStreak >= s.currentStreak
    ensures var r := DailyStats(s, steps, distance, goalAchieved, today);
      r.maxStreak >= r.currentStreak && r.maxStreak >= s.maxStreak
  {
  }

  /** The stats after one `trackDailyProgress` per day over consecutive days
      starting at `first`, the goal met each time. */
  function DailyRun(s: UserStats, readings: seq<real>, first: Date): UserStats
    decreases |readings|
  {
    if |readings| == 0 then s
    else DailyRun(DailyStats(s, readings[0], 0.0, true, first), readings[1..], first + 1)
  }

  /** Meeting the goal on `n` consecutive days, the first of them after a gap,
      gives a streak of `n`, counts `n` active days and `n` goal
      achievements. */
  lemma {:induction false} ConsecutiveDaysBuildStreak(s: UserStats, readings: seq<real>, first: Date)
    requires |readings| > 0
    requires s.lastActiveDate != Some(first - 1) && s.lastActiveDate != Some(first)
    ensures var r := DailyRun(s, readings, first);
      && r.currentStreak == |readings|
      && r.daysActive == s.daysActive + |readings|
      && r.totalGoalAchievements == s.totalGoalAchievements + |readings|
      && r.lastActiveDate == Some(first + |readings| - 1)
    decreases |readings|
  {
    var next := DailyStats(s, readings[0], 0.0, true, first);
    assert next.currentStreak == 1;
    if |readings| > 1 {
      ContinuedStreak(next, readings[1..], first + 1);
    }
  }

  /** The inductive step of the run above: after an active yesterday, each
      further day adds one to the streak. */
  lemma {:induction false} ContinuedStreak(s: UserStats, readings: seq<real>, first: Date)
    requires |readings| > 0
    requires s.lastActiveDate == Some(first - 1)
    ensures var r := DailyRun(s, readings, first);
      && r.currentStreak == s.currentStreak + |readings|
      && r.daysActive == s.daysActive + |readings|
      && r.totalGoalAchievements == s.totalGoalAchievements + |readings|
      && r.lastActiveDate == Some(first + |readings| - 1)
    decreases |readings|
  {
    var next := DailyStats(s, readings[0], 0.0, true, first);
    if |readings| > 1 {
      ContinuedStreak(next, readings[1..], first + 1);
    }
  }

  // ---------------------------------------------------------------- merge

  /** `{ ...a, ...s }`: every field present in the stored entry wins. */
  function Overlay(a: Achievement, s: StoredAchievement): Achievement {
    Achievement(
      s.id.GetOr(a.id),
      s.title.GetOr(a.title),
      s.description.GetOr(a.description),
      s.category.GetOr(a.category),
      s.condition.GetOr(a.condition),
      s.unlocked.GetOr(a.unlocked),
      if s.unlockedAt.Some? then s.unlockedAt else a.unlockedAt,
      s.progress.GetOr(a.progress),
      s.rarity.GetOr(a.rarity))
  }

  /** The JSON object written for an achievement: every field, except an
      absent `unlockedAt`. */
  function Stored(a: Achievement): StoredAchievement {
    StoredAchievement(Some(a.id), Some(a.title), Some(a.description), Some(a.category),
                      Some(a.condition), Some(a.unlocked), a.unlockedAt, Some(a.progress), Some(a.rarity))
  }

  /** The stored form of a whole list. */
  function StoredAll(list: seq<Achievement>): (r: seq<StoredAchievement>)
    ensures |r| == |list|
    ensures forall i :: 0 <= i < |list| ==> r[i] == Stored(list[i])
  {
    seq(|list|, i requires 0 <= i < |list| => Stored(list[i]))
  }

  /** `merged.findIndex(a => a.id === id)`: the first position carrying `id`. */
  function FindIndex(merged: seq<Achievement>, id: Option<string>): (r: Option<nat>)
    ensures r.None? ==> forall i :: 0 <= i < |merged| ==> Some(merged[i].id) != id
    ensures r.Some? ==>
      (r.value < |merged| && Some(merged[r.value].id) == id
       && forall i :: 0 <= i < r.value ==> Some(merged[i].id) != id)
    decreases |merged|
  {
    if |merged| == 0 then None
    else if Some(merged[0].id) == id then Some(0)
    else
      match FindIndex(merged[1..], id)
      case None => None
      case Some(k) => Some(k + 1)
  }

  /** One step of the `forEach` in `mergeWithDefaults`: the stored entry is
      laid over the first entry with its id, if there is one. */
  function MergeOne(merged: seq<Achievement>, s: StoredAchievement): (r: seq<Achievement>)
    ensures |r| == |merged|
  {
    match FindIndex(merged, s.id)
    case None => merged
    case Some(k) => merged[k := Overlay(merged[k], s)]
  }

  /** `mergeWithDefaults(stored)` over `merged`: the stored entries laid
      over it in order. */
  function Merge(merged: seq<Achievement>, stored: seq<StoredAchievement>): (r: seq<Achievement>)
    ensures |r| == |merged|
    decreases |stored|
  {
    if |stored| == 0 then merged
    else MergeOne(Merge(merged, stored[..|stored| - 1]), stored[|stored| - 1])
  }

  /** The reference reading of the merge, position by position: an entry is
      its default with every stored entry of the same id laid over it, in
      the order they are stored. */
  function OverlayMatching(a: Achievement, stored: seq<StoredAchievement>): Achievement
    decreases |stored|
  {
    if |stored| == 0 then a
    else
      var prev := OverlayMatching(a, stored[..|stored| - 1]);
      if stored[|stored| - 1].id == Some(a.id) then Overlay(prev, stored[|stored| - 1]) else prev
  }

  /** Laying entries of the same id over an entry keeps its id. */
  lemma {:induction false} OverlayMatchingKeepsId(a: Achievement, stored: seq<StoredAchievement>)
    ensures OverlayMatching(a, stored).id == a.id
    decreases |stored|
  {
    if |stored| > 0 {
      OverlayMatchingKeepsId(a, stored[..|stored| - 1]);
    }
  }

  /** The merge keeps the catalog's ids in the catalog's order and, for
      distinct ids, gives at each position exactly the reference overlay of
      that position's stored entries; stored ids outside the catalog change
      nothing. */
  lemma {:induction false} MergeIsPerIdOverlay(merged: seq<Achievement>, stored: seq<StoredAchievement>)
    requires DistinctIds(merged)
    ensures var r := Merge(merged, stored);
      forall i :: 0 <= i < |merged| ==> r[i] == OverlayMatching(merged[i], stored)
    decreases |stored|
  {
    if |stored| > 0 {
      var init := stored[..|stored| - 1];
      var s := stored[|stored| - 1];
      MergeIsPerIdOverlay(merged, init);
      var prev := Merge(merged, init);
      forall i | 0 <= i < |merged|
        ensures prev[i].id == merged[i].id
      {
        OverlayMatchingKeepsId(merged[i], init);
      }
      var r := Merge(merged, stored);
      assert r == MergeOne(prev, s);
      forall i | 0 <= i < |merged|
        ensures r[i] == OverlayMatching(merged[i], stored)
      {
        assert stored[..|stored| - 1] == init;
        match FindIndex(prev, s.id)
        case None =>
        case Some(k) =>
          if i != k {
            assert merged[i].id != merged[k].id;
          }
      }
    }
  }

  /** The ids after a merge are the catalog's ids in the catalog's order. */
  lemma MergeKeepsIds(merged: seq<Achievement>, stored: seq<StoredAchievement>)
    requires DistinctIds(merged)
    ensures var r := Merge(merged, stored);
      forall i :: 0 <= i < |merged| ==> r[i].id == merged[i].id
  {
    MergeIsPerIdOverlay(merged, stored);
    forall i | 0 <= i < |merged|
      ensures OverlayMatching(merged[i], stored).id == merged[i].id
    {
      OverlayMatchingKeepsId(merged[i], stored);
    }
  }

  /** Stored entries whose id is not in the catalog are dropped: leaving
      them out gives the same merge. */
  lemma {:induction false} UnknownIdsDropped(merged: seq<Achievement>, stored: seq<StoredAchievement>, s: StoredAchievement)
    requires DistinctIds(merged)
    requires forall i :: 0 <= i < |merged| ==> Some(merged[i].id) != s.id
    ensures Merge(merged, stored + [s]) == Merge(merged, stored)
  {
    var all := stored + [s];
    assert all[..|all| - 1] == stored;
    MergeKeepsIds(merged, stored);
    var prev := Merge(merged, stored);
    assert forall k :: 0 <= k < |prev| ==> Some(prev[k].id) != s.id;
  }

  /** A merge whose stored thresholds are positive keeps every threshold positive. */
  lemma {:induction false} MergeKeepsPositiveThresholds(merged: seq<Achievement>, stored: seq<StoredAchievement>)
    requires PositiveThresholds(merged)
    requires forall j :: 0 <= j < |stored| && stored[j].condition.Some? ==> stored[j].condition.value.value > 0.0
    ensures PositiveThresholds(Merge(merged, stored))
    decreases |stored|
  {
    if |stored| > 0 {
      MergeKeepsPositiveThresholds(merged, stored[..|stored| - 1]);
    }
  }

  /** With distinct ids, the position carrying an id is the one found. */
  lemma FindDistinct(merged: seq<Achievement>, j: nat)
    requires DistinctIds(merged) && j < |merged|
    ensures FindIndex(merged, Some(merged[j].id)) == Some(j)
  {
    assert forall i :: 0 <= i < |merged| && i != j ==> merged[i].id != merged[j].id;
  }

  /** Laying a list's own stored entry over its default gives the entry. */
  lemma OverlayStored(d: Achievement, a: Achievement)
    requires d.unlockedAt.None?
    ensures Overlay(d, Stored(a)) == a
  {
  }

  /** Writing a list whose ids are the defaults' ids and reading it back
      merged over the defaults gives the list again: after `k` stored
      entries, the first `k` positions are the list's and the rest still the
      defaults'. */
  lemma {:induction false} MergeStoredRoundTrip(defaults: seq<Achievement>, list: seq<Achievement>, k: nat)
    requires DistinctIds(defaults) && |list| == |defaults| && k <= |list|
    requires forall i :: 0 <= i < |list| ==> list[i].id == defaults[i].id
    requires forall i :: 0 <= i < |defaults| ==> defaults[i].unlockedAt.None?
    ensures Merge(defaults, StoredAll(list[..k])) == list[..k] + defaults[k..]
    decreases k
  {
    if k == 0 {
      assert StoredAll(list[..0]) == [];
      assert list[..0] + defaults[0..] == defaults;
    } else {
      var stored := StoredAll(list[..k]);
      assert stored[..|stored| - 1] == StoredAll(list[..k - 1]);
      MergeStoredRoundTrip(defaults, list, k - 1);
      var prev := list[..k - 1] + defaults[k - 1..];
      assert Merge(defaults, stored) == MergeOne(prev, stored[k - 1]);
      MergeStep(defaults, list, k, prev);
    }
  }

  /** The step of the round trip: the `k`-th stored entry lands on position
      `k - 1` and replaces the default there. */
  lemma MergeStep(defaults: seq<Achievement>, list: seq<Achievement>, k: nat, prev: seq<Achievement>)
    requires DistinctIds(defaults) && |list| == |defaults| && 0 < k <= |list|
    requires forall i :: 0 <= i < |list| ==> list[i].id == defaults[i].id
    requires defaults[k - 1].unlockedAt.None?
    requires prev == list[..k - 1] + defaults[k - 1..]
    ensures MergeOne(prev, Stored(list[k - 1])) == list[..k] + defaults[k..]
  {
    assert |prev| == |defaults|;
    assert forall i :: 0 <= i < |prev| ==> prev[i].id == defaults[i].id;
    assert DistinctIds(prev);
    assert prev[k - 1] == defaults[k - 1];
    FindDistinct(prev, k - 1);
    OverlayStored(defaults[k - 1], list[k - 1]);
    assert prev[k - 1 := list[k - 1]] == list[..k] + defaults[k..];
  }

  /** `getAchievements` over the achievements key: the catalog, with the
      stored entries merged over it when the key holds a list. */
  function AchievementsFrom(slot: Option<seq<StoredAchievement>>): (r: seq<Achievement>)
    ensures slot.None? ==> r == Catalog()
    ensures |r| == 13
  {
    if slot.Some? then Merge(Catalog(), slot.value) else Catalog()
  }

  /** A saved list that carries the catalog's ids in order is read back unchanged. */
  lemma ReadBackSaved(list: seq<Achievement>)
    requires |list| == 13
    requires forall i :: 0 <= i < 13 ==> list[i].id == CatalogIds()[i]
    ensures AchievementsFrom(Some(StoredAll(list))) == list
  {
    CatalogIdsDistinct();
    assert forall i :: 0 <= i < 13 ==> list[i].id == Catalog()[i].id;
    MergeStoredRoundTrip(Catalog(), list, 13);
    assert list[..13] == list;
    assert list[..13] + Catalog()[13..] == list;
  }

  // ------------------------------------------------------------- evaluation

  /** The two conditions judged on a single day's readings. */
  predicate IsDaily(kind: ConditionType) {
    kind == StepsDaily || kind == DistanceDaily
  }

  /** The statistic a cumulative condition is compared with. */
  function StatOf(kind: ConditionType, stats: UserStats): real
    requires !IsDaily(kind)
  {
    match kind
    case StepsTotal => stats.totalSteps
    case DistanceTotal => stats.totalDistance
    case StreakDays => stats.currentStreak as real
    case PetTaps => stats.totalPetTaps as real
    case Pirouettes => stats.totalPirouettes as real
    case GoalAchievements => stats.totalGoalAchievements as real
  }

  /** `calculateProgress`: the capped percentage of the threshold that the
      matching statistic reaches; always 0 for the daily conditions. */
  function CalculateProgress(c: Condition, stats: UserStats): (r: real)
    requires c.value > 0.0
    ensures r <= 100.0
    ensures IsDaily(c.kind) ==> r == 0.0
    ensures r == 100.0 <==> !IsDaily(c.kind) && StatOf(c.kind, stats) >= c.value
  {
    if IsDaily(c.kind) then 0.0
    else CappedPercent(StatOf(c.kind, stats), c.value)
  }

  /** Below the threshold a total condition's progress is the statistic's
      share of the threshold, in percent. */
  lemma ProgressIsShare(c: Condition, stats: UserStats)
    requires c.value > 0.0 && !IsDaily(c.kind) && StatOf(c.kind, stats) <= c.value
    ensures CalculateProgress(c, stats) * c.value == StatOf(c.kind, stats) * 100.0
  {
    CappedPercentShare(StatOf(c.kind, stats), c.value);
  }

  /** One achievement after the loop body of `checkAchievements`: an
      unlocked one is left alone; otherwise its progress is set and it
      unlocks, stamped `now`, when the progress reaches 100. */
  function EvaluateStats(a: Achievement, stats: UserStats, now: int): (r: Achievement)
    requires a.condition.value > 0.0
    ensures a.unlocked ==> r == a
    ensures !a.unlocked ==> r.progress == CalculateProgress(a.condition, stats)
    ensures !a.unlocked ==> (r.unlocked <==> !IsDaily(a.condition.kind) && StatOf(a.condition.kind, stats) >= a.condition.value)
    ensures !a.unlocked && r.unlocked ==> r.unlockedAt == Some(now)
    ensures !a.unlocked && !r.unlocked ==> r.unlockedAt == a.unlockedAt
    ensures r.id == a.id && r.condition == a.condition && r.title == a.title
    ensures r.description == a.description && r.category == a.category && r.rarity == a.rarity
  {
    if a.unlocked then a
    else
      var p := CalculateProgress(a.condition, stats);
      var b := a.(progress := Min(p, 100.0));
      if p >= 100.0 then b.(unlocked := true, unlockedAt := Some(now)) else b
  }

  /** One achievement after the loop body of `checkDailyAchievements`: only
      a locked daily achievement changes; its progress is the capped share
      of the matching reading and it unlocks when that reaches 100. */
  function EvaluateDaily(a: Achievement, steps: real, distance: real, now: int): (r: Achievement)
    requires a.condition.value > 0.0
    ensures a.unlocked || !IsDaily(a.condition.kind) ==> r == a
    ensures !a.unlocked && a.condition.kind == StepsDaily ==>
      r.progress == CappedPercent(steps, a.condition.value) && (r.unlocked <==> steps >= a.condition.value)
    ensures !a.unlocked && a.condition.kind == DistanceDaily ==>
      r.progress == CappedPercent(distance, a.condition.value) && (r.unlocked <==> distance >= a.condition.value)
    ensures !a.unlocked && r.unlocked ==> r.unlockedAt == Some(now)
    ensures !r.unlocked ==> r.unlockedAt == a.unlockedAt
    ensures r.id == a.id && r.condition == a.condition && r.title == a.title
    ensures r.description == a.description && r.category == a.category && r.rarity == a.rarity
  {
    if a.unlocked then a
    else
      var p :=
        if a.condition.kind == StepsDaily then Some(CappedPercent(steps, a.condition.value))
        else if a.condition.kind == DistanceDaily then Some(CappedPercent(distance, a.condition.value))
        else None;
      match p
      case None => a
      case Some(progress) =>
        var b := a.(progress := progress);
        if progress >= 100.0 && !b.unlocked then b.(unlocked := true, unlockedAt := Some(now)) else b
  }

  /** The stats pass over a whole list. */
  function StatsPass(list: seq<Achievement>, stats: UserStats, now: int): (r: seq<Achievement>)
    requires PositiveThresholds(list)
    ensures |r| == |list| && PositiveThresholds(r)
    ensures forall i :: 0 <= i < |list| ==> r[i] == EvaluateStats(list[i], stats, now)
  {
    seq(|list|, i requires 0 <= i < |list| => EvaluateStats(list[i], stats, now))
  }

  /** The daily pass over a whole list. */
  function DailyPass(list: seq<Achievement>, steps: real, distance: real, now: int): (r: seq<Achievement>)
    requires PositiveThresholds(list)
    ensures |r| == |list| && PositiveThresholds(r)
    ensures forall i :: 0 <= i < |list| ==> r[i] == EvaluateDaily(list[i], steps, distance, now)
  {
    seq(|list|, i requires 0 <= i < |list| => EvaluateDaily(list[i], steps, distance, now))
  }

  /** The entries of `after` that were locked in `before` and are unlocked
      now, in list order: the `newlyUnlocked` of both passes. */
  function Flipped(before: seq<Achievement>, after: seq<Achievement>): (r: seq<Achievement>)
    requires |before| == |after|
    ensures |r| <= |after|
    ensures forall x :: x in r ==> x.unlocked
    decreases |after|
  {
    if |after| == 0 then []
    else
      var n := |after| - 1;
      var prev := Flipped(before[..n], after[..n]);
      if !before[n].unlocked && after[n].unlocked then prev + [after[n]] else prev
  }

  /** Extending both lists by one entry extends the report by that entry
      exactly when it flipped. */
  lemma FlippedSnoc(before: seq<Achievement>, after: seq<Achievement>, x: Achievement, y: Achievement)
    requires |before| == |after|
    ensures Flipped(before + [x], after + [y])
      == Flipped(before, after) + (if !x.unlocked && y.unlocked then [y] else [])
  {
    assert (before + [x])[..|before|] == before;
    assert (after + [y])[..|after|] == after;
  }

  /** An entry is reported exactly when it flipped from locked to unlocked. */
  lemma {:induction false} FlippedExactly(before: seq<Achievement>, after: seq<Achievement>, x: Achievement)
    requires |before| == |after|
    ensures x in Flipped(before, after) <==>
      exists i :: 0 <= i < |after| && !before[i].unlocked && after[i].unlocked && after[i] == x
    decreases |after|
  {
    if |after| > 0 {
      var n := |after| - 1;
      FlippedExactly(before[..n], after[..n], x);
      if x in Flipped(before, after) {
        if x !in Flipped(before[..n], after[..n]) {
          assert after[n] == x;
        } else {
          var i :| 0 <= i < n && !before[..n][i].unlocked && after[..n][i].unlocked && after[..n][i] == x;
          assert after[i] == x;
        }
      }
      if exists i :: 0 <= i < |after| && !before[i].unlocked && after[i].unlocked && after[i] == x {
        var i :| 0 <= i < |after| && !before[i].unlocked && after[i].unlocked && after[i] == x;
        if i < n {
          assert !before[..n][i].unlocked && after[..n][i].unlocked && after[..n][i] == x;
        }
      }
    }
  }

  /** An unlocked achievement is never touched again by either pass. */
  lemma UnlockedIsFinal(a: Achievement, stats: UserStats, steps: real, distance: real, now: int)
    requires a.unlocked && a.condition.value > 0.0
    ensures EvaluateStats(a, stats, now) == a
    ensures EvaluateDaily(a, steps, distance, now) == a
  {
  }

  /** A second stats pass with the same stats changes nothing and reports
      nothing. */
  lemma {:induction false} StatsPassIdempotent(list: seq<Achievement>, stats: UserStats, now: int, later: int)
    requires PositiveThresholds(list)
    ensures var once := StatsPass(list, stats, now);
      StatsPass(once, stats, later) == once && Flipped(once, once) == []
  {
    var once := StatsPass(list, stats, now);
    NothingFlipsInPlace(once);
  }

  /** A list compared with itself has nothing newly unlocked. */
  lemma {:induction false} NothingFlipsInPlace(list: seq<Achievement>)
    ensures Flipped(list, list) == []
    decreases |list|
  {
    if |list| > 0 {
      NothingFlipsInPlace(list[..|list| - 1]);
    }
  }

  /** On a fresh catalog the stats pass unlocks exactly the cumulative
      achievements whose statistic reaches the threshold, and leaves both
      daily ones locked at progress 0. */
  lemma StatsPassOnCatalog(stats: UserStats, now: int)
    ensures var r := StatsPass(Catalog(), stats, now);
      && !r[1].unlocked && r[1].progress == 0.0
      && !r[5].unlocked && r[5].progress == 0.0
      && (r[0].unlocked <==> stats.totalSteps >= 100.0)
      && (r[9].unlocked <==> stats.currentStreak >= 30)
      && (r[12].unlocked <==> stats.totalGoalAchievements >= 10)
  {
  }

  // ----------------------------------------------------------- notifications

  /** The notifications appended for a list of newly unlocked achievements. */
  function Notify(list: seq<Achievement>, now: int): (r: seq<Notification>)
    ensures |r| == |list|
    ensures forall i :: 0 <= i < |list| ==> r[i] == Notification(list[i], now, false)
  {
    seq(|list|, i requires 0 <= i < |list| => Notification(list[i], now, false))
  }

  /** `notifications.filter(n => !n.seen)`. */
  function Unseen(ns: seq<Notification>): (r: seq<Notification>)
    ensures |r| <= |ns|
    ensures forall n :: n in r ==> n in ns && !n.seen
    ensures forall n :: n in ns && !n.seen ==> n in r
    decreases |ns|
  {
    if |ns| == 0 then []
    else
      assert ns == ns[..|ns| - 1] + [ns[|ns| - 1]];
      var prev := Unseen(ns[..|ns| - 1]);
      if ns[|ns| - 1].seen then prev else prev + [ns[|ns| - 1]]
  }

  /** The filter distributes over appending, so order is kept. */
  lemma {:induction false} UnseenAppend(a: seq<Notification>, b: seq<Notification>)
    ensures Unseen(a + b) == Unseen(a) + Unseen(b)
    decreases |b|
  {
    if |b| == 0 {
      assert a + b == a;
    } else {
      var n := |b| - 1;
      assert (a + b)[..|a + b| - 1] == a + b[..n];
      UnseenAppend(a, b[..n]);
    }
  }

  /** Freshly appended notifications are all unseen. */
  lemma NotifyAllUnseen(list: seq<Achievement>, now: int)
    ensures Unseen(Notify(list, now)) == Notify(list, now)
  {
    AllUnseenKept(Notify(list, now));
  }

  /** A queue with nothing seen passes the filter unchanged. */
  lemma {:induction false} AllUnseenKept(ns: seq<Notification>)
    requires forall i :: 0 <= i < |ns| ==> !ns[i].seen
    ensures Unseen(ns) == ns
    decreases |ns|
  {
    if |ns| > 0 {
      var n := |ns| - 1;
      AllUnseenKept(ns[..n]);
      assert ns[..n] + [ns[n]] == ns;
    }
  }

  /** `notifications.forEach(n => n.seen = true)`. */
  function MarkAllSeen(ns: seq<Notification>): (r: seq<Notification>)
    ensures |r| == |ns|
    ensures forall i :: 0 <= i < |ns| ==> r[i] == ns[i].(seen := true)
  {
    seq(|ns|, i requires 0 <= i < |ns| => ns[i].(seen := true))
  }

  /** After marking, nothing is unseen. */
  lemma {:induction false} MarkedHaveNoUnseen(ns: seq<Notification>)
    ensures Unseen(MarkAllSeen(ns)) == []
    decreases |ns|
  {
    if |ns| > 0 {
      var n := |ns| - 1;
      assert MarkAllSeen(ns)[..n] == MarkAllSeen(ns[..n]);
      MarkedHaveNoUnseen(ns[..n]);
    }
  }
}
