/** The achievement service: three storage keys (the achievement list, the
    user stats and the notification queue) held as in-memory slots whose
    writes succeed, and the operations that read and rewrite them. */
module AchievementService {
  import opened Common
  import opened ProgressTypes
  import opened Achievements

  class Service {
    /** `activegotchi-achievements`: the last saved list, if any. */
    var achievementsSlot: Option<seq<StoredAchievement>>
    /** `activegotchi-user-stats`: the last saved stats object, if any. */
    var statsSlot: Option<StatsUpdate>
    /** `activegotchi-achievement-notifications`: the queue, if any. */
    var notificationsSlot: Option<seq<Notification>>

    /** Every stored threshold is positive, so every merged list can be
        evaluated. */
    predicate Valid()
      reads this
    {
      achievementsSlot.Some? ==>
        forall j :: 0 <= j < |achievementsSlot.value| && achievementsSlot.value[j].condition.Some? ==>
          achievementsSlot.value[j].condition.value.value > 0.0
    }

    constructor(achievements: Option<seq<StoredAchievement>>, stats: Option<StatsUpdate>,
                notifications: Option<seq<Notification>>)
      requires achievements.Some? ==>
        forall j :: 0 <= j < |achievements.value| && achievements.value[j].condition.Some? ==>
          achievements.value[j].condition.value.value > 0.0
      ensures Valid()
      ensures achievementsSlot == achievements && statsSlot == stats && notificationsSlot == notifications
    {
      achievementsSlot := achievements;
      statsSlot := stats;
      notificationsSlot := notifications;
    }

    /** `getAchievements`. */
    function Achievements(): (r: seq<Achievement>)
      reads this
      requires Valid()
      ensures |r| == 13 && PositiveThresholds(r)
      ensures forall i :: 0 <= i < |r| ==> r[i].id == CatalogIds()[i]
    {
      CatalogIdsDistinct();
      if achievementsSlot.Some? then
        MergeKeepsPositiveThresholds(Catalog(), achievementsSlot.value);
        MergeKeepsIds(Catalog(), achievementsSlot.value);
        AchievementsFrom(achievementsSlot)
      else AchievementsFrom(achievementsSlot)
    }

    /** `getUserStats`. */
    function Stats(): (r: UserStats)
      reads this
      ensures statsSlot.None? ==> r == DefaultStats()
      ensures statsSlot.Some? ==> r == ApplyUpdate(DefaultStats(), statsSlot.value)
    {
      StatsFrom(statsSlot)
    }

    /** `getUnseenNotifications`: the unseen ones, in queue order. */
    function UnseenNotifications(): (r: seq<Notification>)
      reads this
      ensures notificationsSlot.None? ==> r == []
      ensures forall n :: n in r ==> !n.seen
    {
      if notificationsSlot.Some? then Unseen(notificationsSlot.value) else []
    }

    /** `saveAchievements`. */
    method SaveAchievements(list: seq<Achievement>)
      requires PositiveThresholds(list)
      modifies this
      ensures achievementsSlot == Some(StoredAll(list))
      ensures statsSlot == old(statsSlot) && notificationsSlot == old(notificationsSlot)
      ensures Valid()
    {
      achievementsSlot := Some(StoredAll(list));
    }

    /** `addNotifications`: one unseen notification per achievement, in
        order, after those already queued. */
    method AddNotifications(list: seq<Achievement>, now: int)
      modifies this
      ensures notificationsSlot == Some(old(notificationsSlot).GetOr([]) + Notify(list, now))
      ensures UnseenNotifications() == old(UnseenNotifications()) + Notify(list, now)
      ensures achievementsSlot == old(achievementsSlot) && statsSlot == old(statsSlot)
    {
      var existing := if notificationsSlot.Some? then notificationsSlot.value else [];
      var notifications := Enqueue(existing, list, now);
      notificationsSlot := Some(notifications);
      UnseenAppend(existing, Notify(list, now));
      NotifyAllUnseen(list, now);
    }

    /** `checkAchievements(stats)`: the stats pass over the current list,
        saved; the newly unlocked ones are queued and returned. */
    method CheckAchievements(stats: UserStats, now: int) returns (newly: seq<Achievement>)
      requires Valid()
      modifies this
      ensures Valid()
      ensures achievementsSlot == Some(StoredAll(StatsPass(old(Achievements()), stats, now)))
      ensures newly == Flipped(old(Achievements()), StatsPass(old(Achievements()), stats, now))
      ensures notificationsSlot ==
        if newly == [] then old(notificationsSlot) else Some(old(notificationsSlot).GetOr([]) + Notify(newly, now))
      ensures UnseenNotifications() == old(UnseenNotifications()) + Notify(newly, now)
      ensures statsSlot == old(statsSlot)
    {
      var list;
      list, newly := RunStatsPass(Achievements(), stats, now);
      SaveAchievements(list);
      Publish(newly, now);
    }

    /** The tail of both passes: notifications only when something unlocked. */
    method Publish(newly: seq<Achievement>, now: int)
      modifies this
      ensures notificationsSlot ==
        if newly == [] then old(notificationsSlot) else Some(old(notificationsSlot).GetOr([]) + Notify(newly, now))
      ensures UnseenNotifications() == old(UnseenNotifications()) + Notify(newly, now)
      ensures achievementsSlot == old(achievementsSlot) && statsSlot == old(statsSlot)
    {
      if |newly| > 0 {
        AddNotifications(newly, now);
      } else {
        assert Notify(newly, now) == [];
      }
    }

    /** `checkDailyAchievements(steps, distance)`: the daily pass over the
        current list, saved; the newly unlocked ones are queued and returned. */
    method CheckDailyAchievements(steps: real, distance: real, now: int) returns (newly: seq<Achievement>)
      requires Valid()
      modifies this
      ensures Valid()
      ensures achievementsSlot == Some(StoredAll(DailyPass(old(Achievements()), steps, distance, now)))
      ensures newly == Flipped(old(Achievements()), DailyPass(old(Achievements()), steps, distance, now))
      ensures notificationsSlot ==
        if newly == [] then old(notificationsSlot) else Some(old(notificationsSlot).GetOr([]) + Notify(newly, now))
      ensures UnseenNotifications() == old(UnseenNotifications()) + Notify(newly, now)
      ensures statsSlot == old(statsSlot)
    {
      var list;
      list, newly := RunDailyPass(Achievements(), steps, distance, now);
      SaveAchievements(list);
      Publish(newly, now);
    }

    /** `updateStats(updates)`: the stored stats with the update laid over
        them are saved, then judged. */
    method UpdateStats(updates: StatsUpdate, now: int) returns (newly: seq<Achievement>)
      requires Valid()
      modifies this
      ensures Valid()
      ensures Stats() == ApplyUpdate(old(Stats()), updates)
      ensures statsSlot == Some(Written(Stats()))
      ensures achievementsSlot == Some(StoredAll(StatsPass(old(Achievements()), Stats(), now)))
      ensures newly == Flipped(old(Achievements()), StatsPass(old(Achievements()), Stats(), now))
      ensures notificationsSlot ==
        if newly == [] then old(notificationsSlot) else Some(old(notificationsSlot).GetOr([]) + Notify(newly, now))
      ensures UnseenNotifications() == old(UnseenNotifications()) + Notify(newly, now)
    {
      var current := Stats();
      var newStats := ApplyUpdate(current, updates);
      statsSlot := Some(Written(newStats));
      StatsRoundTrip(newStats);
      newly := CheckAchievements(newStats, now);
    }

    /** `trackPetTap`: one more pet tap, nothing else in the stats changes. */
    method TrackPetTap(now: int) returns (newly: seq<Achievement>)
      requires Valid()
      modifies this
      ensures Valid()
      ensures Stats() == old(Stats()).(totalPetTaps := old(Stats()).totalPetTaps + 1)
      ensures achievementsSlot == Some(StoredAll(StatsPass(old(Achievements()), Stats(), now)))
      ensures newly == Flipped(old(Achievements()), StatsPass(old(Achievements()), Stats(), now))
      ensures notificationsSlot ==
        if newly == [] then old(notificationsSlot) else Some(old(notificationsSlot).GetOr([]) + Notify(newly, now))
      ensures UnseenNotifications() == old(UnseenNotifications()) + Notify(newly, now)
    {
      var stats := Stats();
      newly := UpdateStats(PetTapUpdate(stats), now);
    }

    /** `trackPirouette`: one more pirouette, nothing else in the stats changes. */
    method TrackPirouette(now: int) returns (newly: seq<Achievement>)
      requires Valid()
      modifies this
      ensures Valid()
      ensures Stats() == old(Stats()).(totalPirouettes := old(Stats()).totalPirouettes + 1)
      ensures achievementsSlot == Some(StoredAll(StatsPass(old(Achievements()), Stats(), now)))
      ensures newly == Flipped(old(Achievements()), StatsPass(old(Achievements()), Stats(), now))
      ensures notificationsSlot ==
        if newly == [] then old(notificationsSlot) else Some(old(notificationsSlot).GetOr([]) + Notify(newly, now))
      ensures UnseenNotifications() == old(UnseenNotifications()) + Notify(newly, now)
    {
      var stats := Stats();
      newly := UpdateStats(PirouetteUpdate(stats), now);
    }

    /** `trackDailyProgress(steps, distance, goalAchieved)` on `today`. */
    method TrackDailyProgress(steps: real, distance: real, goalAchieved: bool, today: Date, now: int)
      returns (newly: seq<Achievement>)
      requires Valid()
      modifies this
      ensures Valid()
      ensures Stats() == DailyStats(old(Stats()), steps, distance, goalAchieved, today)
      ensures achievementsSlot == Some(StoredAll(StatsPass(old(Achievements()), Stats(), now)))
      ensures newly == Flipped(old(Achievements()), StatsPass(old(Achievements()), Stats(), now))
      ensures notificationsSlot ==
        if newly == [] then old(notificationsSlot) else Some(old(notificationsSlot).GetOr([]) + Notify(newly, now))
      ensures UnseenNotifications() == old(UnseenNotifications()) + Notify(newly, now)
    {
      var stats := Stats();
      var newStreak := stats.currentStreak;
      if goalAchieved && stats.lastActiveDate != Some(today) {
        if stats.lastActiveDate == Some(today - 1) {
          newStreak := stats.currentStreak + 1;
        } else if stats.lastActiveDate == Some(today) {
          newStreak := stats.currentStreak;
        } else {
          newStreak := 1;
        }
      }
      var updates := StatsUpdate(
        Some(Max(stats.totalSteps, steps)),
        Some(Max(stats.totalDistance, distance)),
        Some(newStreak),
        Some(MaxInt(stats.maxStreak, newStreak)),
        None,
        None,
        None,
        Some(if stats.lastActiveDate != Some(today) then stats.daysActive + 1 else stats.daysActive),
        Some(today));
      if goalAchieved {
        updates := updates.(totalGoalAchievements := Some(stats.totalGoalAchievements + 1));
      }
      assert updates == DailyUpdate(stats, steps, distance, goalAchieved, today);
      newly := UpdateStats(updates, now);
    }

    /** `markNotificationsSeen`: every queued notification is marked seen. */
    method MarkNotificationsSeen()
      modifies this
      ensures old(notificationsSlot).None? ==> notificationsSlot.None?
      ensures old(notificationsSlot).Some? ==> notificationsSlot == Some(MarkAllSeen(old(notificationsSlot).value))
      ensures UnseenNotifications() == []
      ensures achievementsSlot == old(achievementsSlot) && statsSlot == old(statsSlot)
    {
      if notificationsSlot.Some? {
        var ns := notificationsSlot.value;
        var i := 0;
        while i < |ns|
          invariant 0 <= i <= |ns|
          invariant |ns| == |old(notificationsSlot).value|
          invariant forall j :: 0 <= j < i ==> ns[j] == old(notificationsSlot).value[j].(seen := true)
          invariant forall j :: i <= j < |ns| ==> ns[j] == old(notificationsSlot).value[j]
        {
          ns := ns[i := ns[i].(seen := true)];
          i := i + 1;
        }
        assert ns == MarkAllSeen(old(notificationsSlot).value);
        notificationsSlot := Some(ns);
        MarkedHaveNoUnseen(old(notificationsSlot).value);
      }
    }
  }

  /** The callback of the `forEach` in `checkAchievements`, for one entry:
      a locked achievement gets its progress and, on reaching 100, unlocks;
      `flipped` says it is to be reported. */
  method StatsVisit(a: Achievement, stats: UserStats, now: int) returns (b: Achievement, flipped: bool)
    requires a.condition.value > 0.0
    ensures b == EvaluateStats(a, stats, now)
    ensures flipped <==> !a.unlocked && b.unlocked
  {
    b := a;
    flipped := false;
    if b.unlocked {
      return;
    }
    var progress := CalculateProgress(b.condition, stats);
    b := b.(progress := Min(progress, 100.0));
    if progress >= 100.0 {
      b := b.(unlocked := true, unlockedAt := Some(now));
      flipped := true;
    }
  }

  /** The callback of the `forEach` in `checkDailyAchievements`: only a
      locked daily achievement changes; it gets the share of its reading
      and, on reaching 100, unlocks. */
  method DailyVisit(a: Achievement, steps: real, distance: real, now: int) returns (b: Achievement, flipped: bool)
    requires a.condition.value > 0.0
    ensures b == EvaluateDaily(a, steps, distance, now)
    ensures flipped <==> !a.unlocked && b.unlocked
  {
    b := a;
    flipped := false;
    if b.unlocked {
      return;
    }
    var progress := 0.0;
    if b.condition.kind == StepsDaily {
      progress := CappedPercent(steps, b.condition.value);
    } else if b.condition.kind == DistanceDaily {
      progress := CappedPercent(distance, b.condition.value);
    } else {
      return;
    }
    b := b.(progress := progress);
    if progress >= 100.0 && !b.unlocked {
      b := b.(unlocked := true, unlockedAt := Some(now));
      flipped := true;
    }
  }

  /** The `forEach` of `checkAchievements` over a copy of the list: every
      entry visited in order, the flipped ones collected. */
  method RunStatsPass(before: seq<Achievement>, stats: UserStats, now: int)
    returns (list: seq<Achievement>, newly: seq<Achievement>)
    requires PositiveThresholds(before)
    ensures list == StatsPass(before, stats, now)
    ensures newly == Flipped(before, list)
  {
    list := before;
    newly := [];
    var i := 0;
    while i < |list|
      invariant 0 <= i <= |list| == |before|
      invariant forall j :: 0 <= j < i ==> list[j] == EvaluateStats(before[j], stats, now)
      invariant forall j :: i <= j < |list| ==> list[j] == before[j]
      invariant newly == Flipped(before[..i], list[..i])
    {
      var a, flipped := StatsVisit(list[i], stats, now);
      if flipped {
        newly := newly + [a];
      }
      PassStep(before, list, i, a);
      list := list[i := a];
      i := i + 1;
    }
    assert before[..i] == before && list[..i] == list;
  }

  /** The `forEach` of `addNotifications`: one notification pushed per
      achievement, after the queue's existing entries. */
  method Enqueue(existing: seq<Notification>, list: seq<Achievement>, now: int) returns (notifications: seq<Notification>)
    ensures notifications == existing + Notify(list, now)
  {
    notifications := existing;
    var i := 0;
    while i < |list|
      invariant 0 <= i <= |list|
      invariant notifications == existing + Notify(list[..i], now)
    {
      NotifySnoc(list, i, now);
      notifications := notifications + [Notification(list[i], now, false)];
      i := i + 1;
    }
    assert list[..i] == list;
  }

  /** Notifying one more entry of a list appends its notification. */
  lemma NotifySnoc(list: seq<Achievement>, i: int, now: int)
    requires 0 <= i < |list|
    ensures Notify(list[..i + 1], now) == Notify(list[..i], now) + [Notification(list[i], now, false)]
  {
    assert |Notify(list[..i + 1], now)| == i + 1;
  }

  /** Replacing entry `i` of a pass in progress extends the flipped entries
      of the visited prefix by the new entry when it flipped. */
  lemma PassStep(before: seq<Achievement>, list: seq<Achievement>, i: int, a: Achievement)
    requires 0 <= i < |list| == |before| && list[i] == before[i]
    ensures Flipped(before[..i + 1], list[i := a][..i + 1])
      == Flipped(before[..i], list[..i]) + (if !before[i].unlocked && a.unlocked then [a] else [])
  {
    assert before[..i + 1] == before[..i] + [before[i]];
    assert list[i := a][..i + 1] == list[..i] + [a];
    FlippedSnoc(before[..i], list[..i], before[i], a);
  }

  /** The `forEach` of `checkDailyAchievements` over a copy of the list. */
  method RunDailyPass(before: seq<Achievement>, steps: real, distance: real, now: int)
    returns (list: seq<Achievement>, newly: seq<Achievement>)
    requires PositiveThresholds(before)
    ensures list == DailyPass(before, steps, distance, now)
    ensures newly == Flipped(before, list)
  {
    list := before;
    newly := [];
    var i := 0;
    while i < |list|
      invariant 0 <= i <= |list| == |before|
      invariant forall j :: 0 <= j < i ==> list[j] == EvaluateDaily(before[j], steps, distance, now)
      invariant forall j :: i <= j < |list| ==> list[j] == before[j]
      invariant newly == Flipped(before[..i], list[..i])
    {
      var a, flipped := DailyVisit(list[i], steps, distance, now);
      if flipped {
        newly := newly + [a];
      }
      PassStep(before, list, i, a);
      list := list[i := a];
      i := i + 1;
    }
    assert before[..i] == before && list[..i] == list;
  }

  /** Two checks with the same stats: the second unlocks nothing and leaves
      the saved list as the first one wrote it. */
  method CheckTwice(service: Service, stats: UserStats, now: int, later: int)
    returns (first: seq<Achievement>, second: seq<Achievement>)
    requires service.Valid()
    modifies service
    ensures second == []
    ensures service.achievementsSlot == Some(StoredAll(StatsPass(old(service.Achievements()), stats, now)))
  {
    ghost var before := service.Achievements();
    first := service.CheckAchievements(stats, now);
    ghost var once := StatsPass(before, stats, now);
    ReadBackSaved(once);
    assert service.Achievements() == once;
    StatsPassIdempotent(before, stats, now, later);
    second := service.CheckAchievements(stats, later);
  }
}
