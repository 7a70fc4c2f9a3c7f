/** The weekly map's streak celebration and its press forwarding. */
module WeeklyMapView {
  import opened Common
  import opened ProgressTypes
  import opened DayCellView

  /** A rise of the streak from `previous` to `current` is celebrated: it
      must grow, be positive and land on 3 or a multiple of 7. */
  predicate Celebrates(previous: nat, current: nat) {
    current > previous && current > 0 && (current % 7 == 0 || current == 3)
  }

  /** Within the 31-day reach of the current streak, only 3, 7, 14, 21 and
      28 are ever celebrated, and each of them is when reached one day at
      a time. */
  lemma CelebratedValues(previous: nat, current: nat)
    requires current <= 31
    ensures Celebrates(previous, current) ==> current in {3, 7, 14, 21, 28}
    ensures current in {3, 7, 14, 21, 28} && previous < current ==> Celebrates(previous, current)
  {
  }

  class CelebrationTracker {
    var show: bool
    var kind: CelebrationType
    var value: Option<nat>
    var previousStreak: nat

    constructor(currentStreak: nat)
      ensures !show && kind == StreakCelebration && value == None
      ensures previousStreak == currentStreak
    {
      show := false;
      kind := StreakCelebration;
      value := None;
      previousStreak := currentStreak;
    }

    /** The streak effect: raises a streak celebration on a celebrated rise
        and always remembers the streak it saw. */
    method OnStreakChange(currentStreak: nat)
      modifies this
      ensures previousStreak == currentStreak
      ensures Celebrates(old(previousStreak), currentStreak) ==>
        show && kind == StreakCelebration && value == Some(currentStreak)
      ensures !Celebrates(old(previousStreak), currentStreak) ==>
        show == old(show) && kind == old(kind) && value == old(value)
    {
      if currentStreak > previousStreak && currentStreak > 0 {
        if currentStreak % 7 == 0 || currentStreak == 3 {
          show := true;
          kind := StreakCelebration;
          value := Some(currentStreak);
        }
      }
      previousStreak := currentStreak;
    }

    /** `handleCelebrationComplete`: hides the celebration, keeps its kind
        and value. */
    method HandleCelebrationComplete()
      modifies this
      ensures !show && kind == old(kind) && value == old(value)
      ensures previousStreak == old(previousStreak)
    {
      show := false;
    }
  }

  /** Seeing the same streak again never celebrates, so a re-run of the
      effect is harmless. */
  method SameStreakTwice(t: CelebrationTracker, s: nat)
    modifies t
    ensures t.previousStreak == s
    ensures old(t.previousStreak) == s ==> t.show == old(t.show) && t.value == old(t.value)
  {
    t.OnStreakChange(s);
  }

  /** `handleDayPress` through the day cell: the map always passes its own
      handler, so the outer handler receives the pressed day exactly when
      the cell is not locked and the outer handler exists. */
  function ForwardPress(day: DayProgress, today: Date, hasOuterHandler: bool): (r: Option<DayProgress>)
    ensures r.Some? <==> DayStateOf(day, today) != Locked && hasOuterHandler
    ensures r.Some? ==> r.value == day
  {
    var pressed := Press(day, today, true);
    if pressed.Some? && hasOuterHandler then pressed else None
  }
}
