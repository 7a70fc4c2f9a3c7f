/** The mobile shell's pet rules: the mood chosen from the health service
    (goals first, then sleep, then the average) with the heart level, and
    the tap that adds a few random steps. */
module MobileApp {
  import opened Common
  import opened AppTypes
  import opened HealthService
  import opened ProgressTypes
  import opened ProgressStore
  import opened ProgressHook

  /** The mood `updatePetMood` picks for the service's reading. */
  function MobileMood(h: HealthData): (m: Mood)
    requires PositiveGoals(h)
    ensures m == Happy <==> GoalsReached(h)
    ensures m == Sleepy <==> !GoalsReached(h) && !GoodSleep(h)
    ensures m == Sad <==> !GoalsReached(h) && GoodSleep(h) && Overall(h) < 80.0
    ensures m == Neutral <==> !GoalsReached(h) && GoodSleep(h) && Overall(h) >= 80.0
  {
    if GoalsReached(h) then Happy
    else if !GoodSleep(h) then Sleepy
    else if Overall(h) < 80.0 then Sad
    else Neutral
  }

  /** Sleep outranks the average: a pet that slept badly is sleepy even with
      a 99 % day, and a neutral pet always has an average in [80, 100). */
  lemma {:induction false} SleepOutranksAverage(h: HealthData)
    requires PositiveGoals(h)
    ensures !GoalsReached(h) && !GoodSleep(h) ==> MobileMood(h) == Sleepy
    ensures MobileMood(h) == Neutral ==> 80.0 <= Overall(h) < 100.0
  {
    GoalsReachedIffFullProgress(h);
  }

  /** A tap's random draws: `Math.floor(Math.random() * 50)` and the raw
      `Math.random()` behind the distance increment. */
  predicate TapDraws(stepRoll: int, distanceRoll: real) {
    0 <= stepRoll < 50 && 0.0 <= distanceRoll < 1.0
  }

  /** The reading after a tap. */
  function Tapped(h: HealthData, stepRoll: int, distanceRoll: real): (r: HealthData)
    requires TapDraws(stepRoll, distanceRoll)
    ensures h.steps + 25.0 <= r.steps <= h.steps + 74.0
    ensures h.distance + 0.05 <= r.distance < h.distance + 0.15
    ensures r.goalSteps == h.goalSteps && r.goalDistance == h.goalDistance
    ensures r.sleepHours == h.sleepHours && r.goalSleepHours == h.goalSleepHours
  {
    h.(steps := h.steps + stepRoll as real + 25.0, distance := h.distance + distanceRoll * 0.1 + 0.05)
  }

  /** A tap never lowers the average and never lowers the mood from happy. */
  lemma TapKeepsHappy(h: HealthData, stepRoll: int, distanceRoll: real)
    requires PositiveGoals(h) && TapDraws(stepRoll, distanceRoll)
    ensures MobileMood(h) == Happy ==> MobileMood(Tapped(h, stepRoll, distanceRoll)) == Happy
  {
  }

  /** The pet's displayed state in the mobile shell. */
  class PetView {
    var mood: Mood
    var heartLevel: real

    constructor()
      ensures mood == Neutral && heartLevel == 0.0
    {
      mood := Neutral;
      heartLevel := 0.0;
    }

    /** `updatePetMood`: the reading passed in is ignored; mood and heart
        level come from the service. */
    method UpdatePetMood(service: HealthDataService)
      requires service.Valid()
      modifies this
      ensures mood == MobileMood(service.data)
      ensures heartLevel == Overall(service.data)
      ensures heartLevel <= 100.0
    {
      var progress := service.GetGoalProgress();
      var average := (progress.stepsProgress + progress.distanceProgress) / 2.0;
      heartLevel := average;
      var goalsHit := service.HasReachedGoals();
      var goodSleep := service.HasGoodSleep();
      var m := Neutral;
      if goalsHit {
        m := Happy;
      } else if !goodSleep {
        m := Sleepy;
      } else if average < 80.0 {
        m := Sad;
      }
      mood := m;
    }

    /** `handlePetTap`: adds 25 to 74 steps and 0.05 to 0.15 km to the
        service's reading, re-derives the mood and writes today's record. */
    method HandlePetTap(service: HealthDataService, store: ProgressStore.Store,
                        stepRoll: int, distanceRoll: real, today: Date)
      requires service.Valid() && TapDraws(stepRoll, distanceRoll)
      modifies this, service, store
      ensures service.data == Tapped(old(service.data), stepRoll, distanceRoll)
      ensures service.Valid()
      ensures mood == MobileMood(service.data)
      ensures heartLevel == Overall(service.data)
      ensures store.historicalData == Upsert(old(store.historicalData), today, TodayUpdate(service.data))
      ensures store.Derived(today)
    {
      var current := service.GetHealthData();
      var newSteps := current.steps + stepRoll as real + 25.0;
      var newDistance := current.distance + distanceRoll * 0.1 + 0.05;
      service.UpdateMockData(newSteps, newDistance);
      var updated := service.GetHealthData();
      assert updated == Tapped(old(service.data), stepRoll, distanceRoll);
      UpdatePetMood(service);
      UpdateTodayProgress(store, updated, today);
    }
  }
}
