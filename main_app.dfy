/** The older desktop shell's pet rules: a three-band mood on the average
    goal progress alone, and the same tap. */
module MainApp {
  import opened Common
  import opened AppTypes
  import opened HealthService
  import opened ProgressTypes
  import opened ProgressStore
  import opened ProgressHook
  import opened MobileApp

  /** The legacy mood: at least 80 % is happy, under 30 % is sad. */
  function LegacyMood(h: HealthData): (m: Mood)
    requires PositiveGoals(h)
    ensures m == Happy <==> Overall(h) >= 80.0
    ensures m == Sad <==> Overall(h) < 30.0
    ensures m == Neutral <==> 30.0 <= Overall(h) < 80.0
    ensures m != Sleepy
  {
    if Overall(h) >= 80.0 then Happy
    else if Overall(h) < 30.0 then Sad
    else Neutral
  }

  /** The legacy rule looks at the average only: readings with the same
      average get the same mood, whatever their goals flag or sleep. */
  lemma LegacyMoodOnlyAverage(h1: HealthData, h2: HealthData)
    requires PositiveGoals(h1) && PositiveGoals(h2)
    requires Overall(h1) == Overall(h2)
    ensures LegacyMood(h1) == LegacyMood(h2)
  {
  }

  /** When the goals are reached both shells show a happy pet; the legacy
      rule is happy more often, since 80 % already suffices. */
  lemma {:induction false} RulesAgreeOnReachedGoals(h: HealthData)
    requires PositiveGoals(h)
    ensures GoalsReached(h) ==> LegacyMood(h) == Happy && MobileMood(h) == Happy
    ensures MobileMood(h) == Happy ==> LegacyMood(h) == Happy
  {
    GoalsReachedIffFullProgress(h);
  }

  class LegacyPetView {
    var mood: Mood

    constructor()
      ensures mood == Neutral
    {
      mood := Neutral;
    }

    /** `updatePetMood`. */
    method UpdatePetMood(service: HealthDataService)
      requires service.Valid()
      modifies this
      ensures mood == LegacyMood(service.data)
    {
      var progress := service.GetGoalProgress();
      var average := (progress.stepsProgress + progress.distanceProgress) / 2.0;
      var m := Neutral;
      if average >= 80.0 {
        m := Happy;
      } else if average < 30.0 {
        m := Sad;
      }
      mood := m;
    }

    /** `handlePetTap`: the same increments as the mobile shell. */
    method HandlePetTap(service: HealthDataService, store: ProgressStore.Store,
                        stepRoll: int, distanceRoll: real, today: Date)
      requires service.Valid() && TapDraws(stepRoll, distanceRoll)
      modifies this, service, store
      ensures service.data == Tapped(old(service.data), stepRoll, distanceRoll)
      ensures service.Valid()
      ensures mood == LegacyMood(service.data)
      ensures store.historicalData == Upsert(old(store.historicalData), today, TodayUpdate(service.data))
      ensures store.Derived(today)
    {
      var current := service.GetHealthData();
      var newSteps := current.steps + stepRoll as real + 25.0;
      var newDistance := current.distance + distanceRoll * 0.1 + 0.05;
      service.UpdateMockData(newSteps, newDistance);
      var updated := service.GetHealthData();
      assert updated == Tapped(old(service.data), stepRoll, distanceRoll);
      UpdatePetMood(service);
      UpdateTodayProgress(store, updated, today);
    }
  }
}
