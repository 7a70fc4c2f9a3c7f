/** The mock health-data service: one mutable reading with its goals, the
    goal predicates read off it, and the lazily created shared instance. */
module HealthService {
  import opened Common
  import opened AppTypes

  /** The readings the service starts from. */
  function InitialReadings(): (h: HealthData)
    ensures PositiveGoals(h)
  {
    HealthData(7234.0, 5.2, 10000.0, 8.0, Some(6.2), Some(7.5))
  }

  /** Both goals are met. */
  predicate GoalsReached(h: HealthData) {
    h.steps >= h.goalSteps && h.distance >= h.goalDistance
  }

  datatype GoalProgress = GoalProgress(stepsProgress: real, distanceProgress: real)

  /** The two capped goal percentages. */
  function GoalProgressOf(h: HealthData): (p: GoalProgress)
    requires PositiveGoals(h)
    ensures p.stepsProgress <= 100.0 && p.distanceProgress <= 100.0
    ensures h.steps >= 0.0 ==> p.stepsProgress >= 0.0
    ensures h.distance >= 0.0 ==> p.distanceProgress >= 0.0
    ensures p.stepsProgress == 100.0 <==> h.steps >= h.goalSteps
    ensures p.distanceProgress == 100.0 <==> h.distance >= h.goalDistance
  {
    GoalProgress(CappedPercent(h.steps, h.goalSteps), CappedPercent(h.distance, h.goalDistance))
  }

  /** Sleep counts as good when the hours slept, 0 when unknown, reach the
      sleep goal, 7 when unknown. */
  predicate GoodSleep(h: HealthData) {
    h.sleepHours.GetOr(0.0) >= h.goalSleepHours.GetOr(7.0)
  }

  /** The goals are reached exactly when both goal percentages are full,
      that is when the mean of the two is 100. */
  lemma GoalsReachedIffFullProgress(h: HealthData)
    requires PositiveGoals(h)
    ensures GoalsReached(h) <==> GoalProgressOf(h) == GoalProgress(100.0, 100.0)
    ensures GoalsReached(h) <==> OverallPercent(h.steps, h.goalSteps, h.distance, h.goalDistance) == 100.0
  {
  }

  /** The starting readings: the goals are not reached and the 6.2 hours
      slept miss the 7.5-hour goal. */
  lemma InitialReadingsState()
    ensures !GoalsReached(InitialReadings())
    ensures !GoodSleep(InitialReadings())
  {
  }

  /** Half the steps and half the distance give 50 % on both. */
  lemma HalfwayProgress()
    ensures GoalProgressOf(InitialReadings().(steps := 5000.0, distance := 4.0)) == GoalProgress(50.0, 50.0)
  {
  }

  /** Sleep is only good with a reading: without one the hours count as 0
      and no positive goal is met. */
  lemma NoSleepReadingIsNotGood(h: HealthData)
    requires h.sleepHours.None?
    requires h.goalSleepHours.None? || h.goalSleepHours.value > 0.0
    ensures !GoodSleep(h)
  {
  }

  class HealthDataService {
    var data: HealthData

    /** The goals stay positive: only steps and distance are ever written. */
    predicate Valid()
      reads this
    {
      PositiveGoals(data)
    }

    constructor()
      ensures data == InitialReadings()
      ensures Valid()
    {
      data := InitialReadings();
    }

    /** `getHealthData`: a copy of the current readings. */
    method GetHealthData() returns (h: HealthData)
      ensures h == data
    {
      h := data;
    }

    /** `updateMockData`: writes steps and distance; goals and sleep stay. */
    method UpdateMockData(steps: real, distance: real)
      modifies this
      ensures data == old(data).(steps := steps, distance := distance)
      ensures old(Valid()) ==> Valid()
    {
      data := data.(steps := steps, distance := distance);
    }

    /** `hasReachedGoals`. */
    method HasReachedGoals() returns (b: bool)
      ensures b <==> GoalsReached(data)
    {
      b := data.steps >= data.goalSteps && data.distance >= data.goalDistance;
    }

    /** `getGoalProgress`. */
    method GetGoalProgress() returns (p: GoalProgress)
      requires Valid()
      ensures p == GoalProgressOf(data)
      ensures p.stepsProgress <= 100.0 && p.distanceProgress <= 100.0
    {
      p := GoalProgress(CappedPercent(data.steps, data.goalSteps), CappedPercent(data.distance, data.goalDistance));
    }

    /** `hasGoodSleep`. */
    method HasGoodSleep() returns (b: bool)
      ensures b <==> GoodSleep(data)
    {
      b := data.sleepHours.GetOr(0.0) >= data.goalSleepHours.GetOr(7.0);
    }
  }

  /** The static `instance` slot behind `getInstance`. */
  class Registry {
    var instance: HealthDataService?

    constructor()
      ensures instance == null
    {
      instance := null;
    }

    /** `getInstance`: creates the service on first use and returns the same
        object every time after. */
    method GetInstance() returns (s: HealthDataService)
      modifies this
      ensures instance == s
      ensures old(instance) != null ==> s == old(instance)
      ensures old(instance) == null ==> fresh(s) && s.data == InitialReadings()
    {
      if instance == null {
        instance := new HealthDataService();
      }
      s := instance;
    }

    /** Two calls in a row give the same service. */
    method GetInstanceTwice() returns (a: HealthDataService, b: HealthDataService)
      modifies this
      ensures a == b
    {
      a := GetInstance();
      b := GetInstance();
    }
  }
}
