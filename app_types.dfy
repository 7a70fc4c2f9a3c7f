/** The health reading and the pet's mood, shared by the service, the
    progress hook and the two app shells. */
module AppTypes {
  import opened Common

  /** One health reading with its goals; the two sleep fields may be absent. */
  datatype HealthData = HealthData(
    steps: real,
    distance: real,
    goalSteps: real,
    goalDistance: real,
    sleepHours: Option<real>,
    goalSleepHours: Option<real>)

  datatype Mood = Happy | Neutral | Sad | Sleepy

  /** Both goals are positive, so the goal percentages are defined. */
  predicate PositiveGoals(h: HealthData) {
    h.goalSteps > 0.0 && h.goalDistance > 0.0
  }
}
