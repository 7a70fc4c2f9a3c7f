/** The records of the daily progress store and the views built on it.
    A calendar date is an integer day number; day 0 is a Monday, so the
    weekday of `d` is `d % 7` (0 = Monday … 6 = Sunday). Because the stored
    keys are `yyyy-MM-dd` strings, ordering them as strings is ordering them
    as dates, which is what integer order gives here. */
module ProgressTypes {
  import opened Common

  type Date = int

  /** One day's record. `progress` is a percentage, `steps` and `distance`
      are the raw readings, `completed` is the 80 % flag and `goalsReached`
      says that both goals were met. */
  datatype DayProgress = DayProgress(
    date: Date,
    completed: bool,
    progress: real,
    steps: real,
    distance: real,
    goalsReached: bool)

  /** The seven-day projection shown by the week views; `weekNumber` is not
      part of this model. */
  datatype WeeklyProgress = WeeklyProgress(
    startDate: Date,
    days: seq<DayProgress>,
    streak: nat,
    totalWeeks: nat)

  /** A `Partial<DayProgress>`: every field may be absent. */
  datatype DayUpdate = DayUpdate(
    date: Option<Date>,
    completed: Option<bool>,
    progress: Option<real>,
    steps: Option<real>,
    distance: Option<real>,
    goalsReached: Option<bool>)

  type History = map<Date, DayProgress>

  /** The record used for a day that has no entry yet. */
  function ZeroDay(d: Date): DayProgress {
    DayProgress(d, false, 0.0, 0.0, 0.0, false)
  }

  /** `historicalData.get(d)?.completed`. */
  predicate IsCompleted(m: History, d: Date) {
    d in m && m[d].completed
  }

  /** The stored record for `d`, or the zero record carrying `d`. */
  function DayOrZero(m: History, d: Date): DayProgress {
    if d in m then m[d] else ZeroDay(d)
  }

  /** `startOfWeek(d, { weekStartsOn: 1 })`: the Monday on or before `d`. */
  function MondayOf(d: Date): (r: Date)
    ensures r <= d < r + 7
    ensures r % 7 == 0
  {
    d - d % 7
  }

  /** `days.filter(d => d.completed).length`. */
  function CompletedDays(days: seq<DayProgress>): (n: nat)
    ensures n <= |days|
    ensures n == 0 <==> forall i :: 0 <= i < |days| ==> !days[i].completed
    ensures n == |days| <==> forall i :: 0 <= i < |days| ==> days[i].completed
    decreases |days|
  {
    if |days| == 0 then 0
    else
      var init := days[..|days| - 1];
      assert forall i :: 0 <= i < |init| ==> init[i] == days[i];
      CompletedDays(init) + (if days[|days| - 1].completed then 1 else 0)
  }

  /** The classification a day cell is drawn with. */
  datatype DayState = Completed | Current | Locked | Available

  datatype CelebrationType = StreakCelebration | GoalCelebration | WeekCompleteCelebration
}
