/** One day of the weekly map: its state, whether it reacts to presses,
    and which decorations are drawn. */
module DayCellView {
  import opened Common
  import opened ProgressTypes

  /** `getDayState`: a completed day wins over the calendar; otherwise
      today is current, a later day is locked and an earlier one available. */
  function DayStateOf(day: DayProgress, today: Date): (s: DayState)
    ensures day.completed ==> s == Completed
    ensures !day.completed ==> (s == Current <==> day.date == today)
    ensures !day.completed ==> (s == Locked <==> day.date > today)
    ensures !day.completed ==> (s == Available <==> day.date < today)
  {
    if day.completed then Completed
    else if day.date == today then Current
    else if day.date > today then Locked
    else Available
  }

  /** Only a day after today can be locked, and a locked day is never
      completed. */
  lemma LockedOnlyInFuture(day: DayProgress, today: Date)
    ensures DayStateOf(day, today) == Locked ==> day.date > today && !day.completed
    ensures day.date <= today ==> DayStateOf(day, today) != Locked
  {
  }

  /** `isInteractive`: not locked and a handler is given. */
  predicate IsInteractive(state: DayState, hasHandler: bool) {
    state != Locked && hasHandler
  }

  /** A press on the cell: the day handed to the handler, if it is called. */
  function Press(day: DayProgress, today: Date, hasHandler: bool): (r: Option<DayProgress>)
    ensures r.Some? <==> IsInteractive(DayStateOf(day, today), hasHandler)
    ensures r.Some? ==> r.value == day
  {
    if IsInteractive(DayStateOf(day, today), hasHandler) then Some(day) else None
  }

  /** The progress ring is hidden when locked or at exactly 0 %. */
  predicate ShowsRing(state: DayState, progress: real) {
    state != Locked && progress != 0.0
  }

  /** The percentage badge needs a positive progress and an unlocked day. */
  predicate ShowsBadge(state: DayState, progress: real) {
    progress > 0.0 && state != Locked
  }

  /** The badge is shown only together with the ring, and for a
      non-negative progress the two go together. */
  lemma BadgeImpliesRing(state: DayState, progress: real)
    ensures ShowsBadge(state, progress) ==> ShowsRing(state, progress)
    ensures progress >= 0.0 ==> (ShowsBadge(state, progress) <==> ShowsRing(state, progress))
  {
  }
}
