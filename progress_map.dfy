/** The progress map: keyboard, button and swipe navigation between weeks,
    and the overall statistics over all weeks. */
module ProgressMapView {
  import opened Common
  import opened WeekProgressView

  datatype NavKey = ArrowLeft | ArrowRight | HomeKey | EndKey | OtherNavKey

  /** `handleKeyDown`: the week index passed to `onWeekChange`, if any. */
  function KeyRequest(k: NavKey, current: int, len: nat): (r: Option<int>)
    ensures k == ArrowLeft ==> r == if current > 0 then Some(current - 1) else None
    ensures k == ArrowRight ==> r == if current < len - 1 then Some(current + 1) else None
    ensures k == HomeKey ==> r == Some(0)
    ensures k == EndKey ==> r == Some(len - 1)
    ensures k == OtherNavKey ==> r == None
  {
    match k
    case ArrowLeft => if current > 0 then Some(current - 1) else None
    case ArrowRight => if current < len - 1 then Some(current + 1) else None
    case HomeKey => Some(0)
    case EndKey => Some(len - 1)
    case OtherNavKey => None
  }

  /** From a valid index of a non-empty list, every key requests a valid
      index, and the arrows move by exactly one. */
  lemma KeyRequestInRange(k: NavKey, current: int, len: nat)
    requires 0 <= current < len
    ensures var r := KeyRequest(k, current, len);
      r.Some? ==> 0 <= r.value < len
    ensures var r := KeyRequest(k, current, len);
      r.Some? && (k == ArrowLeft || k == ArrowRight) ==> r.value - current == 1 || current - r.value == 1
  {
  }

  /** The Previous button: `Math.max(0, currentWeek - 1)`. */
  function PrevRequest(current: int): (r: int)
    ensures r >= 0
    ensures current > 0 ==> r == current - 1
    ensures current <= 0 ==> r == 0
  {
    if current - 1 >= 0 then current - 1 else 0
  }

  /** The Next button: `Math.min(progressData.length - 1, currentWeek + 1)`. */
  function NextRequest(current: int, len: nat): (r: int)
    ensures r <= len - 1
    ensures current < len - 1 ==> r == current + 1
    ensures current >= len - 1 ==> r == len - 1
  {
    if len - 1 <= current + 1 then len - 1 else current + 1
  }

  /** Both buttons keep a valid index valid. */
  lemma ButtonsStayInRange(current: int, len: nat)
    requires 0 <= current < len
    ensures 0 <= PrevRequest(current) < len
    ensures 0 <= NextRequest(current, len) < len
  {
  }

  /** JavaScript truthiness of the stored touch position: no touch and a
      touch at x = 0 are both false. */
  predicate Truthy(t: Option<real>) {
    t.Some? && t.value != 0.0
  }

  function Abs(x: real): real {
    if x < 0.0 then -x else x
  }

  /** The swipe gesture state of the map. */
  class SwipeTracker {
    var touchStart: Option<real>
    var isDragging: bool

    constructor()
      ensures touchStart == None && !isDragging
    {
      touchStart := None;
      isDragging := false;
    }

    /** `handleTouchStart`. */
    method TouchStart(x: real)
      modifies this
      ensures touchStart == Some(x) && !isDragging
    {
      touchStart := Some(x);
      isDragging := false;
    }

    /** `handleTouchMove`: a move of more than 10 px from a truthy start
        flags dragging; nothing ever clears it here. */
    method TouchMove(x: real)
      modifies this
      ensures touchStart == old(touchStart)
      ensures isDragging == (old(isDragging) || (Truthy(touchStart) && Abs(touchStart.value - x) > 10.0))
    {
      if !Truthy(touchStart) {
        return;
      }
      var diff := touchStart.value - x;
      if Abs(diff) > 10.0 {
        isDragging := true;
      }
    }

    /** `handleTouchEnd`: a drag longer than 50 px moves one week, forward
        for a leftward swipe and back for a rightward one, within the list;
        the gesture state is always reset. */
    method TouchEnd(x: real, current: int, len: nat) returns (request: Option<int>)
      modifies this
      ensures touchStart == None && !isDragging
      ensures request.Some? ==>
        old(Truthy(touchStart)) && old(isDragging) && Abs(old(touchStart).value - x) > 50.0
      ensures request.Some? && old(touchStart).value - x > 0.0 ==> current < len - 1 && request.value == current + 1
      ensures request.Some? && old(touchStart).value - x < 0.0 ==> current > 0 && request.value == current - 1
      ensures old(Truthy(touchStart)) && old(isDragging) && old(touchStart).value - x > 50.0 && current < len - 1
        ==> request == Some(current + 1)
      ensures old(Truthy(touchStart)) && old(isDragging) && old(touchStart).value - x < -50.0 && current > 0
        ==> request == Some(current - 1)
    {
      request := None;
      if !Truthy(touchStart) || !isDragging {
        touchStart := None;
        isDragging := false;
        return;
      }
      var diff := touchStart.value - x;
      if Abs(diff) > 50.0 {
        if diff > 0.0 && current < len - 1 {
          request := Some(current + 1);
        } else if diff < 0.0 && current > 0 {
          request := Some(current - 1);
        }
      }
      touchStart := None;
      isDragging := false;
    }
  }

  /** A touch that starts at x = 0 never swipes: its start is not truthy. */
  method TouchAtZeroNeverSwipes(x: real, current: int, len: nat) returns (request: Option<int>)
    ensures request == None
  {
    var t := new SwipeTracker();
    t.TouchStart(0.0);
    t.TouchMove(x);
    request := t.TouchEnd(x, current, len);
  }

  /** `reduce((acc, week) => acc + week.days.length, 0)`. */
  function TotalDays(weeks: seq<WeekCard>): nat
    decreases |weeks|
  {
    if |weeks| == 0 then 0 else |weeks[0].days| + TotalDays(weeks[1..])
  }

  /** The completed days over all weeks; never more than all days. */
  function CompletedAcross(weeks: seq<WeekCard>): (n: nat)
    ensures n <= TotalDays(weeks)
    ensures n == 0 <==> forall w, i :: 0 <= w < |weeks| && 0 <= i < |weeks[w].days| ==> !weeks[w].days[i].completed
    decreases |weeks|
  {
    if |weeks| == 0 then 0
    else
      assert forall w :: 1 <= w < |weeks| ==> weeks[1..][w - 1] == weeks[w];
      CountCompleted(weeks[0].days) + CompletedAcross(weeks[1..])
  }

  datatype OverallStats = OverallStats(completedDays: nat, totalDays: nat, completionRate: real)

  /** `getOverallStats`. */
  function GetOverallStats(weeks: seq<WeekCard>): (s: OverallStats)
    ensures s.completedDays <= s.totalDays
    ensures 0.0 <= s.completionRate <= 100.0
    ensures s.totalDays == TotalDays(weeks) && s.completedDays == CompletedAcross(weeks)
    ensures |weeks| == 0 ==> s == OverallStats(0, 0, 0.0)
    ensures s.totalDays > 0 ==> (s.completionRate == 100.0 <==> s.completedDays == s.totalDays)
  {
    if |weeks| == 0 then OverallStats(0, 0, 0.0)
    else
      var total := TotalDays(weeks);
      var completed := CompletedAcross(weeks);
      OverallStats(completed, total, if total > 0 then Share(completed, total) else 0.0)
  }
}
