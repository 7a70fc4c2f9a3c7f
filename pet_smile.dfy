/** The smile lifecycle the ball, blue and fire pets share: a tap starts a
    smile, each frame advances its clock, and once the clock reaches the
    smile's duration the smile ends and the clock returns to 0. */
module PetSmile {

  datatype Smile = Smile(active: bool, time: real)

  const Idle: Smile := Smile(false, 0.0)

  /** A smile just started. */
  const Started: Smile := Smile(true, 0.0)

  /** The smile after one frame of `delta` seconds. */
  function Advance(s: Smile, delta: real, duration: real): (r: Smile)
    ensures !s.active ==> r == s
    ensures s.active && s.time + delta >= duration ==> r == Idle
    ensures s.active && s.time + delta < duration ==> r == Smile(true, s.time + delta)
  {
    if !s.active then s
    else
      var t := s.time + delta;
      if t >= duration then Idle else Smile(true, t)
  }

  /** A running smile is within its duration and an idle one has its clock
      at 0. */
  predicate Consistent(s: Smile, duration: real) {
    (s.active ==> s.time < duration) && (!s.active ==> s.time == 0.0)
  }

  /** Starting and advancing keep a smile consistent. */
  lemma AdvanceKeepsConsistent(s: Smile, delta: real, duration: real)
    requires duration > 0.0 && Consistent(s, duration)
    ensures Consistent(Advance(s, delta, duration), duration)
    ensures Consistent(Started, duration)
  {
  }

  /** The smile's clock after a run of frames. */
  function AdvanceAll(s: Smile, deltas: seq<real>, duration: real): Smile
    decreases |deltas|
  {
    if |deltas| == 0 then s else AdvanceAll(Advance(s, deltas[0], duration), deltas[1..], duration)
  }

  function Sum(xs: seq<real>): real
    decreases |xs|
  {
    if |xs| == 0 then 0.0 else xs[0] + Sum(xs[1..])
  }

  /** A started smile whose frames, all of positive length, add up to its
      duration has ended by then. */
  lemma {:induction false} SmileEnds(s: Smile, deltas: seq<real>, duration: real)
    requires s.active && s.time < duration
    requires forall i :: 0 <= i < |deltas| ==> deltas[i] > 0.0
    requires s.time + Sum(deltas) >= duration
    ensures AdvanceAll(s, deltas, duration) == Idle
    decreases |deltas|
  {
    if |deltas| == 0 {
      assert false;
    }
    var next := Advance(s, deltas[0], duration);
    if next.active {
      SmileEnds(next, deltas[1..], duration);
    } else {
      IdleStaysIdle(deltas[1..], duration);
    }
  }

  lemma {:induction false} IdleStaysIdle(deltas: seq<real>, duration: real)
    ensures AdvanceAll(Idle, deltas, duration) == Idle
    decreases |deltas|
  {
    if |deltas| > 0 {
      IdleStaysIdle(deltas[1..], duration);
    }
  }
}
