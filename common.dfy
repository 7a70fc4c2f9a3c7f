/** Shared vocabulary of the model: an optional value, JavaScript's `Math.round`,
    `Math.min`/`Math.max` on numbers, and the capped goal percentage that the
    health service, the progress hook and the week views all compute. */
module Common {

  datatype Option<T> = None | Some(value: T) {
    /** The value, or `default` when there is none (JavaScript's `??`). */
    function GetOr(default: T): T {
      if Some? then value else default
    }
  }

  /** A non-empty set of integers has a member to pick. */
  lemma NonEmptyHasMember(s: set<int>)
    requires s != {}
    ensures exists x :: x in s
  {
    if forall x :: x !in s {
      assert false;
    }
  }

  /** `Math.round` on a finite number: the nearest integer, halves going up. */
  function Round(x: real): (r: int)
    ensures r as real - 0.5 <= x < r as real + 0.5
  {
    (x + 0.5).Floor
  }

  function Min(a: real, b: real): (r: real)
    ensures r <= a && r <= b
    ensures r == a || r == b
  {
    if a <= b then a else b
  }

  function Max(a: real, b: real): (r: real)
    ensures r >= a && r >= b
    ensures r == a || r == b
  {
    if a >= b then a else b
  }

  function MaxInt(a: int, b: int): (r: int)
    ensures r >= a && r >= b
    ensures r == a || r == b
  {
    if a >= b then a else b
  }

  /** `Math.min((x / goal) * 100, 100)`: how much of a goal is reached, in percent,
      never more than 100. */
  function CappedPercent(x: real, goal: real): (r: real)
    requires goal > 0.0
    ensures r <= 100.0
    ensures x >= 0.0 ==> r >= 0.0
    ensures r == 100.0 <==> x >= goal
  {
    Min(x / goal * 100.0, 100.0)
  }

  /** Below the goal the percentage is exactly the reading's share of it. */
  lemma CappedPercentShare(x: real, goal: real)
    requires goal > 0.0 && x <= goal
    ensures CappedPercent(x, goal) * goal == x * 100.0
  {
    assert x / goal * 100.0 <= 100.0;
  }

  /** The mean of the two capped percentages for steps and distance: the
      "overall progress" of a day and the pet's heart level. */
  function OverallPercent(steps: real, goalSteps: real, distance: real, goalDistance: real): (r: real)
    requires goalSteps > 0.0 && goalDistance > 0.0
    ensures r <= 100.0
    ensures steps >= 0.0 && distance >= 0.0 ==> r >= 0.0
    ensures r == 100.0 <==> steps >= goalSteps && distance >= goalDistance
  {
    (CappedPercent(steps, goalSteps) + CappedPercent(distance, goalDistance)) / 2.0
  }
}
