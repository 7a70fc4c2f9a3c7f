/** The generated avatar's integer helpers: the 32-bit FNV-1a hash of the
    seed, the mulberry32 generator it seeds, and the zoom and drag state of
    the canvas. The seed is a sequence of UTF-16 code units. */
module AvatarCanvas {

  type CodeUnit = bv16

  /** The 32-bit FNV offset basis and prime. */
  const OffsetBasis: bv32 := 2166136261
  const FnvPrime: bv32 := 16777619

  /** One FNV-1a round: XOR in a whole code unit, then multiply modulo 2^32. */
  function FnvStep(h: bv32, c: CodeUnit): bv32 {
    (h ^ (c as bv32)) * FnvPrime
  }

  /** The hash of a seed, as a fold over its code units. */
  function Fnv(seed: seq<CodeUnit>): bv32
    decreases |seed|
  {
    if |seed| == 0 then OffsetBasis else FnvStep(Fnv(seed[..|seed| - 1]), seed[|seed| - 1])
  }

  /** `hashSeed`: the loop over the seed's code units. */
  method HashSeed(seed: seq<CodeUnit>) returns (h: bv32)
    ensures h == Fnv(seed)
    ensures seed == [] ==> h == 2166136261
  {
    h := OffsetBasis;
    var i := 0;
    while i < |seed|
      invariant 0 <= i <= |seed|
      invariant h == Fnv(seed[..i])
    {
      assert seed[..i + 1][..i] == seed[..i];
      h := FnvStep(h, seed[i]);
      i := i + 1;
    }
    assert seed[..|seed|] == seed;
  }

  /** The hash extends one code unit at a time: hashing a longer seed
      continues from the shorter seed's hash. */
  lemma {:induction false} FnvAppend(seed: seq<CodeUnit>, c: CodeUnit)
    ensures Fnv(seed + [c]) == FnvStep(Fnv(seed), c)
  {
    assert (seed + [c])[..|seed|] == seed;
  }

  /** The generator's state step. */
  const Increment: bv32 := 0x6D2B79F5

  /** The numerator mulberry32 derives from a new state; every bit
      operation and product is on 32 bits, as `Math.imul` and `>>>` are. */
  function Temper(a: bv32): bv32 {
    var t0 := a;
    var t1 := (t0 ^ (t0 >> 15)) * (t0 | 1);
    var t2 := t1 ^ (t1 + (t1 ^ (t1 >> 7)) * (t1 | 61));
    t2 ^ (t2 >> 14)
  }

  /** The number a call returns: the numerator over 2^32. */
  function Output(numerator: bv32): (r: real)
    ensures 0.0 <= r < 1.0
  {
    (numerator as int) as real / 4294967296.0
  }

  /** The state after `n` calls from `a`, and the numbers they return. */
  function StateAfter(a: bv32, n: nat): bv32
    decreases n
  {
    if n == 0 then a else StateAfter(a, n - 1) + Increment
  }

  function Draws(a: bv32, n: nat): (r: seq<real>)
    ensures |r| == n
    ensures forall i :: 0 <= i < n ==> 0.0 <= r[i] < 1.0
    decreases n
  {
    if n == 0 then [] else Draws(a, n - 1) + [Output(Temper(StateAfter(a, n)))]
  }

  /** The closure returned by `mulberry32(a)`, with its captured state. */
  class Mulberry32 {
    var state: bv32
    ghost var initial: bv32
    ghost var calls: nat

    ghost predicate Valid()
      reads this
    {
      state == StateAfter(initial, calls)
    }

    constructor(seed: bv32)
      ensures state == seed && Valid() && calls == 0 && initial == seed
    {
      state := seed;
      initial := seed;
      calls := 0;
    }

    /** One call: advances the state by the increment and returns a number
        in [0, 1). */
    method Next() returns (r: real)
      requires Valid()
      modifies this
      ensures state == old(state) + Increment
      ensures r == Output(Temper(state)) && 0.0 <= r < 1.0
      ensures calls == old(calls) + 1 && initial == old(initial) && Valid()
    {
      state := state + Increment;
      calls := calls + 1;
      var numerator := Temper(state);
      r := Output(numerator);
    }
  }

  /** The first `n` numbers the avatar's generator gives for a seed: the
      same seed always gives the same numbers. */
  method SeededDraws(seed: seq<CodeUnit>, n: nat) returns (xs: seq<real>)
    ensures xs == Draws(Fnv(seed), n)
  {
    var h := HashSeed(seed);
    var rng := new Mulberry32(h);
    xs := [];
    while |xs| < n
      invariant |xs| <= n
      invariant rng.Valid() && rng.initial == h && rng.calls == |xs|
      invariant xs == Draws(h, |xs|)
    {
      var x := rng.Next();
      xs := xs + [x];
    }
  }

  /** `Math.min(3, Math.max(0.6, s * factor))`. */
  function Zoom(scale: real, factor: real): (r: real)
    ensures 0.6 <= r <= 3.0
    ensures 0.6 <= scale * factor <= 3.0 ==> r == scale * factor
  {
    var m := if 0.6 >= scale * factor then 0.6 else scale * factor;
    if 3.0 <= m then 3.0 else m
  }

  /** The canvas's view: zoom, pan offset and the drag it is in. The wheel
      factor is `exp(-deltaY / 1000)`, which is always positive; it is
      given as a number here. */
  class Viewport {
    var scale: real
    var offsetX: real
    var offsetY: real
    var dragging: bool
    var lastX: real
    var lastY: real

    predicate Valid()
      reads this
    {
      0.6 <= scale <= 3.0
    }

    constructor()
      ensures scale == 1.0 && offsetX == 0.0 && offsetY == 0.0 && !dragging
      ensures lastX == 0.0 && lastY == 0.0
      ensures Valid()
    {
      scale := 1.0;
      offsetX := 0.0;
      offsetY := 0.0;
      dragging := false;
      lastX := 0.0;
      lastY := 0.0;
    }

    /** The wheel handler. */
    method OnWheel(factor: real)
      requires factor > 0.0
      modifies this
      ensures scale == Zoom(old(scale), factor)
      ensures Valid()
      ensures offsetX == old(offsetX) && offsetY == old(offsetY) && dragging == old(dragging)
    {
      scale := Zoom(scale, factor);
    }

    /** The mouse-down handler. */
    method OnDown(x: real, y: real)
      modifies this
      ensures dragging && lastX == x && lastY == y
      ensures scale == old(scale) && offsetX == old(offsetX) && offsetY == old(offsetY)
    {
      dragging := true;
      lastX := x;
      lastY := y;
    }

    /** The mouse-move handler: while dragging, the offset moves by the
        mouse's movement; otherwise nothing changes. */
    method OnMove(x: real, y: real)
      modifies this
      ensures !old(dragging) ==>
        offsetX == old(offsetX) && offsetY == old(offsetY) && lastX == old(lastX) && lastY == old(lastY)
      ensures old(dragging) ==>
        offsetX == old(offsetX) + (x - old(lastX)) && offsetY == old(offsetY) + (y - old(lastY))
        && lastX == x && lastY == y
      ensures dragging == old(dragging) && scale == old(scale)
    {
      if !dragging {
        return;
      }
      var dx := x - lastX;
      var dy := y - lastY;
      lastX := x;
      lastY := y;
      offsetX := offsetX + dx;
      offsetY := offsetY + dy;
    }

    /** The mouse-up handler. */
    method OnUp()
      modifies this
      ensures !dragging
      ensures scale == old(scale) && offsetX == old(offsetX) && offsetY == old(offsetY)
    {
      dragging := false;
    }
  }

  /** A whole drag: pressing at `(x0, y0)` and moving through the points
      moves the offset by exactly the distance from the press to the last
      point. */
  method Drag(v: Viewport, x0: real, y0: real, xs: seq<real>, ys: seq<real>)
    requires |xs| == |ys| > 0
    modifies v
    ensures v.offsetX == old(v.offsetX) + (xs[|xs| - 1] - x0)
    ensures v.offsetY == old(v.offsetY) + (ys[|ys| - 1] - y0)
    ensures v.dragging && v.scale == old(v.scale)
  {
    v.OnDown(x0, y0);
    var i := 0;
    while i < |xs|
      invariant 0 <= i <= |xs|
      invariant v.dragging && v.scale == old(v.scale)
      invariant v.offsetX == old(v.offsetX) + (v.lastX - x0)
      invariant v.offsetY == old(v.offsetY) + (v.lastY - y0)
      invariant i > 0 ==> v.lastX == xs[i - 1] && v.lastY == ys[i - 1]
    {
      v.OnMove(xs[i], ys[i]);
      i := i + 1;
    }
  }
}
