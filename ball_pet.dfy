/** The ball pet: its quarter-pastel body colour and the tap burst that
    makes it smile (ten taps within 1.2 s). */
module BallPet {
  import opened Common
  import opened PetColors
  import opened PetSmile

  /** The ball's `pastel`: an empty colour falls back to the default. */
  function BallPastel(hex: string): (r: Option<string>)
    ensures hex == "" ==> r == Pastel(DefaultPrimary, 0.25)
    ensures hex != "" ==> r == Pastel(hex, 0.25)
  {
    Pastel(if hex == "" then DefaultPrimary else hex, 0.25)
  }

  /** The smile lasts one second. */
  const SmileDuration: real := 1.0

  /** How far back taps are kept, and the window ten taps must fit in, in
      milliseconds. */
  const KeepWindow: real := 2000.0
  const BurstWindow: real := 1200.0

  /** `taps.filter(t => now - t <= 2000)`. */
  function Recent(taps: seq<real>, now: real): (r: seq<real>)
    ensures |r| <= |taps|
    ensures forall i :: 0 <= i < |r| ==> now - r[i] <= KeepWindow
    ensures forall i :: 0 <= i < |taps| && now - taps[i] <= KeepWindow ==> taps[i] in r
    ensures forall t :: t in r ==> t in taps
    decreases |taps|
  {
    if |taps| == 0 then []
    else
      var rest := Recent(taps[..|taps| - 1], now);
      var last := taps[|taps| - 1];
      assert forall i :: 0 <= i < |taps| - 1 ==> taps[i] == taps[..|taps| - 1][i];
      if now - last <= KeepWindow then rest + [last] else rest
  }

  /** The kept taps hold a burst: at least ten, the tenth most recent no
      more than 1.2 s before `now`. */
  predicate IsBurst(kept: seq<real>, now: real) {
    |kept| >= 10 && now - kept[|kept| - 10] <= BurstWindow
  }

  class BallPetState {
    var taps: seq<real>
    var smile: Smile
    /** How many times `onPetTap` has been called. */
    var petTaps: nat

    constructor()
      ensures taps == [] && smile == Idle && petTaps == 0
    {
      taps := [];
      smile := Idle;
      petTaps := 0;
    }

    /** `handleTap` at time `now`: reports the tap, keeps the last two
        seconds of taps and, on a burst, starts the smile and forgets the
        taps. */
    method HandleTap(now: real)
      modifies this
      ensures petTaps == old(petTaps) + 1
      ensures var kept := Recent(old(taps) + [now], now);
        if IsBurst(kept, now) then taps == [] && smile == Started
        else taps == kept && smile == old(smile)
      ensures forall i :: 0 <= i < |taps| ==> now - taps[i] <= KeepWindow
    {
      petTaps := petTaps + 1;
      var kept := Recent(taps + [now], now);
      if |kept| >= 10 {
        var windowStart := kept[|kept| - 10];
        if now - windowStart <= BurstWindow {
          smile := Started;
          kept := [];
        }
      }
      taps := kept;
    }

    /** The frame loop's smile clock. */
    method OnFrame(delta: real)
      modifies this
      ensures smile == Advance(old(smile), delta, SmileDuration)
      ensures taps == old(taps) && petTaps == old(petTaps)
    {
      smile := Advance(smile, delta, SmileDuration);
    }
  }

  /** Nine earlier taps, all still in the keep window and the oldest of
      them at most 1.2 s back, make the next tap a burst. */
  lemma {:induction false} NineQuickTapsThenBurst(taps: seq<real>, now: real)
    requires |taps| == 9
    requires forall i :: 0 <= i < 9 ==> now - taps[i] <= KeepWindow
    requires now - taps[0] <= BurstWindow
    ensures IsBurst(Recent(taps + [now], now), now)
  {
    RecentKeepsAll(taps + [now], now);
    assert (taps + [now])[0] == taps[0];
  }

  /** A lone tap, or any run of fewer than ten kept taps, never smiles. */
  lemma FewTapsNoBurst(taps: seq<real>, now: real)
    requires |taps| < 9
    ensures !IsBurst(Recent(taps + [now], now), now)
  {
  }

  /** Taps all within the keep window are all kept, in order. */
  lemma {:induction false} RecentKeepsAll(taps: seq<real>, now: real)
    requires forall i :: 0 <= i < |taps| ==> now - taps[i] <= KeepWindow
    ensures Recent(taps, now) == taps
    decreases |taps|
  {
    if |taps| > 0 {
      var init := taps[..|taps| - 1];
      RecentKeepsAll(init, now);
      assert init + [taps[|taps| - 1]] == taps;
    }
  }
}
