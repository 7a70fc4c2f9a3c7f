/** The blue pet: a quarter-pastel body colour whose `pastel` has no
    fallback of its own, and a tap that starts a 0.9-second smile. */
module BluePet {
  import opened Common
  import opened PetColors
  import opened PetSmile
  import opened BallPet

  /** The blue pet's `pastel`: no fallback for an empty colour, which
      therefore does not parse. */
  function BluePastel(hex: string): (r: Option<string>)
    ensures hex == "" ==> r.None?
    ensures r == Pastel(hex, 0.25)
  {
    Pastel(hex, 0.25)
  }

  /** The body colour: the caller supplies the fallback, so the pastel
      never sees an empty colour, and the result is the ball pet's. */
  function BlueBodyColor(primary: string): (r: Option<string>)
    ensures r == BallPastel(primary)
    ensures primary == "" ==> r == Some("#9dd4ff")
  {
    DefaultQuarterPastel();
    BluePastel(if primary == "" then DefaultPrimary else primary)
  }

  /** For no colour or a `#RRGGBB` colour the body colour exists and is
      again a `#RRGGBB` colour. */
  lemma BodyColorExists(primary: string)
    requires primary == "" || IsHexColor(primary)
    ensures BlueBodyColor(primary).Some? && IsHexColor(BlueBodyColor(primary).value)
  {
    if primary == "" {
      PastelOfHexColor(DefaultPrimary, 0.25);
    } else {
      PastelOfHexColor(primary, 0.25);
    }
  }

  const BlueSmileDuration: real := 0.9

  class BluePetState {
    var smile: Smile
    var petTaps: nat

    constructor()
      ensures smile == Idle && petTaps == 0
    {
      smile := Idle;
      petTaps := 0;
    }

    /** The `onPointerDown` handler: reports the tap and restarts the smile. */
    method PointerDown()
      modifies this
      ensures petTaps == old(petTaps) + 1 && smile == Started
    {
      petTaps := petTaps + 1;
      smile := Started;
    }

    /** The frame loop's smile clock. */
    method OnFrame(delta: real)
      modifies this
      ensures smile == Advance(old(smile), delta, BlueSmileDuration)
      ensures petTaps == old(petTaps)
    {
      smile := Advance(smile, delta, BlueSmileDuration);
    }
  }
}
