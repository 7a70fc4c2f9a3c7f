/** The fire pet: the same quarter-pastel colour rule and 0.9-second smile
    as the blue pet, written out again in its own file. */
module FirePet {
  import opened Common
  import opened PetColors
  import opened PetSmile
  import opened BluePet

  /** The fire pet's `pastel`: no fallback for an empty colour. */
  function FirePastel(hex: string): (r: Option<string>)
    ensures hex == "" ==> r.None?
    ensures r == BluePastel(hex)
  {
    Pastel(hex, 0.25)
  }

  /** The body colour with the caller's fallback: the blue pet's colour
      for the same primary. */
  function FireBodyColor(primary: string): (r: Option<string>)
    ensures r == BlueBodyColor(primary)
    ensures primary == "" ==> r == Some("#9dd4ff")
  {
    FirePastel(if primary == "" then DefaultPrimary else primary)
  }

  const FireSmileDuration: real := 0.9

  class FirePetState {
    var smile: Smile
    var petTaps: nat

    constructor()
      ensures smile == Idle && petTaps == 0
    {
      smile := Idle;
      petTaps := 0;
    }

    /** The `onPointerDown` handler: reports the tap and restarts the smile. */
    method PointerDown()
      modifies this
      ensures petTaps == old(petTaps) + 1 && smile == Started
    {
      petTaps := petTaps + 1;
      smile := Started;
    }

    /** The frame loop's smile clock. */
    method OnFrame(delta: real)
      modifies this
      ensures smile == Advance(old(smile), delta, FireSmileDuration)
      ensures petTaps == old(petTaps)
    {
      smile := Advance(smile, delta, FireSmileDuration);
    }
  }
}
