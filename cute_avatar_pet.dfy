/** The cute avatar pet: its two-fifths pastel colours, the pirouette
    start time, the mouth pose per mood and the tap reaction. */
module CuteAvatarPet {
  import opened Common
  import opened AppTypes
  import opened PetColors

  /** The avatar's `pastel`: an empty colour falls back to the default. */
  function CutePastel(hex: string): (r: Option<string>)
    ensures hex == "" ==> r == Pastel(DefaultPrimary, 0.4)
    ensures hex != "" ==> r == Pastel(hex, 0.4)
  {
    Pastel(if hex == "" then DefaultPrimary else hex, 0.4)
  }

  /** The mouth's scale, height and whether it is turned upside down. */
  datatype Pose = Pose(scaleX: real, scaleY: real, scaleZ: real, y: real, flipped: bool)

  /** The mouth pose drawn for a mood. */
  function MouthPose(mood: Mood): (p: Pose)
    ensures p.flipped <==> mood == Sad
    ensures mood == Happy ==> p.scaleX > 1.0
    ensures mood == Sleepy ==> p.scaleX < 1.0 && !p.flipped
  {
    match mood
    case Happy => Pose(1.2, 0.6, 0.3, 0.6, false)
    case Sad => Pose(0.8, 0.6, 0.2, 0.55, true)
    case Sleepy => Pose(0.6, 0.4, 0.15, 0.58, false)
    case Neutral => Pose(1.0, 0.4, 0.25, 0.58, false)
  }

  /** Each mood has its own pose, so the mouth tells the mood apart. */
  lemma MouthPoseDistinct(a: Mood, b: Mood)
    ensures MouthPose(a) == MouthPose(b) <==> a == b
  {
  }

  /** The truthiness of the stored start time: none and 0 are both false. */
  predicate HasStart(start: Option<int>) {
    start.Some? && start.value != 0
  }

  class CuteAvatarState {
    var pirouetteStart: Option<int>
    var isSmiling: bool
    /** How many times `onPetTap` has been called. */
    var petTaps: nat

    constructor()
      ensures pirouetteStart == None && !isSmiling && petTaps == 0
    {
      pirouetteStart := None;
      isSmiling := false;
      petTaps := 0;
    }

    /** The pirouette effect at time `now`: a requested pirouette without a
        start time gets one, a running one keeps its own, and clearing the
        request clears the start. */
    method PirouetteEffect(showPirouette: bool, now: int)
      modifies this
      ensures showPirouette && !old(HasStart(pirouetteStart)) ==> pirouetteStart == Some(now)
      ensures showPirouette && old(HasStart(pirouetteStart)) ==> pirouetteStart == old(pirouetteStart)
      ensures !showPirouette ==> pirouetteStart == None
      ensures isSmiling == old(isSmiling) && petTaps == old(petTaps)
    {
      if showPirouette && !HasStart(pirouetteStart) {
        pirouetteStart := Some(now);
      } else if !showPirouette {
        pirouetteStart := None;
      }
    }

    /** The mood effect's smile: a happy mood starts smiling and a smile
        already running is kept; the excitement timer is not modelled. */
    method MoodEffect(mood: Mood)
      modifies this
      ensures isSmiling == (mood == Happy || old(isSmiling))
      ensures pirouetteStart == old(pirouetteStart) && petTaps == old(petTaps)
    {
      var shouldSmile := mood == Happy || isSmiling;
      isSmiling := shouldSmile;
    }

    /** `handleTap`: reports the tap and starts smiling. */
    method HandleTap()
      modifies this
      ensures petTaps == old(petTaps) + 1 && isSmiling
      ensures pirouetteStart == old(pirouetteStart)
    {
      petTaps := petTaps + 1;
      isSmiling := true;
    }

    /** The pirouette branch of the frame loop at time `now`, with the mesh
        mounted: once 1500 ms have passed since a truthy start, the start is
        cleared; a running pirouette and a missing start are left alone. */
    method PirouetteFrame(now: int)
      modifies this
      ensures HasStart(old(pirouetteStart)) && now - old(pirouetteStart).value >= 1500 ==> pirouetteStart == None
      ensures !(HasStart(old(pirouetteStart)) && now - old(pirouetteStart).value >= 1500) ==> pirouetteStart == old(pirouetteStart)
      ensures isSmiling == old(isSmiling) && petTaps == old(petTaps)
    {
      if HasStart(pirouetteStart) && now - pirouetteStart.value >= 1500 {
        pirouetteStart := None;
      }
    }

    /** The smile's timeout. */
    method EndSmile()
      modifies this
      ensures !isSmiling
      ensures pirouetteStart == old(pirouetteStart) && petTaps == old(petTaps)
    {
      isSmiling := false;
    }
  }

  /** Re-running the effect with the same request changes nothing once a
      start time with a non-zero clock is set: the second run, at whatever
      later time, keeps the first start. */
  method EffectSettles(c: CuteAvatarState, show: bool, now: int, later: int)
    requires now != 0
    modifies c
    ensures show ==> c.pirouetteStart == if old(HasStart(c.pirouetteStart)) then old(c.pirouetteStart) else Some(now)
    ensures show ==> HasStart(c.pirouetteStart)
    ensures !show ==> c.pirouetteStart == None
  {
    c.PirouetteEffect(show, now);
    ghost var first := c.pirouetteStart;
    c.PirouetteEffect(show, later);
    assert show ==> c.pirouetteStart == first;
  }

  /** A pirouette that has finished while the request is still on starts
      again: the frame loop clears the start and the effect, re-run because
      the start changed, records the current time. */
  method FinishedPirouetteRestarts(c: CuteAvatarState, start: int, now: int)
    requires start != 0 && now != 0 && now - start >= 1500
    requires c.pirouetteStart == Some(start)
    modifies c
    ensures c.pirouetteStart == Some(now)
    ensures c.isSmiling == old(c.isSmiling) && c.petTaps == old(c.petTaps)
  {
    c.PirouetteFrame(now);
    c.PirouetteEffect(true, now);
  }
}
