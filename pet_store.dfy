/** The pet store: the one pet (or none), its lives, and the death rules.
    The legacy name key that the onboarding gate reads is kept beside it as
    an in-memory slot, since the death paths remove it. */
module PetStore {
  import opened Common
  import opened ProgressTypes

  datatype PetMode = Mortal | Immortal

  datatype AvatarKind = Fox | Dog | Cat | Frog | Blob | Element

  /** The stored pet. `lastCheckedDate` is the last day whose outcome cost a
      life. */
  datatype PetMeta = PetMeta(
    name: string,
    mode: PetMode,
    livesRemaining: int,
    avatarSeed: string,
    alive: bool,
    lastCheckedDate: Option<Date>,
    avatarKind: Option<AvatarKind>,
    primaryColor: Option<string>)

  /** The pet, if any, would lose a life for `date`: it is mortal and alive
      and `date` has not been processed yet. */
  predicate CanLoseLife(pet: Option<PetMeta>, date: Date) {
    pet.Some? && pet.value.mode == Mortal && pet.value.alive
    && pet.value.lastCheckedDate != Some(date)
  }

  /** The pet after `decrementLifeForDate(date)`. */
  function DecrementLife(pet: Option<PetMeta>, date: Date): (r: Option<PetMeta>)
    ensures !CanLoseLife(pet, date) ==> r == pet
    ensures CanLoseLife(pet, date) ==>
      r.Some?
      && r.value.livesRemaining == MaxInt(0, pet.value.livesRemaining - 1)
      && (r.value.alive <==> r.value.livesRemaining > 0)
      && r.value.lastCheckedDate == Some(date)
      && r.value.name == pet.value.name && r.value.mode == pet.value.mode
      && r.value.avatarSeed == pet.value.avatarSeed && r.value.avatarKind == pet.value.avatarKind
      && r.value.primaryColor == pet.value.primaryColor
  {
    if pet.None? || pet.value.mode != Mortal || !pet.value.alive then pet
    else if pet.value.lastCheckedDate == Some(date) then pet
    else
      var lives := MaxInt(0, pet.value.livesRemaining - 1);
      Some(pet.value.(livesRemaining := lives, alive := lives > 0, lastCheckedDate := Some(date)))
  }

  /** The call for `date` kills the pet. */
  predicate DiesOn(pet: Option<PetMeta>, date: Date) {
    CanLoseLife(pet, date) && pet.value.livesRemaining <= 1
  }

  /** The pet after `killPet()`. */
  function Kill(pet: Option<PetMeta>): (r: Option<PetMeta>)
    ensures pet.None? ==> r.None?
    ensures pet.Some? ==> r == Some(pet.value.(livesRemaining := 0, alive := false))
  {
    if pet.None? then None else Some(pet.value.(livesRemaining := 0, alive := false))
  }

  /** `livesRemaining` never goes below 0 and never rises through a
      decrement or a kill, and the lives lost by a decrement are at most one. */
  lemma LivesNeverIncrease(pet: Option<PetMeta>, date: Date)
    requires pet.Some? && pet.value.livesRemaining >= 0
    ensures var r := DecrementLife(pet, date);
      0 <= r.value.livesRemaining <= pet.value.livesRemaining
      && r.value.livesRemaining >= pet.value.livesRemaining - 1
    ensures var r := Kill(pet); 0 == r.value.livesRemaining <= pet.value.livesRemaining
  {
  }

  /** A decrement kills the pet exactly when it had at most one life left. */
  lemma DeathOnLastLife(pet: Option<PetMeta>, date: Date)
    requires CanLoseLife(pet, date)
    ensures !DecrementLife(pet, date).value.alive <==> DiesOn(pet, date)
  {
  }

  /** Death is terminal: a dead pet is left alone by every later decrement,
      and a kill leaves it dead. */
  lemma DeadIsTerminal(pet: Option<PetMeta>, date: Date)
    requires pet.Some? && !pet.value.alive
    ensures DecrementLife(pet, date) == pet
    ensures !Kill(pet).value.alive
  {
  }

  /** The pet after a series of `decrementLifeForDate` calls. */
  function DecrementAll(pet: Option<PetMeta>, dates: seq<Date>): Option<PetMeta>
    decreases |dates|
  {
    if |dates| == 0 then pet else DecrementAll(DecrementLife(pet, dates[0]), dates[1..])
  }

  /** Repeated calls for the same date cost at most one life: the series is
      the same as one call. */
  lemma {:induction false} SameDateCostsOneLife(pet: Option<PetMeta>, date: Date, n: nat)
    ensures DecrementAll(pet, seq(n, _ => date)) == if n == 0 then pet else DecrementLife(pet, date)
    decreases n
  {
    if n > 0 {
      var rest := seq(n - 1, _ => date);
      assert seq(n, _ => date)[1..] == rest;
      var once := DecrementLife(pet, date);
      assert DecrementLife(once, date) == once;
      SameDateCostsOneLife(once, date, n - 1);
    }
  }

  /** A series of decrements loses at most one life per call and never
      brings lives below 0. */
  lemma {:induction false} SeriesLosesAtMostOnePerCall(pet: Option<PetMeta>, dates: seq<Date>)
    requires pet.Some? && pet.value.livesRemaining >= 0
    ensures var r := DecrementAll(pet, dates);
      r.Some? && 0 <= r.value.livesRemaining <= pet.value.livesRemaining
      && r.value.livesRemaining >= pet.value.livesRemaining - |dates|
    decreases |dates|
  {
    if |dates| > 0 {
      LivesNeverIncrease(pet, dates[0]);
      SeriesLosesAtMostOnePerCall(DecrementLife(pet, dates[0]), dates[1..]);
    }
  }

  /** The onboarding gate: a non-empty stored name and a pet that is not
      known to be dead (no pet counts as not dead). */
  predicate IsOnboarded(nameKey: Option<string>, pet: Option<PetMeta>) {
    nameKey.Some? && nameKey.value != "" && !(pet.Some? && !pet.value.alive)
  }

  class Store {
    var pet: Option<PetMeta>
    /** The legacy `activegotchi-pet-name` storage key. */
    var nameKey: Option<string>

    constructor(nameKey: Option<string>)
      ensures pet == None && this.nameKey == nameKey
    {
      pet := None;
      this.nameKey := nameKey;
    }

    /** `setPet`: replaces the pet wholesale. */
    method SetPet(p: PetMeta)
      modifies this
      ensures pet == Some(p) && nameKey == old(nameKey)
    {
      pet := Some(p);
    }

    /** `decrementLifeForDate`: loses a life for `date` and, when that was the
        last one, removes the name key. */
    method DecrementLifeForDate(date: Date)
      modifies this
      ensures pet == DecrementLife(old(pet), date)
      ensures nameKey == if DiesOn(old(pet), date) then None else old(nameKey)
      ensures DiesOn(old(pet), date) ==> !IsOnboarded(nameKey, pet)
    {
      var p := pet;
      if p.None? || p.value.mode != Mortal || !p.value.alive {
        return;
      }
      if p.value.lastCheckedDate == Some(date) {
        return;
      }
      var lives := MaxInt(0, p.value.livesRemaining - 1);
      var alive := lives > 0;
      pet := Some(p.value.(livesRemaining := lives, alive := alive, lastCheckedDate := Some(date)));
      if !alive {
        nameKey := None;
      }
    }

    /** `killPet`: no lives, not alive, and the name key removed; nothing
        happens without a pet. */
    method KillPet()
      modifies this
      ensures pet == Kill(old(pet))
      ensures nameKey == if old(pet).Some? then None else old(nameKey)
      ensures !IsOnboarded(nameKey, pet) || old(pet).None?
    {
      if pet.None? {
        return;
      }
      pet := Some(pet.value.(livesRemaining := 0, alive := false));
      nameKey := None;
    }

    /** `resetPet`: forgets the pet. */
    method ResetPet()
      modifies this
      ensures pet == None && nameKey == old(nameKey)
    {
      pet := None;
    }
  }
}
