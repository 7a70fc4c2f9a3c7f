/** The daily outcome check: a mortal, living pet loses a life when
    yesterday's record shows that the goals were not reached. */
module PetLifecycle {
  import opened Common
  import opened ProgressTypes
  import opened PetStore

  /** The pet after `checkDailyOutcome()` on `today`. */
  function DailyOutcome(pet: Option<PetMeta>, historical: History, today: Date): (r: Option<PetMeta>)
    ensures pet.None? || pet.value.mode == Immortal || !pet.value.alive ==> r == pet
    ensures today - 1 !in historical ==> r == pet
    ensures today - 1 in historical && historical[today - 1].goalsReached ==> r == pet
    ensures today - 1 in historical && !historical[today - 1].goalsReached ==>
      r == DecrementLife(pet, today - 1)
  {
    if pet.None? || pet.value.mode != Mortal || !pet.value.alive then pet
    else
      var yesterday := today - 1;
      if yesterday !in historical then pet
      else if !historical[yesterday].goalsReached then DecrementLife(pet, yesterday)
      else pet
  }

  /** Only yesterday's `goalsReached` matters: two histories that agree on it
      give the same outcome, whatever they say about today, about other days
      or about the 80 % `completed` flag. */
  lemma OnlyYesterdayGoalsMatter(pet: Option<PetMeta>, h1: History, h2: History, today: Date)
    requires (today - 1 in h1 <==> today - 1 in h2)
    requires today - 1 in h1 ==> h1[today - 1].goalsReached == h2[today - 1].goalsReached
    ensures DailyOutcome(pet, h1, today) == DailyOutcome(pet, h2, today)
  {
  }

  /** Running the check twice on the same day loses at most one life: the
      second run changes nothing. */
  lemma CheckTwiceSameDay(pet: Option<PetMeta>, historical: History, today: Date)
    ensures var once := DailyOutcome(pet, historical, today);
      DailyOutcome(once, historical, today) == once
  {
  }

  /** A day with reached goals leaves the pet untouched, so its
      `lastCheckedDate` is not written. */
  lemma SuccessLeavesLastCheckedDate(pet: Option<PetMeta>, historical: History, today: Date)
    requires pet.Some?
    requires today - 1 in historical && historical[today - 1].goalsReached
    ensures DailyOutcome(pet, historical, today).value.lastCheckedDate == pet.value.lastCheckedDate
  {
  }

  /** A failed yesterday costs a living mortal pet exactly one life (down to
      0) unless that day was already processed. */
  lemma FailedDayCostsOneLife(pet: Option<PetMeta>, historical: History, today: Date)
    requires pet.Some? && pet.value.mode == Mortal && pet.value.alive
    requires pet.value.lastCheckedDate != Some(today - 1)
    requires today - 1 in historical && !historical[today - 1].goalsReached
    ensures DailyOutcome(pet, historical, today).value.livesRemaining == MaxInt(0, pet.value.livesRemaining - 1)
    ensures DailyOutcome(pet, historical, today).value.lastCheckedDate == Some(today - 1)
  {
  }

  /** `checkDailyOutcome`: the guard, the lookup of yesterday, and the call
      to `decrementLifeForDate` on a failed day. */
  method CheckDailyOutcome(store: PetStore.Store, historical: History, today: Date)
    modifies store
    ensures store.pet == DailyOutcome(old(store.pet), historical, today)
    ensures store.nameKey ==
      if today - 1 in historical && !historical[today - 1].goalsReached && DiesOn(old(store.pet), today - 1)
      then None else old(store.nameKey)
  {
    var pet := store.pet;
    if pet.None? || pet.value.mode != Mortal || !pet.value.alive {
      return;
    }
    var yesterday := today - 1;
    if yesterday !in historical {
      return;
    }
    var day := historical[yesterday];
    if !day.goalsReached {
      store.DecrementLifeForDate(yesterday);
    }
  }
}
