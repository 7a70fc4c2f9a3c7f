# activegotchi in Dafny

ActiveGotchi is a fitness companion: a virtual pet lives on the user's daily
step and distance goals. This project models the rules that decide what the
app stores and shows, and proves properties about them:

- **daily progress store** (`ProgressStore`): it records one day's progress
  as a percentage with the 80 % completion flag and the goals-reached flag. It
  also computes the current and longest streaks and the seven-day projection
  of the current week. It turns the history map into plain-object entries and
  back, and it generates the 22-day sample history.
- **pet store and lifecycle** (`PetStore`, `PetLifecycle`): the pet's
  lives, the onboarding gate, the once-per-date decrement, death and the kill and reset
  operations, and the daily outcome check that reads only yesterday's
  `goalsReached`.
- **health data** (`HealthService`, `ProgressHook`, `AppTypes`): the
  capped goal percentages, goal completion and the mood a day puts the pet
  in.
- **apps and navigation** (`MainApp`, `MobileApp`, `Navigation`): the
  pet's mood, the heart level and the tab and sheet state machine with
  its persisted subset.
- **progress views** (`WeekProgressView`, `ProgressMapView`, `StreakView`,
  `DayCellView`, `WeeklyMapView`): week totals and completion rates, the
  classification of day cells, streak messages and the celebration triggers.
- **pets** (`PetColors`, `PetSmile`, `BallPet`, `BluePet`, `FirePet`,
  `CuteAvatarPet`, `AvatarCanvas`, `ArAssets`): the colour mixing, the
  smile and tap timers, the FNV-1a seed hash and mulberry32 generator, the
  canvas viewport, and the AR model paths and scene-viewer link.
- **achievements** (`Achievements`, `AchievementService`): the thirteen-entry
  catalogue, progress and unlocking by stats and by daily data, the overlay
  of stored entries on the catalogue, and the notification queue.

A calendar date is an integer day number, with day 0 a Monday. Numbers are
reals, and `Math.round` is `floor(x + 0.5)`. Every storage key is an
in-memory `Option` slot on the class that owns it. The clock, random draws
and the wheel factor are parameters.

Where the written specification and the code disagree, the model follows
the code:

- the longest streak counts consecutive completed entries among the days
  that are present, so a missing day does not break a run;
- `lastCheckedDate` is written only when a life is actually lost;
- a day is completed when its rounded progress reaches 80, so 79.5 counts.

## Model

| member | source | states |
|---|---|---|
| ProgressStore.SortedKeys | src/store/progressStore.ts:37 | the keys are listed in strictly ascending order, each stored key exactly once |
| ProgressStore.StrictlyIncreasingUnique | src/store/progressStore.ts:37 | an ascending key list is determined by its members, so the sorted order is unique |
| ProgressStore.RunEndingAt | src/store/progressStore.ts:43-58 | the result is a run of completed days ending at the date, and the day before the run is not completed unless the look-back bound was reached |
| ProgressStore.CurrentStreak | src/store/progressStore.ts:43-58 | the current streak is at most 31, is 0 when the reference date is missing or not completed, and is exactly the run of completed days ending there |
| ProgressStore.RunLengthUnique | src/store/progressStore.ts:43-58 | any length with the run property is the run length that the backward walk finds |
| ProgressStore.RunFoldTrailing | src/store/progressStore.ts:61-69 | the loop's running count is the block of completed keys at the end of the prefix, and it never exceeds the best count |
| ProgressStore.RunFoldBound | src/store/progressStore.ts:61-69 | no block of consecutive completed keys is longer than the loop's best count |
| ProgressStore.RunFoldAttained | src/store/progressStore.ts:61-69 | some block of consecutive completed keys is exactly as long as the loop's best count |
| ProgressStore.LongestStreak | src/store/progressStore.ts:61-69 | definition of the longest streak; its properties are in LongestStreakIsLongestRun and CurrentAtMostLongest |
| ProgressStore.LongestStreakIsLongestRun | src/store/progressStore.ts:36-72 | the longest streak is the length of the longest run of completed entries in ascending key order |
| ProgressStore.LongestStreakOfEmpty | src/store/progressStore.ts:39 | an empty history has a longest streak of 0 |
| ProgressStore.GapDoesNotBreakLongestStreak | src/store/progressStore.ts:61-69 | two completed days with a missing day between them make a longest streak of 2, while the current streak on the later day is 1 |
| ProgressStore.ConsecutiveDaysAdjacent | src/store/progressStore.ts:43-58 | in ascending keys, a run of consecutive day numbers sits at consecutive positions |
| ProgressStore.CurrentAtMostLongest | src/store/progressStore.ts:36-72 | the current streak never exceeds the longest streak of the same history |
| ProgressStore.CompletedDaysFormRun | src/store/progressStore.ts:36-72 | c completed calendar days ending today form a block of c consecutive entries in any ascending listing of the stored dates, so the longest streak is at least c |
| ProgressStore.CurrentStreakLoop | src/store/progressStore.ts:43-58 | the backward loop over at most 31 days returns the current streak |
| ProgressStore.LongestStreakLoop | src/store/progressStore.ts:61-69 | the loop over the sorted keys returns the longest streak |
| ProgressStore.LongestRunOver | src/store/progressStore.ts:61-69 | the counting loop over any list of dates ends with the best run of the fold over those dates, so it returns the longest block of completed dates in them |
| ProgressStore.CalculateStreak | src/store/progressStore.ts:36-72 | returns the current and the longest streak, and current ≤ longest |
| ProgressStore.WeekOf | src/store/progressStore.ts:74-107 | the week starts on the Monday on or before today and has 7 days, each the stored record or a zero record; the streak is the current streak; totalWeeks is the ceiling of the history size over 7 |
| ProgressStore.BuildWeekData | src/store/progressStore.ts:74-107 | the push loop builds exactly that week |
| ProgressStore.CountCompletedIn | src/store/progressStore.ts:149 | the count is at most the number of keys, and it is 0 exactly when none of them is completed |
| ProgressStore.CompletedCount | src/store/progressStore.ts:149 | `totalDaysCompleted` is at most the number of entries, and it is 0 exactly when no entry is completed |
| ProgressStore.ApplyUpdate | src/store/progressStore.ts:130-136 | supplied fields win over the existing ones; `completed` is recomputed as progress ≥ 80 only when progress is supplied, and is kept otherwise |
| ProgressStore.CompletedFieldIgnored | src/store/progressStore.ts:130-136 | the `completed` field of an update never reaches the stored record |
| ProgressStore.ApplyUpdateIdempotent | src/store/progressStore.ts:130-136 | applying the same update twice stores the same record as applying it once |
| ProgressStore.EmptyUpdateKeepsRecord | src/store/progressStore.ts:130-136 | an update with no fields leaves the record unchanged |
| ProgressStore.Upsert | src/store/progressStore.ts:119-139 | only the entry for the date changes; it becomes the existing or zero record with the update applied, and the date joins the keys |
| ProgressStore.SampleDay | src/store/progressStore.ts:17-30 | a sample day carries its date; it is completed iff drawn completed and its unrounded progress is ≥ 80, so completed implies progress ≥ 80; progress ≤ 100; the goals are judged on the raw draw |
| ProgressStore.SampleUpToContents | src/store/progressStore.ts:12-31 | after n iterations the history holds exactly the first n of the 22 days, each drawn from its own draw |
| ProgressStore.SampleData | src/store/progressStore.ts:7-34 | from draws in the generator's ranges, the sample history covers exactly the 22 days ending today |
| ProgressStore.SampleDataRecords | src/store/progressStore.ts:12-31 | every sample record carries its own date, and a completed record has progress ≥ 80 |
| ProgressStore.SampleGoalsOnlyOnCompletedDraws | src/store/progressStore.ts:18-30 | within the drawn ranges, a sample day reaching both goals was drawn completed and is completed |
| ProgressStore.SampleGoalsImplyCompleted | src/store/progressStore.ts:12-31 | every sample record that reaches both goals is completed |
| ProgressStore.GenerateSampleData | src/store/progressStore.ts:7-34 | the loop produces the sample history |
| ProgressStore.InitialWeek | src/store/progressStore.ts:117 | the initial week is the week of a second, independent sample history |
| ProgressStore.Store.constructor | src/store/progressStore.ts:111-117 | the store starts from one sample history and the week of another, with all counters 0 |
| ProgressStore.Store.Recompute | src/store/progressStore.ts:141-150 | the history is set and the streaks, week and completed count are recomputed from it |
| ProgressStore.Store.UpdateDayProgress | src/store/progressStore.ts:119-151 | the history becomes the upsert of the old one, and every derived field agrees with the new history |
| ProgressStore.Store.GetCurrentWeekData | src/store/progressStore.ts:153-156 | returns the week of the stored history |
| ProgressStore.Store.GetStreakData | src/store/progressStore.ts:158-161 | returns the current and the longest streak of the stored history, current ≤ longest |
| ProgressStore.Store.LoadHistoricalData | src/store/progressStore.ts:163-174 | the history is kept and the derived fields are recomputed |
| ProgressStore.Store.ResetProgress | src/store/progressStore.ts:176-188 | the history is replaced by a fresh sample history, and the derived fields agree with it |
| ProgressStore.FromEntries | src/store/progressStore.ts:210 | the rebuilt map has exactly the listed keys, and each maps to the last entry listed for it |
| ProgressStore.EntriesRoundTrip | src/store/progressStore.ts:209-220 | rebuilding a map from its own entries gives the map back |
| ProgressStore.ToEntries | src/store/progressStore.ts:220 | lists every entry of the map exactly once |
| ProgressStore.Storage.constructor | src/store/progressStore.ts:203-206 | the key starts empty |
| ProgressStore.Storage.SetItem | src/store/progressStore.ts:214-224 | writes the map as its entries and the other fields unchanged, with version 1 |
| ProgressStore.Storage.GetItem | src/store/progressStore.ts:204-213 | an empty key gives nothing; otherwise the stored state with the map rebuilt from its entries |
| ProgressStore.StorageRoundTrip | src/store/progressStore.ts:204-224 | reading back what was written gives the same state |
| PetStore.CanLoseLife | src/store/petStore.ts:33-34 | definition: a present, mortal, living pet not yet processed for the date; used by DecrementLife |
| PetStore.DiesOn | src/store/petStore.ts:33-36 | definition: a decrement for the date takes the last life; characterised in DeathOnLastLife |
| PetStore.DecrementLife | src/store/petStore.ts:30-38 | a pet that is absent, immortal, dead or already processed for the date is unchanged; otherwise it loses one life, floored at 0, is alive iff lives remain, records the date, and keeps every other field |
| PetStore.Kill | src/store/petStore.ts:44-47 | no pet stays no pet; a pet gets 0 lives and is dead, and every other field is kept |
| PetStore.LivesNeverIncrease | src/store/petStore.ts:35 | a decrement or a kill never raises the lives, never takes them below 0, and a decrement costs at most one |
| PetStore.DeathOnLastLife | src/store/petStore.ts:35-36 | a decrement kills the pet exactly when it had at most one life left |
| PetStore.DeadIsTerminal | src/store/petStore.ts:33 | a dead pet is left alone by every decrement and stays dead after a kill |
| PetStore.SameDateCostsOneLife | src/store/petStore.ts:34 | any number of decrements for the same date has the effect of one |
| PetStore.DecrementAll | src/store/petStore.ts:30-38 | definition: a series of decrements, one per date; properties in SeriesLosesAtMostOnePerCall and SameDateCostsOneLife |
| PetStore.SeriesLosesAtMostOnePerCall | src/store/petStore.ts:30-38 | a series of decrements loses at most one life per call and never goes below 0 |
| PetStore.Store.constructor | src/store/petStore.ts:28 | the store starts without a pet |
| PetStore.Store.SetPet | src/store/petStore.ts:29 | the pet is replaced wholesale and the name key is untouched |
| PetStore.Store.DecrementLifeForDate | src/store/petStore.ts:30-43 | the pet becomes its decrement; the legacy name key is removed exactly when this call kills the pet, which ends onboarding |
| PetStore.Store.KillPet | src/store/petStore.ts:44-49 | the pet becomes its kill and the name key is removed, unless there was no pet |
| PetStore.Store.ResetPet | src/store/petStore.ts:50 | the pet is forgotten and the name key is untouched |
| PetStore.IsOnboarded | src/App.tsx:15-20 | definition of the onboarding gate: a non-empty stored name and a pet that is not known to be dead; Store.DecrementLifeForDate and Store.KillPet show that death ends it |
| PetLifecycle.DailyOutcome | src/hooks/usePetLifecycle.ts:12-21 | an absent, immortal or dead pet is unchanged; a missing or successful yesterday changes nothing; a failed yesterday applies the decrement for yesterday |
| PetLifecycle.OnlyYesterdayGoalsMatter | src/hooks/usePetLifecycle.ts:14-18 | histories that agree on yesterday's goalsReached give the same outcome, whatever they hold elsewhere |
| PetLifecycle.CheckTwiceSameDay | src/hooks/usePetLifecycle.ts:12-21 | running the daily check twice on the same day loses at most one life |
| PetLifecycle.SuccessLeavesLastCheckedDate | src/hooks/usePetLifecycle.ts:18-20 | a day with reached goals does not write lastCheckedDate |
| PetLifecycle.FailedDayCostsOneLife | src/hooks/usePetLifecycle.ts:18-20 | a failed yesterday costs a living mortal pet one life, floored at 0, and records yesterday, unless that day was already processed |
| PetLifecycle.CheckDailyOutcome | src/hooks/usePetLifecycle.ts:12-21 | the stored pet becomes the daily outcome, and the name key goes exactly when the decrement kills the pet |
| HealthService.InitialReadings | src/services/healthData.ts:5-12 | the starting readings have positive goals |
| HealthService.GoalProgressOf | src/services/healthData.ts:61-66 | each percentage is at most 100, non-negative for non-negative readings, and is 100 exactly when its goal is reached |
| HealthService.GoalsReachedIffFullProgress | src/services/healthData.ts:56-66 | the goals are reached exactly when both percentages are 100, and exactly when their mean is 100 |
| HealthService.InitialReadingsState | src/services/healthData.ts:5-12 | the starting readings reach neither the goals nor the sleep goal |
| HealthService.HalfwayProgress | src/services/healthData.ts:61-66 | half the step goal and half the distance goal give 50 % on both |
| HealthService.GoalsReached | src/services/healthData.ts:56-59 | definition: both goals reached; characterised in GoalsReachedIffFullProgress |
| HealthService.GoodSleep | src/services/healthData.ts:68-70 | definition: hours slept, 0 when unknown, against the goal, 7 when unknown; property in NoSleepReadingIsNotGood |
| HealthService.NoSleepReadingIsNotGood | src/services/healthData.ts:68-70 | without a sleep reading the hours count as 0, so no positive sleep goal is met |
| HealthService.HealthDataService.constructor | src/services/healthData.ts:5-12 | the service starts from the initial readings |
| HealthService.HealthDataService.GetHealthData | src/services/healthData.ts:47-49 | returns the current readings |
| HealthService.HealthDataService.UpdateMockData | src/services/healthData.ts:51-54 | only steps and distance change; goals and sleep stay |
| HealthService.HealthDataService.HasReachedGoals | src/services/healthData.ts:56-59 | true exactly when both goals are reached |
| HealthService.HealthDataService.GetGoalProgress | src/services/healthData.ts:61-66 | returns the two capped percentages of the current readings |
| HealthService.HealthDataService.HasGoodSleep | src/services/healthData.ts:68-70 | true exactly when the hours slept, 0 when unknown, reach the goal, 7 when unknown |
| HealthService.Registry.GetInstance | src/services/healthData.ts:14-19 | the first call creates the service from the initial readings; later calls return the same object |
| HealthService.Registry.GetInstanceTwice | src/services/healthData.ts:14-19 | two calls return the same service |
| ProgressHook.Overall | src/hooks/useProgressData.ts:21-23 | the overall progress is at most 100 |
| ProgressHook.TodayUpdate | src/hooks/useProgressData.ts:19-31 | the update carries the rounded overall progress, the raw steps and distance, the goals flag, and a completed flag that compares the UNROUNDED progress with 80 |
| ProgressHook.StoredTodayRecord | src/hooks/useProgressData.ts:25-31 | the stored record keeps the reading and the goals flag, and its progress lies in [0, 100]; because the store recomputes completed from the rounded progress, the record is completed exactly when the unrounded mean is ≥ 79.5 |
| ProgressHook.CompletedFlagDiscarded | src/hooks/useProgressData.ts:30 | 5900 steps and 8 km give a mean of 79.5 %: the hook sends completed = false, yet the stored record is completed |
| ProgressHook.UpdateTodayProgress | src/hooks/useProgressData.ts:19-32 | today's entry becomes the upsert of the update built from the reading, and every derived field agrees with the new history |
| ProgressHook.FindDay | src/hooks/useProgressData.ts:65 | nothing is found exactly when no day has the date; otherwise the first day with the date is returned |
| ProgressHook.TodayProgressIsStoredRecord | src/hooks/useProgressData.ts:63-66 | for a history whose records carry their own dates, today's entry in the current week is the stored record, or the zero record when there is none |
| ProgressHook.FindInDatedDays | src/hooks/useProgressData.ts:65 | in records dated start, start + 1, … the search for a date in that range finds the record at the date's offset |
| ProgressHook.WeekCompletion | src/hooks/useProgressData.ts:68-71 | definition: the rounded share of completed days in seven; bounds in WeekCompletionBounds |
| ProgressHook.WeekCompletionBounds | src/hooks/useProgressData.ts:68-71 | the week completion lies in [0, 100]; it is 0 exactly when no day is completed and 100 exactly when all seven are |
| ProgressHook.IsOnStreak | src/hooks/useProgressData.ts:73 | definition: a positive current streak; characterised in OnStreakIffTodayCompleted |
| ProgressHook.OnStreakIffTodayCompleted | src/hooks/useProgressData.ts:73 | the user is on a streak exactly when today is completed |
| ProgressHook.MotivationalMessage | src/hooks/useProgressData.ts:75-89 | one message per streak band (0, 1, 2–6, 7–20, 21 and more); the last three carry the streak |
| ProgressHook.MotivationMonotone | src/hooks/useProgressData.ts:75-89 | a longer streak never moves the message to a lower band |
| MobileApp.MobileMood | src/components/mobile/MobileApp.tsx:82-100 | happy exactly when both goals are reached; otherwise sleepy exactly when sleep is not good; otherwise sad below an 80 % mean and neutral from 80 % |
| MobileApp.SleepOutranksAverage | src/components/mobile/MobileApp.tsx:91-97 | poor sleep makes the pet sleepy whatever the progress, and a neutral pet has a mean in [80, 100) |
| MobileApp.Tapped | src/components/mobile/MobileApp.tsx:102-107 | a tap adds 25 to 74 steps and 0.05 to 0.15 km, and leaves the goals and sleep as they were |
| MobileApp.TapKeepsHappy | src/components/mobile/MobileApp.tsx:102-110 | a tap never makes a happy pet unhappy |
| MobileApp.PetView.constructor | src/components/mobile/MobileApp.tsx:29-37 | the pet starts neutral with a heart level of 0 |
| MobileApp.PetView.UpdatePetMood | src/components/mobile/MobileApp.tsx:82-100 | the mood becomes the mobile mood of the service's readings, and the heart level their mean progress, at most 100 |
| MobileApp.PetView.HandlePetTap | src/components/mobile/MobileApp.tsx:102-112 | the readings become the tapped readings, the mood and heart level follow them, and today's record is upserted from them |
| MainApp.LegacyMood | src/components/MainApp.tsx:52-65 | happy from an 80 % mean, sad below 30 %, neutral in between, never sleepy |
| MainApp.LegacyMoodOnlyAverage | src/components/MainApp.tsx:52-65 | two readings with the same mean progress get the same mood |
| MainApp.RulesAgreeOnReachedGoals | src/components/MainApp.tsx:58-59 | reached goals make both rules happy, and a pet happy under the mobile rule is happy under the legacy rule |
| MainApp.LegacyPetView.constructor | src/components/MainApp.tsx:20-23 | the pet starts neutral |
| MainApp.LegacyPetView.UpdatePetMood | src/components/MainApp.tsx:52-65 | the mood becomes the legacy mood of the service's readings |
| MainApp.LegacyPetView.HandlePetTap | src/components/MainApp.tsx:67-75 | the readings become the tapped readings, the mood follows them, and today's record is upserted from them |
| Navigation.NavigationStore.constructor | src/store/navigationStore.ts:39-46 | the store starts on the home tab with no modal, both sheets closed, zero heights and no gesture |
| Navigation.NavigationStore.Rehydrate | src/store/navigationStore.ts:130-136 | only the tab is restored; the modal and sheet flags start clean |
| Navigation.NavigationStore.OpenModal | src/store/navigationStore.ts:63-69 | the modal is set and each sheet is open exactly when it is that modal; the tab, heights and gesture flag are unchanged |
| Navigation.NavigationStore.CloseModal | src/store/navigationStore.ts:71-78 | no modal, both sheets closed, back on the home tab |
| Navigation.NavigationStore.OpenProgressSheet | src/store/navigationStore.ts:81-88 | the progress sheet is the modal and the only open sheet, on the progress tab |
| Navigation.NavigationStore.CloseProgressSheet | src/store/navigationStore.ts:90-96 | no modal, progress sheet closed, home tab; the settings sheet flag is untouched |
| Navigation.NavigationStore.OpenSettingsSheet | src/store/navigationStore.ts:99-106 | the settings sheet is the modal and the only open sheet, on the settings tab |
| Navigation.NavigationStore.CloseSettingsSheet | src/store/navigationStore.ts:108-114 | no modal, settings sheet closed, home tab; the progress sheet flag is untouched |
| Navigation.NavigationStore.SetActiveTab | src/store/navigationStore.ts:49-60 | the tab is set, and its sheet opens (or, for home, every modal closes); the two sheets are never open together |
| Navigation.NavigationStore.SetProgressSheetHeight | src/store/navigationStore.ts:117-119 | only the progress sheet height changes |
| Navigation.NavigationStore.SetSettingsSheetHeight | src/store/navigationStore.ts:121-123 | only the settings sheet height changes |
| Navigation.NavigationStore.SetGestureActive | src/store/navigationStore.ts:126-128 | only the gesture flag changes |
| Navigation.ClosingOtherSheetKeepsSettingsOpen | src/store/navigationStore.ts:90-96 | closing the progress sheet while the settings sheet is open leaves the settings sheet open with no modal on the home tab |
| WeekProgressView.CountCompleted | src/components/progress/WeekProgress.tsx:41 | the completed count is at most the number of days, is 0 exactly when no day is completed and is the full length exactly when every day is |
| WeekProgressView.TotalSteps | src/components/progress/WeekProgress.tsx:42 | definition: the step reduce; properties in TotalsSplit, TotalsDominateDays and TotalsNonNegative |
| WeekProgressView.TotalDistance | src/components/progress/WeekProgress.tsx:43 | definition: the distance reduce; properties in TotalsSplit, TotalsDominateDays and TotalsNonNegative |
| WeekProgressView.TotalsSplit | src/components/progress/WeekProgress.tsx:42-43 | the step and distance totals of two runs of days add up to the totals of their concatenation |
| WeekProgressView.TotalsDominateDays | src/components/progress/WeekProgress.tsx:42-43 | with non-negative readings, the week's totals are at least any single day's readings |
| WeekProgressView.TotalsNonNegative | src/components/progress/WeekProgress.tsx:42-43 | with non-negative readings, the week's totals are non-negative |
| WeekProgressView.Share | src/components/progress/WeekProgress.tsx:44 | a share of n out of a positive total lies in 0..100, is 0 exactly when n is 0 and 100 exactly when n is the total |
| WeekProgressView.CompletionRate | src/components/progress/WeekProgress.tsx:44 | the week completion rate lies in 0..100, is 0 exactly when no day is completed and 100 exactly when all are |
| WeekProgressView.DayOverall | src/components/progress/WeekProgress.tsx:113-115 | a day's capped overall progress is at most 100, non-negative for non-negative readings, and 100 exactly when both goals are met |
| WeekProgressView.WeekSummary | src/components/progress/WeekProgress.tsx:41-44 | the header figures are the completed count, the rounded completion rate (in 0..100), the step and distance totals of the days, and the date range ends on the seventh day |
| WeekProgressView.FixtureSummary | src/tests/components/progress/WeekProgress.test.tsx:32-33 | the first fixture week summarises as 4 of 7 days completed, 57 %, 66000 steps and 49.5 km |
| WeekProgressView.KeyDownClicks | src/components/progress/WeekProgress.tsx:63-68 | a key press activates the card once exactly for Enter or Space and otherwise not at all |
| ProgressMapView.KeyRequest | src/components/progress/ProgressMap.tsx:47-70 | the week requested by each key: the previous or next week when there is one, the first for Home, the last for End, nothing for other keys |
| ProgressMapView.KeyRequestInRange | src/components/progress/ProgressMap.tsx:47-70 | from a valid week every key request is a valid week, and the arrows move by exactly one |
| ProgressMapView.PrevRequest | src/components/progress/ProgressMap.tsx:208 | the previous button asks for one week back, never below week 0 |
| ProgressMapView.NextRequest | src/components/progress/ProgressMap.tsx:222 | the next button asks for one week on, never past the last week |
| ProgressMapView.ButtonsStayInRange | src/components/progress/ProgressMap.tsx:206-228 | from a valid week both buttons request a valid week |
| ProgressMapView.SwipeTracker.constructor | src/components/progress/ProgressMap.tsx:41-42 | no touch is recorded and no drag is in progress |
| ProgressMapView.SwipeTracker.TouchStart | src/components/progress/ProgressMap.tsx:73-77 | the touch position is recorded and the drag flag cleared |
| ProgressMapView.SwipeTracker.TouchMove | src/components/progress/ProgressMap.tsx:79-88 | the drag flag is set once a truthy start position is more than 10 away, and never cleared by a move |
| ProgressMapView.SwipeTracker.TouchEnd | src/components/progress/ProgressMap.tsx:90-113 | the touch state is always cleared; a week change is requested only after a drag of more than 50, to the next week on a left swipe and the previous one on a right swipe, when that week exists |
| ProgressMapView.TouchAtZeroNeverSwipes | src/components/progress/ProgressMap.tsx:79-95 | a touch that starts at x = 0 is falsy and never produces a week change |
| ProgressMapView.TotalDays | src/components/progress/ProgressMap.tsx:133 | definition: the day count over all weeks; used by GetOverallStats |
| ProgressMapView.CompletedAcross | src/components/progress/ProgressMap.tsx:134-137 | the completed count over all weeks is at most the total number of days and is 0 exactly when no day of any week is completed |
| ProgressMapView.GetOverallStats | src/components/progress/ProgressMap.tsx:130-144 | no weeks give all zeros; otherwise the totals are the day counts, the rate lies in 0..100 and is 100 exactly when every day is completed |
| StreakView.StreakIcon | src/components/progress/ProgressStreak.tsx:18-22 | target for no streak, flame below 7 days, trophy from 7 days |
| StreakView.StreakColorOf | src/components/progress/ProgressStreak.tsx:24-30 | the colour bands 0, 1-2, 3-6, 7-13 and 14 or more |
| StreakView.StreakMessageOf | src/components/progress/ProgressStreak.tsx:32-39 | the message bands 0, 1, 2-6, 7-13, 14-20 and 21 or more, the longer ones carrying the streak length |
| StreakView.BandsAgree | src/components/progress/ProgressStreak.tsx:18-39 | the icon, colour and message agree on where the 7-day trophy band and the empty streak begin |
| StreakView.BarWidth | src/components/progress/ProgressStreak.tsx:112 | the bar width is streak/7 of the full width, capped at 100 %, 0 exactly for no streak and full exactly from 7 days |
| StreakView.BarWidthMonotone | src/components/progress/ProgressStreak.tsx:112 | a longer streak never draws a shorter bar |
| StreakView.BarColorOf | src/components/progress/ProgressStreak.tsx:116-118 | orange below 3 days, red below 7, purple from 7 |
| StreakView.ReachedMilestones | src/components/progress/ProgressStreak.tsx:125-133 | one marker per milestone 3, 7, 14, 21, lit exactly when the streak reaches it |
| StreakView.ReachedMilestonesPrefix | src/components/progress/ProgressStreak.tsx:112-133 | lit markers form a prefix, and the 7-day marker is lit exactly when the bar is full |
| StreakView.ShowsBestStreak | src/components/progress/ProgressStreak.tsx:91 | definition: the best-streak block shows for a positive longest streak; property in BestStreakShownOnStreak |
| StreakView.BestStreakShownOnStreak | src/components/progress/ProgressStreak.tsx:91 | fed by the progress store, the best-streak block is shown whenever the current streak is positive |
| DayCellView.DayStateOf | src/components/progress/DayCell.tsx:13-20 | completed wins; otherwise today is current, a later day locked and an earlier day available |
| DayCellView.LockedOnlyInFuture | src/components/progress/DayCell.tsx:13-20 | a locked day is in the future and not completed; today and past days are never locked |
| DayCellView.IsInteractive | src/components/progress/DayCell.tsx:75 | definition: not locked and a handler given; characterised in Press |
| DayCellView.ShowsRing | src/components/progress/DayCell.tsx:117 | definition: the ring is drawn unless the day is locked or its progress is 0; related to the badge in BadgeImpliesRing |
| DayCellView.ShowsBadge | src/components/progress/DayCell.tsx:211 | definition: the badge needs a positive progress on an unlocked day; property in BadgeImpliesRing |
| DayCellView.Press | src/components/progress/DayCell.tsx:75-182 | the handler receives the day exactly when the cell is interactive: not locked and a handler given |
| DayCellView.BadgeImpliesRing | src/components/progress/DayCell.tsx:116-211 | the percentage badge is only drawn together with the progress ring, and for non-negative progress the two coincide |
| WeeklyMapView.Celebrates | src/components/progress/WeeklyProgressMap.tsx:37-39 | definition: a rise to a positive multiple of 7 or to 3; characterised in CelebratedValues |
| WeeklyMapView.CelebratedValues | src/components/progress/WeeklyProgressMap.tsx:37-48 | within a streak of at most 31 days only 3, 7, 14, 21 and 28 are celebrated, and each of them is whenever the streak rises to it |
| WeeklyMapView.CelebrationTracker.constructor | src/components/progress/WeeklyProgressMap.tsx:30-34 | no celebration shown, of the streak kind, and the starting streak remembered |
| WeeklyMapView.CelebrationTracker.OnStreakChange | src/components/progress/WeeklyProgressMap.tsx:37-48 | a celebrated rise shows a streak celebration carrying the new streak; any other change leaves the celebration as it was; the streak seen is always remembered |
| WeeklyMapView.CelebrationTracker.HandleCelebrationComplete | src/components/progress/WeeklyProgressMap.tsx:58-60 | the celebration is hidden and keeps its kind and value |
| WeeklyMapView.SameStreakTwice | src/components/progress/WeeklyProgressMap.tsx:37-48 | seeing the same streak again leaves the celebration unchanged |
| WeeklyMapView.ForwardPress | src/components/progress/WeeklyProgressMap.tsx:54-56 | the outer handler receives the pressed day exactly when the cell is not locked and the outer handler exists |
| PetColors.HexValue | src/components/3d/models/pets/BallPet.tsx:10-12 | a hex digit of either case has a value below 16; other characters have none |
| PetColors.LowerHexDigit | src/components/3d/models/pets/BallPet.tsx:14 | the lowercase digit written for a value below 16 reads back as that value |
| PetColors.ParseHexPair | src/components/3d/models/pets/BallPet.tsx:10-12 | a two-character component parses to a value below 256, and two hex digits parse to 16 times the first plus the second; it gives no value (NaN) exactly for an empty pair, a pair whose first character is not a hex digit, or a bare `0x`/`0X` prefix |
| PetColors.ToHex2 | src/components/3d/models/pets/BallPet.tsx:14 | a component is written as exactly two lowercase hex digits |
| PetColors.HexRoundTrip | src/components/3d/models/pets/BallPet.tsx:10-14 | writing a component and parsing it back gives the component |
| PetColors.RemoveFirstHash | src/components/3d/models/pets/BallPet.tsx:9 | a string without a hash is unchanged, a leading hash is dropped, and exactly one character goes when there is a hash |
| PetColors.Substring | src/components/3d/models/pets/BallPet.tsx:10-12 | the substring is at most as long as the range and is the slice when the range lies inside the string |
| PetColors.Mix | src/components/3d/models/pets/BallPet.tsx:13 | a mixed component never gets darker and never exceeds 255 |
| PetColors.Pastel | src/components/3d/models/pets/BallPet.tsx:8-16 | a pastel, when every component parses, is a hash followed by six lowercase hex digits |
| PetColors.PastelOfHexColor | src/components/3d/models/pets/BallPet.tsx:8-16 | every #RRGGBB colour has a pastel, which is again #RRGGBB, each component being the mixed input component and never darker |
| PetColors.ParsesComponents | src/components/3d/models/pets/BallPet.tsx:9-12 | the three pairs cut out of a #RRGGBB colour after removing the hash parse to its red, green and blue components |
| PetColors.ComponentsOfWritten | src/components/3d/models/pets/BallPet.tsx:14-15 | a colour written from three components is a #RRGGBB colour whose components are those three |
| PetColors.MixEnds | src/components/3d/models/pets/CuteAvatarPet.tsx:42 | white stays white under both mixes; black becomes 64 under the quarter mix and 102 under the two-fifths mix |
| PetColors.TwoFifthsNeverTies | src/components/3d/models/pets/CuteAvatarPet.tsx:42 | the two-fifths mix never lands on a half, so the rounding has no tie to break |
| PetColors.HexPrefixComponentHasNoPastel | src/components/3d/models/pets/BluePet.tsx:12-14 | a component cut as `0x` does not parse, so `#0x0000` has no pastel, where the source writes NaN |
| PetColors.DefaultQuarterPastel | src/components/3d/models/pets/BallPet.tsx:8-17 | the default body colour #7CC6FF gives the quarter pastel #9dd4ff |
| PetSmile.Advance | src/components/3d/models/pets/BallPet.tsx:34-48 | an idle smile is untouched; a running smile advances its clock by the frame time and ends, with the clock back at 0, once it reaches the duration |
| PetSmile.AdvanceKeepsConsistent | src/components/3d/models/pets/BallPet.tsx:34-48 | a started smile is consistent and every frame keeps it so: running within its duration, idle at clock 0 |
| PetSmile.SmileEnds | src/components/3d/models/pets/BallPet.tsx:34-48 | a running smile whose frames add up to the remaining duration has ended after them |
| PetSmile.IdleStaysIdle | src/components/3d/models/pets/BallPet.tsx:34-48 | frames never start a smile |
| BallPet.BallPastel | src/components/3d/models/pets/BallPet.tsx:8-9 | the ball's pastel uses the default colour for an empty colour and the quarter mix |
| BallPet.Recent | src/components/3d/models/pets/BallPet.tsx:56 | the kept taps are exactly the taps at most 2000 ms old |
| BallPet.IsBurst | src/components/3d/models/pets/BallPet.tsx:57-60 | definition: ten kept taps, the tenth-last within 1.2 s; properties in NineQuickTapsThenBurst and FewTapsNoBurst |
| BallPet.BallPetState.constructor | src/components/3d/models/pets/BallPet.tsx:23-25 | no taps recorded, no smile, no tap reported |
| BallPet.BallPetState.HandleTap | src/components/3d/models/pets/BallPet.tsx:50-66 | the tap is reported; taps older than 2 s are dropped; ten kept taps within 1.2 s start the smile and clear the taps, otherwise the smile is left alone |
| BallPet.BallPetState.OnFrame | src/components/3d/models/pets/BallPet.tsx:34-48 | the smile advances by one frame with the one-second duration; taps are untouched |
| BallPet.NineQuickTapsThenBurst | src/components/3d/models/pets/BallPet.tsx:56-65 | nine recent taps, the first within 1.2 s, and one more tap make a burst |
| BallPet.FewTapsNoBurst | src/components/3d/models/pets/BallPet.tsx:57 | fewer than ten taps in all never make a burst |
| BallPet.RecentKeepsAll | src/components/3d/models/pets/BallPet.tsx:56 | taps that are all recent are kept unchanged |
| BluePet.BluePastel | src/components/3d/models/pets/BluePet.tsx:9-19 | the blue pet's own pastel has no fallback, so an empty colour does not parse |
| BluePet.BlueBodyColor | src/components/3d/models/pets/BluePet.tsx:20-22 | the body colour with the caller's fallback equals the ball pet's, #9dd4ff for no colour |
| BluePet.BodyColorExists | src/components/3d/models/pets/BluePet.tsx:20-22 | for no colour or a #RRGGBB colour the body colour exists and is #RRGGBB |
| BluePet.BluePetState.constructor | src/components/3d/models/pets/BluePet.tsx:34-35 | no smile and no tap reported |
| BluePet.BluePetState.PointerDown | src/components/3d/models/pets/BluePet.tsx:61 | the tap is reported and a smile starts from clock 0 |
| BluePet.BluePetState.OnFrame | src/components/3d/models/pets/BluePet.tsx:38-55 | the smile advances by one frame with the 0.9-second duration |
| FirePet.FirePastel | src/components/3d/models/pets/FirePet.tsx:9-17 | the fire pet's pastel is the blue pet's, with no fallback of its own |
| FirePet.FireBodyColor | src/components/3d/models/pets/FirePet.tsx:18-20 | the body colour is the blue pet's, #9dd4ff for no colour |
| FirePet.FirePetState.constructor | src/components/3d/models/pets/FirePet.tsx:34-35 | no smile and no tap reported |
| FirePet.FirePetState.PointerDown | src/components/3d/models/pets/FirePet.tsx:59 | the tap is reported and a smile starts from clock 0 |
| FirePet.FirePetState.OnFrame | src/components/3d/models/pets/FirePet.tsx:38-53 | the smile advances by one frame with the 0.9-second duration |
| CuteAvatarPet.CutePastel | src/components/3d/models/pets/CuteAvatarPet.tsx:37-45 | the avatar's pastel uses the default colour for an empty colour and the two-fifths mix |
| CuteAvatarPet.MouthPose | src/components/3d/models/pets/CuteAvatarPet.tsx:251-272 | only the sad mouth is turned over; the happy mouth is widened and the sleepy one narrowed |
| CuteAvatarPet.MouthPoseDistinct | src/components/3d/models/pets/CuteAvatarPet.tsx:251-272 | two moods give the same mouth pose exactly when they are the same mood |
| CuteAvatarPet.CuteAvatarState.constructor | src/components/3d/models/pets/CuteAvatarPet.tsx:26-31 | no pirouette start, not smiling, no tap reported |
| CuteAvatarPet.CuteAvatarState.PirouetteEffect | src/components/3d/models/pets/CuteAvatarPet.tsx:57-64 | a requested pirouette without a truthy start gets the current time, a running one keeps its start, and no request clears it |
| CuteAvatarPet.CuteAvatarState.MoodEffect | src/components/3d/models/pets/CuteAvatarPet.tsx:80-82 | the avatar smiles when happy or already smiling |
| CuteAvatarPet.CuteAvatarState.HandleTap | src/components/3d/models/pets/CuteAvatarPet.tsx:283-300 | the tap is reported and the avatar smiles |
| CuteAvatarPet.CuteAvatarState.EndSmile | src/components/3d/models/pets/CuteAvatarPet.tsx:299 | the smile's timeout stops the smile and nothing else |
| CuteAvatarPet.CuteAvatarState.PirouetteFrame | src/components/3d/models/pets/CuteAvatarPet.tsx:123-144 | once 1500 ms have passed since a truthy start the frame loop clears it; otherwise the start stays, and nothing else changes |
| CuteAvatarPet.FinishedPirouetteRestarts | src/components/3d/models/pets/CuteAvatarPet.tsx:57-64 | a finished pirouette whose request is still on gets a new start at the current time |
| CuteAvatarPet.EffectSettles | src/components/3d/models/pets/CuteAvatarPet.tsx:57-64 | re-running the effect at a later time keeps the first start time; without a request the start is cleared |
| ArAssets.KindName | src/services/arAssets.ts:16-24 | every avatar kind has a non-empty table name other than default |
| ArAssets.MappedKind | src/services/arAssets.ts:28 | a kind the table knows maps to itself and anything else, default included, to pet |
| ArAssets.RawKind | src/services/arAssets.ts:27 | the pet's kind name, or default without a pet or a kind |
| ArAssets.GetArAssetForPet | src/services/arAssets.ts:26-37 | the paths are /ar/<mapped kind>.usdz and .glb, and the title is the pet's non-empty name or ActiveGotchi |
| ArAssets.AssetPerKind | src/services/arAssets.ts:26-37 | each kind gets its own model, and no pet or no kind gets /ar/pet.usdz and /ar/pet.glb |
| ArAssets.SceneTitle | src/services/arAssets.ts:42 | the title is never empty and is the given title when that is non-empty |
| ArAssets.SceneViewerUrl | src/services/arAssets.ts:39-46 | the link is the Scene Viewer prefix, the encoded file, the ar_preferred mode, the encoded title and the intent suffix, and the file and title are found again at their offsets |
| AvatarCanvas.HashSeed | src/components/avatar/GeneratedAvatarCanvas.tsx:23-30 | the loop's hash is the FNV-1a fold of the seed's code units, the offset basis for an empty seed |
| AvatarCanvas.Fnv | src/components/avatar/GeneratedAvatarCanvas.tsx:23-30 | definition: the FNV-1a fold; the loop is tied to it in HashSeed |
| AvatarCanvas.FnvAppend | src/components/avatar/GeneratedAvatarCanvas.tsx:25-28 | hashing one more code unit continues from the shorter seed's hash |
| AvatarCanvas.Temper | src/components/avatar/GeneratedAvatarCanvas.tsx:17-19 | definition: the imul/xorshift tempering; used by Output and Mulberry32.Next |
| AvatarCanvas.Output | src/components/avatar/GeneratedAvatarCanvas.tsx:19 | each number drawn lies in [0, 1) |
| AvatarCanvas.Draws | src/components/avatar/GeneratedAvatarCanvas.tsx:14-21 | n calls give n numbers, each in [0, 1) |
| AvatarCanvas.Mulberry32.constructor | src/components/avatar/GeneratedAvatarCanvas.tsx:14 | the captured state is the seed |
| AvatarCanvas.Mulberry32.Next | src/components/avatar/GeneratedAvatarCanvas.tsx:15-20 | a call adds the increment 0x6D2B79F5 to the state and returns the tempered state over 2^32, in [0, 1) |
| AvatarCanvas.SeededDraws | src/components/avatar/GeneratedAvatarCanvas.tsx:211 | the numbers the avatar draws from a seed are a function of the seed alone |
| AvatarCanvas.Zoom | src/components/avatar/GeneratedAvatarCanvas.tsx:243 | the zoom stays within 0.6..3 and is the product scale times factor when that lies inside the range |
| AvatarCanvas.Viewport.constructor | src/components/avatar/GeneratedAvatarCanvas.tsx:201-204 | scale 1, no offset, not dragging |
| AvatarCanvas.Viewport.OnWheel | src/components/avatar/GeneratedAvatarCanvas.tsx:239-244 | for the positive factor `Math.exp` gives, the scale becomes the clamped product and stays in range; the offset and drag are untouched |
| AvatarCanvas.Viewport.OnDown | src/components/avatar/GeneratedAvatarCanvas.tsx:245 | dragging starts at the pressed point; scale and offset are untouched |
| AvatarCanvas.Viewport.OnMove | src/components/avatar/GeneratedAvatarCanvas.tsx:246-252 | while dragging the offset moves by the mouse's movement and the last point is updated; otherwise nothing changes |
| AvatarCanvas.Viewport.OnUp | src/components/avatar/GeneratedAvatarCanvas.tsx:253 | dragging stops; scale and offset are untouched |
| AvatarCanvas.Drag | src/components/avatar/GeneratedAvatarCanvas.tsx:245-252 | a press followed by moves shifts the offset by exactly the distance from the press to the last point |
| Achievements.Catalog | src/services/achievementService.ts:16-167 | thirteen achievements with the catalog's ids, all locked, never unlocked before, at 0 % progress and with positive thresholds |
| Achievements.CatalogIdsDistinct | src/services/achievementService.ts:16-167 | no two catalog achievements share an id |
| Achievements.ApplyUpdate | src/services/achievementService.ts:204 | every field given in the update overrides the stored one and every absent field keeps it, so an empty update changes nothing |
| Achievements.Written | src/services/achievementService.ts:207 | definition: the JSON object written for the stats; round trip in StatsRoundTrip |
| Achievements.StatsFrom | src/services/achievementService.ts:192-200 | without stored stats the defaults are used |
| Achievements.StatsRoundTrip | src/services/achievementService.ts:192-207 | stats written to storage read back as the same stats |
| Achievements.PetTapUpdate | src/services/achievementService.ts:213-216 | the pet tap update raises the tap count by one and changes nothing else |
| Achievements.PirouetteUpdate | src/services/achievementService.ts:218-221 | the pirouette update raises the pirouette count by one and changes nothing else |
| Achievements.NewStreak | src/services/achievementService.ts:228-240 | a goal day right after the last active day extends the streak, a goal day after a gap restarts it at 1, and a missed goal or a second report on the same day keeps it |
| Achievements.DailyUpdate | src/services/achievementService.ts:242-253 | definition: the partial update the daily report builds; its effect is in DailyProgressStats |
| Achievements.DailyStats | src/services/achievementService.ts:223-256 | definition: the stats after the daily report; characterised in DailyProgressStats, SameDayTwice and MaxStreakDominates |
| Achievements.DailyProgressStats | src/services/achievementService.ts:223-256 | the daily report keeps the larger step and distance readings, applies the new streak, raises the best streak to it, marks today active, counts a new active day only once and counts a reached goal |
| Achievements.SameDayTwice | src/services/achievementService.ts:223-256 | a second report on the same day leaves the streak, the active-day count and the step total alone but counts a reached goal again |
| Achievements.MaxStreakDominates | src/services/achievementService.ts:246 | the best streak never falls and is at least the current streak |
| Achievements.ConsecutiveDaysBuildStreak | src/services/achievementService.ts:228-253 | goal days reported on consecutive days after a gap build a streak equal to their number, each an active day and a goal achievement |
| Achievements.ContinuedStreak | src/services/achievementService.ts:228-253 | goal days reported on consecutive days right after the last active day extend the streak by their number |
| Achievements.StoredAll | src/services/achievementService.ts:369 | storing a list stores one record per achievement, in order |
| Achievements.FindIndex | src/services/achievementService.ts:358 | the index found is the first achievement with the stored id, and none is found exactly when no achievement has it |
| Achievements.MergeOne | src/services/achievementService.ts:357-362 | overlaying one stored record keeps the length of the list |
| Achievements.Merge | src/services/achievementService.ts:352-365 | the merged list has exactly the catalog's length |
| Achievements.OverlayMatchingKeepsId | src/services/achievementService.ts:360 | the id of an achievement survives every overlay |
| Achievements.MergeIsPerIdOverlay | src/services/achievementService.ts:352-365 | with distinct ids, each merged achievement is its default overlaid by exactly the stored records with its id, in order |
| Achievements.MergeKeepsIds | src/services/achievementService.ts:352-365 | merging never changes which achievement sits at which position |
| Achievements.UnknownIdsDropped | src/services/achievementService.ts:358-361 | a stored record whose id is not in the catalog has no effect |
| Achievements.MergeKeepsPositiveThresholds | src/services/achievementService.ts:352-365 | merging records with positive thresholds keeps every threshold positive |
| Achievements.FindDistinct | src/services/achievementService.ts:358 | with distinct ids, looking up an achievement's own id finds its position |
| Achievements.Overlay | src/services/achievementService.ts:360-363 | definition: `{ ...merged[index], ...storedAchievement }`; properties in OverlayMatchingKeepsId and OverlayStored |
| Achievements.OverlayStored | src/services/achievementService.ts:360-369 | overlaying a default with an achievement's stored record gives that achievement back |
| Achievements.MergeStoredRoundTrip | src/services/achievementService.ts:352-369 | merging the stored records of the first k achievements of a list aligned with the defaults gives those k achievements followed by the remaining defaults |
| Achievements.MergeStep | src/services/achievementService.ts:357-362 | one more stored record extends the restored prefix by one achievement |
| Achievements.AchievementsFrom | src/services/achievementService.ts:180-190 | without stored achievements the catalog is returned, and the result always has the catalog's thirteen entries |
| Achievements.ReadBackSaved | src/services/achievementService.ts:180-190 | a saved list with the catalog's ids reads back unchanged |
| Achievements.StatOf | src/services/achievementService.ts:284-312 | definition: the statistic each non-daily condition reads; used by CalculateProgress and EvaluateStats |
| Achievements.CalculateProgress | src/services/achievementService.ts:284-316 | progress is at most 100, 0 for a daily condition, 100 exactly when the total condition's statistic reaches the threshold |
| Achievements.ProgressIsShare | src/services/achievementService.ts:284-316 | below the threshold a total condition's progress is the statistic's share of the threshold, in percent |
| Achievements.EvaluateStats | src/services/achievementService.ts:262-273 | an unlocked achievement is left alone; a locked one gets the new progress and unlocks, stamped now, exactly when its total statistic reaches the threshold; its identity is kept |
| Achievements.EvaluateDaily | src/services/achievementService.ts:322-341 | unlocked and non-daily achievements are left alone; a daily one gets the day's capped share and unlocks, stamped now, exactly when the day's reading reaches the threshold |
| Achievements.StatsPass | src/services/achievementService.ts:258-273 | the pass evaluates every achievement against the stats, keeping the list's length and its positive thresholds |
| Achievements.DailyPass | src/services/achievementService.ts:318-341 | the daily pass evaluates every achievement against the day's readings, keeping the length and positive thresholds |
| Achievements.Flipped | src/services/achievementService.ts:258-282 | the newly unlocked list holds only unlocked achievements and is no longer than the list |
| Achievements.FlippedSnoc | src/services/achievementService.ts:262-273 | visiting one more achievement appends it to the newly unlocked list exactly when it went from locked to unlocked |
| Achievements.FlippedExactly | src/services/achievementService.ts:262-273 | an achievement is newly unlocked exactly when at some position it was locked before the pass and unlocked after it |
| Achievements.UnlockedIsFinal | src/services/achievementService.ts:262-273 | an unlocked achievement is never relocked or restamped by either pass |
| Achievements.StatsPassIdempotent | src/services/achievementService.ts:258-282 | a second pass with the same stats, at any time, changes nothing and unlocks nothing |
| Achievements.NothingFlipsInPlace | src/services/achievementService.ts:262-273 | comparing a list with itself finds nothing newly unlocked |
| Achievements.StatsPassOnCatalog | src/services/achievementService.ts:16-167 | on the catalog, the daily achievements stay locked at 0 %, and first steps, the 30-day streak and the ten goal days unlock exactly at their thresholds |
| Achievements.Notify | src/services/achievementService.ts:378-384 | one unseen notification per achievement, in order, stamped now |
| Achievements.Unseen | src/services/achievementService.ts:395 | exactly the unseen notifications of the list are kept; UnseenAppend adds that their order is kept |
| Achievements.UnseenAppend | src/services/achievementService.ts:395 | the unseen notifications of two lists joined are the two lists' unseen notifications joined |
| Achievements.NotifyAllUnseen | src/services/achievementService.ts:378-399 | fresh notifications are all unseen |
| Achievements.AllUnseenKept | src/services/achievementService.ts:395 | a queue in which nothing is seen passes the unseen filter unchanged |
| Achievements.MarkAllSeen | src/services/achievementService.ts:406 | every notification is kept, in order, and marked seen |
| Achievements.MarkedHaveNoUnseen | src/services/achievementService.ts:401-410 | after marking, nothing is unseen |
| AchievementService.Service.constructor | src/services/achievementService.ts:3-7 | the three storage keys hold what they are given |
| AchievementService.Service.Achievements | src/services/achievementService.ts:180-190 | the achievements read back are always the thirteen catalog ids in order, with positive thresholds |
| AchievementService.Service.Stats | src/services/achievementService.ts:192-200 | the defaults without stored stats, otherwise the stored fields laid over the defaults; Achievements.StatsFrom and StatsRoundTrip give its properties |
| AchievementService.Service.UnseenNotifications | src/services/achievementService.ts:390-399 | without stored notifications there are none, and every one returned is unseen |
| AchievementService.Service.SaveAchievements | src/services/achievementService.ts:367-371 | the achievements key holds the stored list and the other keys are unchanged |
| AchievementService.Service.AddNotifications | src/services/achievementService.ts:373-388 | the notifications key holds the old notifications followed by one unseen notification per achievement, so the unseen list grows by exactly those |
| AchievementService.Enqueue | src/services/achievementService.ts:378-384 | the push loop leaves the existing queue followed by one unseen notification per achievement, in order |
| AchievementService.Service.CheckAchievements | src/services/achievementService.ts:258-282 | the stored list becomes the stats pass over the stored achievements, the newly unlocked ones are returned and notified exactly when there are any, and the stats are untouched |
| AchievementService.Service.Publish | src/services/achievementService.ts:277-279 | notifications are added only when something was newly unlocked |
| AchievementService.Service.CheckDailyAchievements | src/services/achievementService.ts:318-350 | the stored list becomes the daily pass, the newly unlocked ones are returned and notified exactly when there are any |
| AchievementService.Service.UpdateStats | src/services/achievementService.ts:202-211 | the stored stats become the old stats overlaid with the update: the stats pass over the previous achievements, judged on the new stats, is saved; the newly unlocked ones it returns are exactly that pass's flips and are queued after the stored notifications, which are kept as they were, seen or not |
| AchievementService.Service.TrackPetTap | src/services/achievementService.ts:213-216 | the tap count rises by one and nothing else in the stats changes: the stats pass over the previous achievements, judged on the new stats, is saved; the newly unlocked ones it returns are exactly that pass's flips and are queued after the stored notifications, which are kept as they were, seen or not |
| AchievementService.Service.TrackPirouette | src/services/achievementService.ts:218-221 | the pirouette count rises by one and nothing else in the stats changes: the stats pass over the previous achievements, judged on the new stats, is saved; the newly unlocked ones it returns are exactly that pass's flips and are queued after the stored notifications, which are kept as they were, seen or not |
| AchievementService.Service.TrackDailyProgress | src/services/achievementService.ts:223-256 | the stored stats become the daily report's stats: the stats pass over the previous achievements, judged on the new stats, is saved; the newly unlocked ones it returns are exactly that pass's flips and are queued after the stored notifications, which are kept as they were, seen or not |
| AchievementService.Service.MarkNotificationsSeen | src/services/achievementService.ts:401-410 | stored notifications are all marked seen, none are created, and nothing is unseen afterwards |
| AchievementService.StatsVisit | src/services/achievementService.ts:262-273 | one visit of the forEach gives the evaluated achievement and flags it exactly when it went from locked to unlocked |
| AchievementService.DailyVisit | src/services/achievementService.ts:322-341 | one visit of the daily forEach gives the evaluated achievement and flags it exactly when it went from locked to unlocked |
| AchievementService.RunStatsPass | src/services/achievementService.ts:259-273 | the loop yields the stats pass and exactly its newly unlocked achievements, in order |
| AchievementService.RunDailyPass | src/services/achievementService.ts:319-341 | the loop yields the daily pass and exactly its newly unlocked achievements, in order |
| AchievementService.CheckTwice | src/services/achievementService.ts:258-282 | checking the same stats twice unlocks nothing the second time |
| Common.Round | src/hooks/useProgressData.ts:26 | the rounded value lies within half a unit of the number, ties going up |
| Common.CappedPercent | src/services/healthData.ts:61-66 | the capped percentage is at most 100, non-negative for a non-negative reading, 100 exactly when the goal is reached |
| Common.CappedPercentShare | src/services/healthData.ts:61-66 | below the goal the capped percentage is exactly the reading's share of the goal |
| Common.OverallPercent | src/hooks/useProgressData.ts:21-23 | the mean of the two capped percentages is at most 100, non-negative for non-negative readings, and 100 exactly when both goals are reached |
| ProgressTypes.MondayOf | src/store/progressStore.ts:75 | the week start is a Monday on or before the date and less than a week before it |
| ProgressTypes.CompletedDays | src/hooks/useProgressData.ts:69 | the completed count is at most the number of days, 0 exactly when none is completed and the full length exactly when all are |

## Left out

- Browser storage failures: `localStorage` writes always succeed here. The `try`/`catch` paths around failed writes and unparsable JSON are not modelled, and neither is the zustand `persist` middleware beyond the fields it writes.
- The progress store's `migrate` hook for version 0 is not modelled. That hook rebuilds the history map from a stored object, and only version 1 is ever written.
- `weekNumber` in the weekly projection is not modelled. It is millisecond arithmetic on `Date` objects.
- The clock, `date-fns`, `toDateString` and time zones: dates are integer day numbers, and "now" and "today" are parameters.
- `Math.random`: every random value is a parameter, constrained to the range the source draws from: the sample history's draws (`ProgressStore.DrawsInRange`) and the tap increments. The wheel factor, which comes from `Math.exp`, is only required to be positive (`Math.exp` itself is not modelled).
- Floating point: numbers are reals, so rounding errors, `NaN` and `Infinity` are not modelled. Goals are required to be positive (`AppTypes.PositiveGoals`) wherever the source divides by them.
- AchievementService.Service.constructor: requires that every stored threshold is positive. The source divides by the stored value without checking.
- `parseInt(s, 16)` in the pet colour code: hex digits and the `0x`/`0X` prefix are modelled. Leading whitespace and signs are not.
- mulberry32 is modelled on `bv32` words, with its result as the real fraction over 2^32. The doubles JavaScript computes in between are not modelled.
- URL resolution and percent-encoding of the scene-viewer link: the encoded file and title are parameters.
- Rendering: 3D scenes, canvas drawing (`drawBlob` and the other shape painters), CSS, frame-by-frame animation (mouth scale, bounce, blink) and the excitement timers of the pets. The smile's timeout (`CuteAvatarState.EndSmile`) and the pirouette's end in the frame loop (`CuteAvatarState.PirouetteFrame`) are explicit methods; the pirouette's end takes the time as a parameter.
- The achievement service's `getInstance` singleton is not modelled: the service is one object. The health service's singleton is modelled (`HealthService.Registry`).
- The achievement emoji icons are left out.
- ProgressStore.BuildWeekData: the projection carries only the current streak. Its `totalWeeks` is the ceiling of the history size over 7.
- BallPet.Recent: states which taps are kept but not that they keep their order.
- `livesRemaining ?? 0` in `decrementLifeForDate` is not modelled: the stored pet type always has the field.
- Presentation-only components and other React contexts are not part of this model.
- Two test files expect behaviour the code does not have. `healthDataService.test.ts:21-30` expects the initial data without the sleep fields the service holds. `WeekProgress.test.tsx:413-422` expects a week of three days to render, but the header reads the seventh day. The model follows the code in both cases.
