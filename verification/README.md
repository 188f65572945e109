# FireAI: verified models of the control process and its satellites

FireAI drives a pellet grill. A control process reads probes and a clock, cycles an auger, watches for
flame-outs and lid openings, and moves between modes; other processes steer it by queueing partial documents
for its record. Around it stand a cloud bridge, a settings service, a probe tuner, a PID controller and a
simulator. This project models the parts of that system with the hardest logic and proves what they are for.

Each model has two layers. Where the source changes state step by step, a class holds the same state and its
methods run the same steps, each proved equal to a function of the old state; the properties are lemmas about
those functions, by induction over whole runs. Inputs the system does not control (temperatures, clock
readings, controller answers, queued patches, switch changes, upload failures) are arbitrary.

| file | what it models |
|---|---|
| `ControlRecord`, `WorkCycle`, `ControlLoop` | the control record, one work cycle, the scheduler, recipes and the main loop |
| `ControlProcess` | the same as a process that updates its fields in loops |
| `ControlDocuments` | the record and its patches as stored documents |
| `AugerTime`, `AugerCycling`, `PelletUsage` | auger accounting, when the auger switches, the least and the most it feeds, pellet usage |
| `CycleRelays`, `CycleLaws`, `NoticeLaws`, `ModeSchedule` | the relays during a cycle, what a pass does, what notifications ask for, which mode runs next |
| `RunLaws`, `CycleFacts`, `CycleLimits`, `FaultHandling`, `FaultLosses`, `ReigniteBudget`, `RecipeProgress`, `IdleSafety` | what every run of the control process keeps |
| `Documents` | deep merge and the write queue |
| `SettingsSchema`, `SettingsPatch`, `SettingsLaws` | redaction, sentinels, patches, their reports and their effect |
| `CloudCommands`, `CommandOutcomes`, `CookArchive`, `CookLaws` | the bridge's command protocol and its archive of cooks |
| `SteinhartHart`, `PidClamping`, `PidLaws`, `ThermalModel`, `ThermalLaws`, `Firestore` | curve fitting and its inverse, the PID, the simulator, the value encoding |
| `Wrappers` | `Option` and arithmetic helpers |

## What the code does not do

Some properties one would expect are false of the code. Each has an exact condition, proved both ways, and an input that shows the failing side.

- Turning the switch off at the head of the main loop writes the loop's own, older copy of the record back
  (control.py:1307-1315). Retries already spent come back, which breaks the reignite budget unless the stop
  that the switch asks for runs in the same pass (`ReigniteBudget.HeadBalanced`); a cold Smoke request, then the
  switch with a queued request for Smoke, is such a run (`ReigniteBudget.StaleCopyBreaksBudget`).
- A pending error is not always handled next. The switch and a units change turn it into a stop, a queued
  request replaces it, and it waits while `critical_error` is set. It is handled if and only if none of these
  is the case (`FaultHandling.PendingFaultIsHandled`, with each way it goes in `PendingFaultOutcome`).
- The fan stays on without a request when a patch withdraws the request, or when the request is for an unknown
  mode or a recipe that does not load (`IdleSafety.HeadIsSafe`, `IdleSafety.WithdrawnRequestStrandsFan`).
- A reading above the maximum temperature does not raise an error when the same pass ends the cycle by its time
  or its exit temperature (`CycleLimits.PassEndsByReading`, `CycleLimits.HotStartupIsNoError`).
- `deep_update` is not associative: merging patches with each other first can succeed where merging them in turn
  raises. The two agree if and only if the first merge is defined, one of the later ones is not either, or the
  last patch leaves a clash of the first two uncovered (`Documents.MergeAssociativeExactly`,
  `Documents.AssociativityNeedsTheFirstMerge`).
- A redacted document merges back unchanged only when no list in it holds a secret
  (`SettingsSchema.RedactedRoundTrip`, `SettingsSchema.ListSecretIsOverwritten`): sentinels inside lists are not
  stripped.
- A patch that replaces the whole `server` block by a scalar or a list passes the protected-path check and
  removes `server.auth` (`SettingsPatch.AcceptedPatchKeepsProtected`,
  `SettingsPatch.StringForServerDropsAuth`).
- A reported path may be unchanged when the patch puts an empty mapping where the document has no mapping
  (`SettingsPatch.ReportIsExactWhenFitting`, `SettingsPatch.EmptyMappingIsReported`).
- `temp_to_tr` says that it returns None where the cubic has no real solution. A real cubic always has one; the
  function gives no resistance exactly when k or c is zero or b and c have opposite signs, and in part of
  that range it raises `TypeError` on a complex number instead (`SteinhartHart.InverseOutcome`,
  `SteinhartHart.InverseCanRaise`).
- A cook's id is the second its start-up began (bridge/sync.py:176-178), so two cooks can share one. The chunks
  of the earlier then pass for rows of the later: starting a cook keeps the archive right if and only if no
  chunk is stored under its id (`CookArchive.StartRefines`, `CookArchive.SecondCookClashes`).
- A bridge that restarts in mid-cook loses its tracker, and with it the samples not stored: the archive stays right
  if and only if the buffer is stored as it is (`CookArchive.RestartRefines`, `CookArchive.UnstoredSampleIsLost`). The next snapshot then reopens the
  cook under its old id, at chunk 0, which `StartRefines` covers.
- `set_gains` does not reset the integral, so the anti-windup bound survives it exactly when the integral gain
  does not grow (`PidClamping.GainChangeKeepsBound`, `PidClamping.GainEscape`).

## Model

| member | source | states |
|---|---|---|
| `ControlProcess.Process.DrainQueue` | common/common.py:949-968 | the queue is applied first in, first out, to the whole record |
| `ControlProcess.Process.CheckNotify` | notify/notifications.py:69-150 | every notification item acts on the record the one before it left |
| `CycleRelays.RelaysThroughCycle` | control.py:410-446 | at every moment of a cycle without manual changes the auger runs only under power in a feeding mode, the igniter is on throughout start-ups and in no other mode but a prime that asks for it, and the fan moves only in cooking modes |
| `CycleLaws.OpensAs` | control.py:410-603 | how a cycle opens: running unless its mode cooks after a start-up that ended cold or its controller does not load, with auger, fan, ratio and timers as its mode wants them |
| `CycleLaws.LidIsFollowed` | control.py:898-930 | a Hold pass stops auger and fan on a drop below the threshold after the target, ends the pause when its time is over and then starts the fan, follows the manual toggle both ways, and else leaves them alone |
| `CycleLaws.SmokeKnowsNoLid` | control.py:898-930 | a Smoke pass leaves a lid toggle pending, and only the fan control moves its fan |
| `CycleLaws.FanIsOffUnderOpenLid` | control.py:898-1040 | at every moment of every Hold cycle without manual changes the fan is off while the lid counts as open |
| `CycleLaws.ManualChangeIsMade` | control.py:682-737 | a pass sets the relay a manual change names and no other, and clears the change |
| `CycleLaws.OverrideHoldsAuger` | control.py:682-790 | in a feeding mode the auger stays as the user set it for the override time, and then follows its cycle again |
| `CycleLaws.PassEndsAs` | control.py:608-1105 | each exit of a pass occurs in exactly the stated case: request, switch, flame-out, error, or the mode's time, exit temperature or recipe step |
| `CycleLaws.StartUpHandsOver` | control.py:494-523 | a start-up hands over power and air with auger and igniter off, and the Smoke or Hold cycle after it opens as flamed out or failed exactly when its last reading was below nine tenths of its first, within the limits |
| `CycleLaws.StartUpRecordsReading` | control.py:1125-1127 | a start-up that is over leaves its last reading in the record, whatever the queue held meanwhile |
| `CycleLaws.CookHandsOver` | control.py:1114-1123 | a Smoke or Hold cycle hands over power, and the fan as it left it |
| `ControlProcess.Process.OpenCycle` | control.py:410-603 | a cycle opens in the state of the specification, the books untouched |
| `ControlProcess.Process.CycleAuger` | control.py:761-790 | the auger switches on or off once its off or on time is up, judged by its state before manual changes, and an on interval is booked when it closes |
| `ControlProcess.Process.WatchLid` | control.py:898-930 | detection, expiry and the manual toggle of lid events, in order, on the auger, the fan and the timers |
| `ControlProcess.Process.ReadSensors` | control.py:803-1105 | a flame-out comes before the lid, the fan and the other exits |
| `ControlProcess.Process.RunPass` | control.py:608-1107 | one pass of the loop refines the specification's pass |
| `ControlProcess.Process.WorkCycle` | control.py:338-1147 | the loop over any number of passes refines the specification's cycle |
| `ControlProcess.Process.ScheduleNext` | control.py:1149-1158 | the drain comes first, and the next mode, its set point and its flag are written only when it leaves no request pending |
| `ModeSchedule.FinishedModeIsFollowed` | control.py:1465-1547 | when the cycle of an accepted request is over and no request came in, the record asks for the mode that follows: the one set for after start-up, the one whose flame went out with its set point, or the one the record named; nothing else of it changes |
| `ModeSchedule.PrimedStartup` | control.py:1475-1502 | a start-up that primes first goes on to its own cycle and the mode after it, unless the record then asks for another mode |
| `ModeSchedule.RequestIsServed` | control.py:1385-1547 | a pass begins with exactly what its request asks for: the handler, the mode's cycle, priming, or the recipe's step; a units change makes it a stop, and without a request nothing moves |
| `ModeSchedule.WaitingRequestIsServed` | control.py:1306-1547 | an undisturbed pass begins the cycle that the record it was left with asks for |
| `ModeSchedule.NextModeBegins` | control.py:1306-1547 | two passes on, the mode that follows has begun, at its set point |
| `ModeSchedule.FlameOutResumes` | control.py:1536-1547 | after a flame-out in Hold the reignite runs, and Hold begins again at the set point it had |
| `ModeSchedule.FinishedRecipeStops` | control.py:1240-1251 | a recipe that came to its end, or that no request cut short, asks for a stop; otherwise the request stays |
| `ModeSchedule.StopClears` | control.py:1406-1462 | a stop leaves every relay off and the record at its defaults, asking for nothing |
| `ModeSchedule.ErrorIsHandled` | control.py:1406-1462 | an undisturbed pass handles a waiting error: relays off but for power in Monitor's status, the record at its defaults, inactive, in error mode |
| `ModeSchedule.MonitorErrorKeepsPower` | control.py:1436-1439 | an error raised in Monitor mode is handled with the power left on |
| `ModeSchedule.ErrorCutsPower` | control.py:1436-1439 | an error in any followed mode cuts the power, unless the record had the status of Monitor mode |
| `ControlProcess.Process.RunRecipeStep` | control.py:1202-1238 | a step is left by interruption, cancellation, a rerun after a reignite, or completion |
| `ControlProcess.Process.FollowRecipe` | control.py:1201-1238 | the recipe loop refines the specification's walk over the steps |
| `ControlProcess.Process.RunRecipe` | control.py:1160-1252 | a recipe that nothing interrupted ends in a stop request; one that was keeps the request |
| `ControlProcess.Process.StartUp` | control.py:1475-1502 | a start-up after priming runs only if priming was not redirected |
| `ControlProcess.Process.RunMode` | control.py:1406-1547 | the dispatch of every mode, with the copy of the record the main loop is left with |
| `ControlProcess.Process.ReadRecord` | control.py:1307-1344 | switch, queue and notifications act in this order at the head of the loop |
| `ControlProcess.Process.HeadPass` | control.py:1306-1547 | one pass of the main loop refines the specification's |
| `ControlProcess.Process.MainLoop` | control.py:1306-1552 | every run refines the specification's run, loses no error, idles with auger and igniter off, and books all usage |
| `ControlRecord.NotifiedKeeps` | notify/notifications.py:132-148 | notifications never touch retries, start-up temperature or an error, never withdraw a request, and ask for a reignite only when told to |
| `NoticeLaws.NoticesAreObeyed` | notify/notifications.py:69-150 | where a whole check ends: a shutdown wins over a reignite and that over keeping warm, the last keep-warm sets the set point, a recipe hears of its trigger alone, and nothing else changes |
| `ControlDocuments.MergeRepresents` | common/common.py:2451-2457 | deep-merging a queued document into the stored record is applying its patch to the record the control process sees, whatever else both documents hold |
| `ControlDocuments.DrainRepresents` | common/common.py:949-968 | however the drain ends, the stored document represents the record with the patches before the first clash applied |
| `ControlDocuments.RepresentsOneRecord` | common/common.py:559-641 | a stored document represents one record only |
| `ControlDocuments.DefaultIsRepresented` | common/common.py:559-641 | the default document, with its integer temperatures, represents the default record |
| `ControlDocuments.HoldRequestQueues` | core/commands.py:224-229 | a hold request with a whole number is a queued patch of mode, set point and flag |
| `AugerTime.WatchingChangesNothing` | control.py:608-1107 | the observer of the auger relay does not influence the cycle |
| `AugerTime.AugerTimeIsAccounted` | control.py:782-790 | over any passes without manual changes, the reported time is the total of the intervals cycle events closed, and true on time exceeds it by exactly the cut intervals and the open one |
| `AugerTime.OpeningIsAccounted` | control.py:445-447 | the account balances when a cycle opens |
| `AugerTime.HoldAugerStep` | control.py:739-790 | in Hold the relay goes on only after the least off time and stays on only within the longest on time |
| `AugerTime.PassDutiful` | control.py:739-790 | every pass within the gap keeps the credit of off time over on time |
| `AugerTime.AugerDutyBound` | control.py:739-790 | C(1-uMax)A <= (C uMax + gap)(T - A + C(1-uMax)) for every Hold cycle, whatever the controller, the probe and the lid do |
| `AugerCycling.RatioFollowsController` | control.py:741-760 | in Hold, once an auger cycle has gone by and never before, the ratio is the controller's answer within the limits, the nearer limit outside them, and the least while the lid is open |
| `AugerCycling.AugerFollowsCycle` | control.py:761-790 | after the cycle events of a pass the relay is on if and only if it was off with its off time over, or on with its on time not over |
| `AugerCycling.FixedCycle` | control.py:449-490 | at every pass of a start-up, a Smoke cycle or a prime, the relay goes on exactly when the off time it opened with is over, and off exactly when the on time is |
| `AugerCycling.LeastFeed` | control.py:739-790 | C uMin (T - A) <= (C(1-uMin) + gap) A for every paced Hold cycle without lid events or manual changes, whatever the controller answers |
| `PelletUsage.UsageIsBooked` | control.py:1131-1134 | over every run usage grows by the auger rate times the auger time all cycles reported, each once |
| `PelletUsage.CycleBooksClosedIntervals` | control.py:782-790 | one cycle books its true on time less what a lid event or its exit cut short |
| `PelletUsage.IdleModesBookNothing` | control.py:739-790 | a mode that does not feed books nothing |
| `CycleFacts.LoopHonest` | control.py:608-1107 | a cycle that ends in a flame-out or an error left that request in the record, and retries fall by one per reignite, never below zero |
| `CycleLimits.PassEndsByReading` | control.py:875-1088 | a pass flames out exactly when cold with a retry left, and raises an error exactly when cold with none or too hot with neither a flame-out nor its own end due |
| `CycleLimits.HotStartupIsNoError` | control.py:1048-1088 | a start-up that overshoots both its exit temperature and the maximum ends as finished |
| `CycleLimits.RunningIsWithinLimits` | control.py:608-1107 | a cycle still running last read at most the maximum and, in Smoke and Hold, at least the start-up temperature, with its time not up |
| `CycleLimits.StartupTempInLimits` | control.py:498-500 | for any reading and limits the start-up temperature lies between the cut limits and rises with the reading, and within the limits it is nine tenths of the reading, cut |
| `FaultHandling.RunCycleOrderly` | control.py:338-1147 | no cycle, of any mode, ends with an error that the record does not show |
| `FaultHandling.NextModeOrderly` | control.py:1149-1158 | the scheduler does not overwrite a pending error |
| `FaultHandling.RecipeModeOrderly` | control.py:1201-1251 | neither a recipe nor its clean-up overwrites a pending error |
| `FaultHandling.FaultsAreNotLost` | control.py:1306-1552 | in every run, an error raised in any work cycle is followed at once by its handling, or by the request that replaced it |
| `FaultLosses.RedirectionsAreLosses` | control.py:1306-1552 | over every run, the redirections on record are exactly the pending errors that the switch, a drained queue or a units change took away |
| `FaultLosses.FaultsAreHandled` | control.py:1306-1552 | a run redirects nothing if and only if it takes no pending error away, and then whatever follows an error is its handling |
| `FaultHandling.RedirectionIsExplicit` | common/common.py:949-968 | a drain replaces a pending error only by a patch that names the mode or its flag |
| `FaultHandling.PendingFaultIsHandled` | control.py:1307-1462 | the next pass handles a pending error if and only if the switch stays on, the queue leaves it pending, and neither the critical flag nor a units change is up; then relays are off, retries restored, and the error mode kept |
| `FaultHandling.PendingFaultOutcome` | control.py:1307-1462 | for a queue that leaves the orders alone, every way a pass can go with a pending error: stopped by the switch, waiting, stopped by a units change, or handled |
| `RunLaws.DispatchKeeps` | control.py:1465-1547 | a property kept by cycles, drains and the dispatcher's writes is kept by every dispatched mode, recipes and priming included |
| `ReigniteBudget.RunCycleBalanced` | control.py:875-895 | a cycle of any mode keeps the total of granted reignites and retries left |
| `ReigniteBudget.DispatchBalanced` | control.py:1406-1547 | every dispatched mode keeps that total, and the Stop/Error handler sets it to the configured number |
| `ReigniteBudget.HeadControlBalanced` | control.py:1307-1344 | the head of the loop changes the total by exactly the retries that the older copy writes back |
| `ReigniteBudget.HeadBalanced` | control.py:1306-1547 | a pass of the main loop keeps the budget if and only if the copy written back was current or the handler runs at once |
| `ReigniteBudget.ColdSmokeLeavesStaleCopy` | control.py:506-523 | a Smoke request that opens cold leaves the main loop's copy one retry ahead of the record |
| `ReigniteBudget.StaleCopyBreaksBudget` | control.py:1307-1315 | a two-pass run that leaves one retry too many |
| `ReigniteBudget.SwitchStops` | control.py:1307-1315 | the switch leads to the handler in the same pass unless a patch names the mode or the flags |
| `ReigniteBudget.ReigniteBudgetHolds` | control.py:875-895 | over every undisturbed run, reignites granted since the last pass through the handler plus retries left are the configured number, and never negative |
| `ReigniteBudget.FlameOutSpendsOrFails` | control.py:875-895 | a cooking pass flames out exactly when it reads below the start-up temperature; it spends one retry, or with none left raises the error |
| `RecipeProgress.RunStepFuel` | control.py:1202-1238 | a rerun takes two units of the measure, and is always preceded by a reignite cycle |
| `RecipeProgress.RecipeProgressBound` | control.py:1200-1238 | a recipe of n steps with R retries runs at most (n - start_step) + 2R work cycles, if only flame-outs ask for reignites |
| `RecipeProgress.LegsAreCycles` | control.py:1201-1238 | the work cycles a recipe begins are its legs, in order, each step in its own mode and each rerun after a Reignite |
| `RecipeProgress.StepRunsAtItsTemperature` | control.py:1202-1216 | a step's cycle opens at the step's own temperature, trigger and request cleared, its pause as the recipe has it; the step leaves what the cycle and the queue leave |
| `RecipeProgress.RelightRunsInRecipe` | control.py:1218-1232 | a reignite inside a recipe follows a reignite request alone, runs in Recipe mode with it cleared, and cancels the recipe exactly when another mode is asked for |
| `RecipeProgress.LegsInOrder` | control.py:1220-1238 | a recipe always runs the step that is due, and a reignite makes the same step due again |
| `RecipeProgress.FlameOutIsRelit` | control.py:1215-1238 | a step whose flame went out is followed by a reignite and not done, one that raised an error cancels the recipe, and a step done had neither |
| `RecipeProgress.NoStepIsSkipped` | control.py:1220-1238 | every step a recipe got past ran to its end without a reignite after it |
| `IdleSafety.RunCycleCold` | control.py:1114-1124 | a finished cycle leaves auger and igniter off, and in four modes fan and power |
| `IdleSafety.HeadIsSafe` | control.py:1306-1547 | a pass of the main loop leaves the fan on without a request if and only if it was on and the pass strands it |
| `IdleSafety.DispatchVentilated` | control.py:1465-1547 | a dispatched mode leaves the fan on only with a request waiting |
| `IdleSafety.WithdrawnRequestStrandsFan` | control.py:1331-1385 | one patch that withdraws a request leaves the fan of a cycle on |
| `IdleSafety.IdleIsCold` | control.py:1306-1552 | at every head of every run auger and igniter are off |
| `IdleSafety.IdleIsSafe` | control.py:1306-1552 | in every run whose requests are answerable the fan is off too whenever no request waits |
| `Documents.DeepUpdate` | common/common.py:2451-2457 | the key-by-key update, in any order of keys, is the merge, and fails exactly where the merge is undefined |
| `Documents.MergeIntoEmpty` | common/common.py:2451-2457 | a patch merged into nothing is the patch |
| `Documents.MergeAssociative` | common/common.py:2451-2457 | once a.b is defined, (a.b).c and a.(b.c) are the same, failures included |
| `Documents.MergeAssociativeExactly` | common/common.py:2451-2457 | the two bracketings agree, failures included, if and only if a.b is defined, a.c or b.c is not, or c leaves a clash of a and b uncovered |
| `Documents.RightMergeExactly` | common/common.py:2451-2457 | with b.c defined, a.(b.c) is defined if and only if a.c is and c covers every clash of a and b |
| `Documents.AssociativityNeedsTheFirstMerge` | common/common.py:2451-2457 | the smallest family for which only the right-hand bracketing is defined |
| `Documents.MergeIdempotent` | common/common.py:2451-2457 | applying a patch twice is applying it once |
| `Documents.MergeAtPath` | common/common.py:2451-2457 | what the merge holds at every path: merged in, left alone, or gone below a replaced value |
| `Documents.ControlStore.FlushControl` | common/common.py:912-925 | a flush drops the queue and writes the defaults |
| `Documents.ControlStore.WriteControl` | common/common.py:933-947 | a direct write replaces the record, any other is stamped and queued last |
| `Documents.ControlStore.ExecuteControlWrites` | common/common.py:949-968 | the loop drains exactly as specified, losing the patch that raised |
| `Documents.DrainMergesInTurn` | common/common.py:949-968 | the queue empties if and only if no patch clashes, and the record is then the patches merged in order |
| `Documents.DrainStopsAtClash` | common/common.py:949-968 | however the drain ends, the record is the patches before the first clash merged in order, the clashing one is lost, and those behind it stay queued |
| `Documents.DrainIsOneMerge` | common/common.py:949-968 | draining equals one deep merge of the one combined patch |
| `Documents.DrainPassesOver` | common/common.py:949-968 | entries that do not decode, or decode to nothing, change neither the record nor how the drain ends |
| `Documents.UnstampedStops` | common/common.py:949-968 | a write without an origin stops the drain and is lost, and what is behind it stays queued |
| `Documents.MissingRecordIsDefault` | common/common.py:905-931 | without a stored record the queue is merged into the defaults |
| `SettingsSchema.RedactAt` | core/settings_schema.py:32-51 | what redaction leaves at every key, the local auth block dropped |
| `SettingsSchema.RedactIdempotent` | core/settings_schema.py:32-51 | redacting twice is redacting once |
| `SettingsSchema.RedactRevealsOnlyPresence` | core/settings_schema.py:32-51 | two documents look the same redacted if and only if they differ in nothing but set secrets and the auth block |
| `SettingsSchema.RedactBack` | core/settings_schema.py:65-77 | a stripped, redacted copy always merges back, and with what result |
| `SettingsSchema.RedactedRoundTrip` | core/settings_schema.py:32-77 | the round trip changes nothing but unset secrets if and only if no list the client sees holds a secret |
| `SettingsSchema.ListSecretIsOverwritten` | core/settings_schema.py:32-77 | one secret in a list comes back as the sentinel |
| `SettingsPatch.FitsMerges` | core/settings_schema.py:94-94 | a patch in which mappings meet only mappings never raises |
| `SettingsPatch.NoReportExactly` | core/settings_schema.py:54-62 | for a fitting patch no path is reported if and only if the merge changes nothing |
| `SettingsPatch.ReportIsExactWhenFitting` | core/settings_schema.py:54-62 | every reported path differs if and only if the patch fits |
| `SettingsPatch.EmptyMappingIsReported` | core/settings_schema.py:54-62 | an empty mapping over a scalar is reported although the merge changes nothing |
| `SettingsPatch.ChangesAreReported` | core/settings_schema.py:54-62 | every differing leaf lies under a reported path, fitting or not |
| `SettingsPatch.SettingsFile.ApplyPatch` | core/settings_schema.py:83-96 | a patch is refused, raises, or is merged and reported; the file changes only in the last case |
| `SettingsPatch.AcceptedPatchKeepsProtected` | core/settings_schema.py:80-96 | an accepted patch keeps the protected paths if and only if it does not replace a server block that holds auth |
| `SettingsPatch.StringForServerDropsAuth` | core/settings_schema.py:80-96 | a bare string for the server block is accepted and removes server.auth, for every settings document that has it |
| `SettingsPatch.PatchesKeepProtected` | core/settings_schema.py:80-96 | any sequence of patches that replace no server block leaves versions, server_info and server.auth as they were |
| `SettingsLaws.SecretExactly` | core/settings_schema.py:24-29 | a key is secret if and only if some part of it is one of thirteen words, in any case, and it is none of four exceptions |
| `SettingsLaws.StripKeepsValues` | core/settings_schema.py:65-77 | at every path a stripped patch holds exactly the values of the patch that are not the sentinel |
| `SettingsLaws.StripKeepsMappings` | core/settings_schema.py:65-77 | a mapping stays exactly if it was empty or something below it stays |
| `SettingsLaws.StripChangesExactly` | core/settings_schema.py:65-77 | stripping changes a patch if and only if the sentinel is one of its values |
| `SettingsLaws.RefusedExactly` | core/settings_schema.py:80-90 | a patch is refused if and only if, sentinels apart, it names a protected path and may not |
| `SettingsLaws.AcceptedPatchTakesEffect` | core/settings_schema.py:83-96 | after an accepted patch the settings hold every value it names, the sentinel apart |
| `SettingsLaws.AcceptedPatchLeavesTheRest` | core/settings_schema.py:83-96 | every path the patch does not lead to holds what it did |
| `SettingsPatch.SettingsFile.GetPath` | core/settings_schema.py:99-105 | the walk returns what lies at the path, or the default |
| `SettingsPatch.SplitDotted` | core/settings_schema.py:54-62 | a reported dotted path over keys without dots leads back to its keys |
| `CloudCommands.Bridge.RememberNonce` | bridge/sync.py:220-227 | a nonce is new exactly when it is not kept, and the oldest beyond 500 is forgotten |
| `CloudCommands.Bridge.HandleCommand` | bridge/sync.py:229-259 | the checks in their order, the status writes attempted, and what is left remembered when one raises |
| `CloudCommands.Bridge.DrainPending` | bridge/sync.py:276-288 | a drain delivers exactly the pending commands read, in order, until one raises, and attempts exactly their status writes |
| `CloudCommands.Bridge.OnChange` | bridge/sync.py:297-312 | a streamed change delivers exactly the commands it offers, in order, until one raises, and attempts exactly their status writes |
| `CloudCommands.Bridge.Listen` | bridge/sync.py:290-319 | any number of connections is one run of deliveries: it keeps what deliveries keep, and its status writes are those of its deliveries, in order |
| `CloudCommands.DeliveriesKeepSound` | bridge/sync.py:220-259 | under any deliveries the bridge keeps exactly the latest 500 nonces, equal nonces are over 500 apart, and every execution was recent and remembered at a place of its own |
| `CloudCommands.AtMostOnce` | bridge/sync.py:220-259 | between two executions of a nonce 500 other nonces were remembered |
| `CloudCommands.RepeatsAreClose` | bridge/sync.py:236-237 | two executions that claim one creation time are within a minute |
| `CloudCommands.StatusProtocol` | bridge/sync.py:229-259 | the attempted writes are none, rejected alone, or acked then at most one outcome; a call executes exactly in the last case |
| `CloudCommands.ExecutedExactlyAcked` | bridge/sync.py:252-259 | over any run the executions are exactly the acknowledged commands, in order |
| `CommandOutcomes.CallOutcome` | bridge/sync.py:229-259 | a call executes exactly a command that is pending, recent, new, enabled and allowed; it writes acked, then done exactly if it was accepted and failed exactly if it was refused; any other pending command is rejected, unless a lookup raises, and in exactly which cases one does |
| `CommandOutcomes.CallRemembers` | bridge/sync.py:220-241 | the nonce of a pending, recent command is remembered exactly when it is usable and new |
| `CommandOutcomes.OutcomesAreReported` | bridge/sync.py:229-259 | over any deliveries the writes but for rejections are, execution by execution, acked and then the outcome it had |
| `CommandOutcomes.PendingInOrder` | bridge/sync.py:276-288 | a drain looks at every pending command it read, each in its place |
| `CommandOutcomes.OnlyPending` | bridge/sync.py:276-288 | and at no other |
| `CommandOutcomes.OffersExactly` | bridge/sync.py:297-312 | a streamed change offers the command it puts, the stored document of one it makes pending, or every entry of the tree |
| `CookArchive.Archiver.FlushSamples` | bridge/sync.py:199-211 | a chunk closes only after its upload went through; a failed upload keeps the buffer |
| `CookArchive.Archiver.TakeSample` | bridge/sync.py:186-197 | a sample is logged and buffered when its interval is over, and flushed when due |
| `CookArchive.Archiver.EndCook` | bridge/sync.py:213-217 | the tracker is reset only after both uploads went through |
| `CookArchive.Archiver.TrackCook` | bridge/sync.py:163-174 | a snapshot starts, samples or ends a cook as the specification says |
| `CookArchive.FlushRefines` | bridge/sync.py:199-211 | a flush, applied, lost or applied unheard, keeps the archive a refinement of the log |
| `CookArchive.StartRefines` | bridge/sync.py:176-184 | starting a cook keeps the refinement if and only if no chunk is stored under its id |
| `CookArchive.RestartRefines` | bridge/sync.py:79-80 | a restart of the bridge keeps the refinement if and only if no sample is waiting to be stored |
| `CookArchive.UnstoredSampleIsLost` | bridge/sync.py:186-197 | a run of one snapshot after which a restart loses a sample |
| `CookArchive.SecondCookClashes` | bridge/sync.py:176-217 | a run after which a second cook under the same id breaks the archive |
| `CookArchive.ArchiveRefinesLog` | bridge/sync.py:163-217 | in every run whose starts and restarts are of that kind, closed chunks then the buffer are the rows sampled, the open document is a prefix of the buffer, closed chunks hold at least 360 rows, and other cooks are stored whole |
| `CookArchive.EndedCookIsComplete` | bridge/sync.py:213-217 | a cook whose end went through is stored whole, and its document says how it ended |
| `CookArchive.ChunksCloseExactly` | bridge/sync.py:199-211 | while no upload fails chunks close at exactly 360 rows |
| `CookLaws.FirstSnapshotStarts` | bridge/sync.py:163-197 | the first cooking snapshot begins a cook under its new id with an active document, and samples it at once |
| `CookLaws.CookingSnapshotSamples` | bridge/sync.py:186-197 | a cooking snapshot adds its row to the open cook exactly when the interval is over, and else changes nothing |
| `CookLaws.FinalSnapshotEnds` | bridge/sync.py:213-217 | Stop ends the cook as done and Error as failed, once both uploads are through |
| `CookLaws.SamplesAreStoredPromptly` | bridge/sync.py:186-211 | while uploads go through, in any run, a sample waiting to be stored was taken within 120 seconds of the last flush |
| `SteinhartHart.FitReturnsThePoints` | core/tuner.py:19-43 | the fitted curve returns the three given temperatures, in either unit |
| `SteinhartHart.SolutionIsUnique` | core/tuner.py:19-31 | no other coefficients pass through the three points |
| `SteinhartHart.FitSucceedsExactly` | core/tuner.py:19-31 | for positive resistances and temperatures off absolute zero the fit succeeds if and only if the resistances are distinct and exactly one curve fits |
| `SteinhartHart.InverseOutcome` | core/tuner.py:46-54 | the inverse gives a resistance if and only if k and c are not zero and b does not oppose c; and when it raises instead |
| `SteinhartHart.InverseCanRaise` | core/tuner.py:46-54 | for every lawful library, coefficients and a temperature at which the inverse raises |
| `SteinhartHart.InverseSolvesCurve` | core/tuner.py:46-54 | the radical formula's logarithm solves c x^3 + b x + a = 1/k |
| `SteinhartHart.TempRoundTrip` | core/tuner.py:34-54 | temperature to resistance and back is the identity wherever the inverse answers |
| `SteinhartHart.TrRoundTrip` | core/tuner.py:34-54 | resistance to temperature and back is the identity when b does not oppose c |
| `SteinhartHart.TemperatureSolvesEquation` | core/tuner.py:34-43 | a resistance has a temperature unless it is not positive or the equation has no finite one, and its absolute temperature T solves 1/T = a + b ln R + c (ln R)^3 |
| `SteinhartHart.KelvinScale` | core/tuner.py:15-16 | both scales put freezing and boiling water at 273.15 and 373.15 and rise evenly |
| `PidClamping.Controller.DoUpdate` | controller/pid_clamping.py:85-124 | an update changes every field as specified; a zero time step raises after the first assignments |
| `PidClamping.UpdateContracts` | controller/pid_clamping.py:85-124 | for any reading and time step, the integral term does not grow or is within one unit of the block input |
| `PidClamping.AntiWindup` | controller/pid_clamping.py:85-131 | if \|p+d\| <= B at every update, \|ki inter\| <= 1+B at every moment of every run |
| `PidClamping.SmoothRunBound` | controller/pid_clamping.py:85-131 | for bounded errors and slopes the bound follows from the gains alone |
| `PidClamping.GainChangeKeepsBound` | controller/pid_clamping.py:133-134 | replacing the gains keeps every bounded integral bounded if and only if the integral gain does not grow |
| `PidLaws.AnswerLaw` | controller/pid_clamping.py:85-124 | the answer is the PID formula on what the events say, none for no time step, and the integral takes a reading in exactly when it does not saturate |
| `PidLaws.PidLaw` | controller/pid_clamping.py:85-138 | after any run within range, of readings, resets and new gains, the next answer is kp e + ki (sum of e dt) + kd (slope), with the sum, the clock and the last error taken from the events alone |
| `PidLaws.StandardForm` | controller/pid_clamping.py:73-83 | the gains are those of -(e + I/Ti + Td D)/PB, without an integral part for Ti = 0 and zero for PB = 0 |
| `ThermalModel.SimWorld.DoStep` | core/sim.py:119-166 | one sub-step of the physics, with the fuel fed and burned kept on a ledger |
| `ThermalModel.SimWorld.AdvanceLocked` | core/sim.py:106-117 | sub-stepping terminates and refines the specification |
| `ThermalModel.SubstepsDecrease` | core/sim.py:111-116 | each sub-step takes one off the number left, so the loop ends |
| `ThermalModel.SubstepsPartition` | core/sim.py:111-116 | the sub-steps add up to the time elapsed, each positive and within the step limit |
| `ThermalModel.FuelIsConserved` | core/sim.py:127-155 | fuel fed is fuel burned plus the change in pellets, which never go negative |
| `ThermalModel.PitStep` | core/sim.py:157-161 | one heating step keeps the pit between ambient and the ceiling |
| `ThermalModel.EnvelopeAndMassBalance` | core/sim.py:106-166 | any output schedule over any clock keeps the mass balance and the temperature envelope |
| `ThermalLaws.RunUnrolls` | core/sim.py:70-117 | every run is a series of sub-steps and writes, with the same writes in the same order |
| `ThermalLaws.OutputsAsWritten` | core/sim.py:70-73 | each output is as it was last written |
| `ThermalLaws.FuelIsFed` | core/sim.py:127-129 | over any run the fuel delivered is the auger rate times the time the auger was on under power |
| `ThermalLaws.BurnLaw` | core/sim.py:142-148 | a lit sub-step burns the fan's most, or what the fuel on hand allows, whichever is least; an unlit one burns nothing |
| `ThermalLaws.HeatLaw` | core/sim.py:157-166 | the pit relaxes toward the temperature at which heat and loss balance, and each food probe toward the pit, or the forced temperature |
| `ThermalLaws.SpellsAreRemembered` | core/sim.py:131-155 | over any run the igniter's and the starving fire's clocks hold when the latest unbroken spell of heating or starving began |
| `ThermalLaws.FireLaw` | core/sim.py:131-155 | after any run a sub-step catches fire exactly when the igniter's spell is as old as the ignition delay, or on embers, and goes out exactly when it starves in a spell as old as the flame-out delay |
| `ThermalLaws.LightsOnTime` | core/sim.py:131-140 | with power and igniter left on, a cold grill lights in the first sub-step at least the ignition delay after the igniter began to heat, and burns nothing before |
| `ThermalLaws.StaysUnlit` | core/sim.py:131-148 | without a powered igniter a cold grill stays unlit and burns nothing in any run |
| `Firestore.DecimalRoundTrip` | bridge/firebase_rest.py:164-183 | every integer survives printing and parsing |
| `Firestore.ValueRoundTrip` | bridge/firebase_rest.py:158-194 | decoding an encoded tree gives the tree back |
| `Firestore.EncodingIsPlain` | bridge/firebase_rest.py:158-174 | encoding produces only the plain wire form |
| `Firestore.WireRoundTrip` | bridge/firebase_rest.py:158-194 | every plain wire value decodes, and encodes back to itself |
| `Firestore.ServerForms` | bridge/firebase_rest.py:177-194 | what the decoder makes of timestamps, empty lists and mappings, unknown kinds, and integers in other forms |

## Left out

- AugerTime.AugerDutyBound: covers a cycle of fixed settings without manual changes, as the source allows both to change mid-cycle.
- AugerCycling.LeastFeed: covers a cycle without lid events, each of which stops the auger and restarts its timing, and without manual changes.
- ControlProcess.Process.DrainQueue: drains patches that fit the record; a document that clashes with it raises out of the control process, which `Documents` describes.
- ControlProcess.Process.ChangeManually: leaves out PWM changes and the override times of relays other than the auger, which only the fan control reads.
- ControlProcess.Process.WorkCycle: does not model settings, controller or probe reloads during a cycle, hopper checks, status, history and metrics other than the auger time.
- ControlProcess.Process.ReadSensors: takes what Smoke Plus, the fan PID and PWM control set the fan to, if anything, as an input of the pass; while the lid is open none of them moves it.
- ControlProcess.Process.SetTimers: takes the start-up profile, smart start or plain, as an input.
- ControlProcess.Process.RunRecipe: takes the recipe as read, with every key present and a start step that is not negative.
- ControlProcess.Process.CheckNotify: takes what each notification item asks for as an input, not the conditions that make it ask.
- ControlProcess.Process.MainLoop: takes settings as fixed and system commands, which may drive relays directly, as absent.
- ControlProcess.Process.CheckEnd: keeps the temperature a start-up records in the record between passes, where the source holds it in its local copy and writes it at the end of the cycle.
- ReigniteBudget.ReigniteBudgetHolds: excludes patches that set the retry counter, and heads at which the switch breaks the balance, which HeadBalanced describes exactly.
- RecipeProgress.RecipeProgressBound: excludes patches that request a reignite or set the retry counter.
- CookArchive.ArchiveRefinesLog: covers runs whose cooks start under ids without stored chunks and whose restarts find the buffer stored; StartRefines and RestartRefines say that no other start or restart keeps the refinement.
- CookArchive.Archiver.TrackCook: takes the id a new cook gets and the row a snapshot samples as inputs.
- ControlDocuments.MergeRepresents: covers patches that name a manual device and its output together, or clear the device.
- CookArchive.Archiver.FlushSamples: identifies a chunk by its index, not by the text of its document id.
- CloudCommands.Bridge.HandleCommand: takes reading the cloud settings, executing the command and publishing the state as inputs; an exception on reading the settings is not modelled.
- CloudCommands.Bridge.Listen: takes the changes a connection streams as given; parsing the event stream, reconnecting delays and authorisation are not modelled. A restart of the bridge forgets its nonces.
- Documents.DeepUpdate: works on a copy, so it does not capture that a merge that raises has already changed part of the caller's dictionary, nor the order of keys.
- Documents.ControlStore.FlushControl: leaves out the command and system queues that a flush also deletes, which no modelled step reads.
- Documents.ControlStore.ReadControl: a stored record that does not decode counts as missing.
- SettingsPatch.SettingsFile.ApplyPatch: reports a set of paths, not their order, and leaves out the settings file's own defaults and upgrades.
- SteinhartHart.InverseOutcome: takes ln, exp, square and cube roots by their laws over exact reals; overflow is not modelled.
- PidClamping.Controller.DoUpdate: computes with exact reals and takes its two clock readings as inputs.
- ThermalModel.SimWorld.DoStep: computes with exact reals, so the number of sub-steps is that of exact division.
- Firestore.ValueRoundTrip: covers JSON trees; tuples, keys and values of other types, special floating-point values and Python's limit on digits in text are not modelled.
- Displays, menus, photos, logs, backups, migrations, the wizard, MQTT, GPIO, probe drivers and the fuzzy and ML controllers: plumbing, or covered by arbitrary inputs.
- The autotune session and curve plotting of the tuner, and the bridge's state, presence, settings and notification mirrors: they would add only easy members.
- The heartbeat thread's own write to the record, and two bridge threads at once: steps are serialised.
