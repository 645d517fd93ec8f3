# A verified model of the plan engine

The repository drives laboratory instruments through recipes. A recipe tree is compiled into a flat plan of actions,
checked by static passes; a runner executes the plan against instruments that may fail, stores checkpoints, records
safe resume boundaries, cleans up and shuts every owned output down under one time budget; recovery reads the log of an
interrupted run, finds its last boundary and replays a short configuration prelude. An audit log records what happened.
This Dafny project models these parts and proves what they promise each other, for all plans, all fault patterns and
all crash points.

## How it is organised

| file | part of the system |
|---|---|
| `Outcomes.dfy` | values that may be absent, and calls that may raise |
| `Plan.dfy` | actions, plans, and the counts and sets read off them; what compilation guarantees |
| `Policy.dfy` | deadlines, retries, and the estimate |
| `Configurations.dfy` | the classes of configuration records |
| `PlannedState.dfy` | how records are made; the planned device state behind a moving cursor |
| `OutputFlow.dfy` | the static output-flow check and what it predicts |
| `Compaction.dfy` | the compacted prelude: what a list of actions means, and what the compacted list keeps |
| `CompiledPrelude.dfy` | what compilation guarantees recovery |
| `Agreement.dfy` | what actions tell the devices against what compilation plans |
| `Registers.dfy` | the instrument registers, which classes of records share |
| `Snapshots.dfy` | the device states that a run records, and what they are worth |
| `Restoration.dfy` | the whole prelude: completed from the device states, or refused |
| `Legs.dfy` | runs of a compiled plan up to a boundary, first or resumed |
| `Resumption.dfy` | what the prelude brings back, over chains of resumed runs |
| `RecoveryLimits.dfy` | compiled plans at which it does not |
| `Boundary.dfy` | the scan for the last safe boundary; archives across crashes and resumes |
| `RunLedger.dfy` | the records a run leaves (attempts, times, clean-up, budget, log, outputs) and what they guarantee together |
| `Runner.dfy` | the runner as a class whose methods change its fields, proved against these records |
| `FinalStates.dfy` | final-state blocks, fault-only tagging, the shutdown list |
| `MokeTrajectories.dfy` | MOKE segments, plans written back in place, the DAC grid |
| `Expansion.dfy` | the expansion budget and the visit of the recipe tree |
| `Deadlines.dfy` | nested deadline views on a shared session |
| `DecimalStepping.dfy` | exact stepping of written quantities |
| `AuditLog.dfy` | the audit logger as interleaved steps, and its reader |

Instruments, storage, clock, operator and watchdog are outside of the model: every call to them may take any time,
answer anything its type allows, or raise, and Stop or the watchdog may strike at any moment. Two things are assumed of
instruments, and only where physical outputs are spoken of: a command that was not asked to switch an output on does
not switch one on, and an instrument that confirms a state is in it. Where the restored registers are spoken of, answers
are assumed complete and true, and the settling time that the adapter of a source keeps to pace its ramps counts as a
register of that source. Seconds are real numbers.

Ghost records in the runner (`dispatches`, `times`, `archive`, `loopStarts`, `cleanupStarts`, `shutdowns`, `offers`,
`tried`, `mokeStops`, `mokeDriven`, `shutdownBooks`) are the trace its properties are stated on.

## What turned out to hold only under a condition

- An archive that holds a point but no boundary cannot be resumed. A plan that drives the MOKE field never records a
  boundary, so its interrupted runs can be resumed only if they stored no point.
- A plan that configures a carrier after its output path cannot be resumed from a later boundary: recording the carrier
  drops what was recorded of the path.
- The analyzer's Video/Power filter mode comes back as it was read last; one that a basic setup has selected since then
  is lost.
- A sweep of a source's settling time changes nothing at the source, but its last time is recorded as the settling time of
  the source at the next level or compliance update, output switch or ramp, and recovery sends it.
- A live generator update carries a whole record but selects one setting. If the other one is not the planned value,
  later checkpoints state it although the generator was never told.
- The output-flow check does not see that an output-path configuration and a ramp to zero turn an output off.
- The recovery prelude does not look at Stop between its configurations, so the bound on hand-overs after Stop speaks of
  the measurement.
- A shutdown list that names a device again before it has named all of them can push a later one below its equal share;
  compiled lists never do.
- Nested deadlines: a session opened inside a nested scope is no longer protected by the enclosing deadline once that
  scope ends.
- A quantity stepped by a fraction of its last digit does not come back on the opposite step.
- A flush of a logger that is already closed promises nothing.

## Model

| member | source | states |
|---|---|---|
| `Compaction.CompactedPrelude` | app/engine/recovery.py:185-258 | The first stage fails exactly when a live update or a later patch has no earlier configuration of its class; otherwise it is one record per configured class, in plan order, which assigns for every class the final values of exactly the settings that some configuration selected |
| `Compaction.AcceptedIff` | app/engine/recovery.py:204-245 | A list can be folded if and only if every live update, and every patch that does not select the fields of a setup of its own, follows a configuration of its class |
| `Compaction.CompactionPreservesAllStateIff` | app/engine/recovery.py:191-258 | For every list of actions and every class: from every state the compacted list leads to the same state as the whole prefix if and only if every setting that a live update assigns was also selected by some configuration |
| `Compaction.CompactionAgreesWhereItWrites` | app/engine/recovery.py:191-258 | For every list of actions: on every setting of a class that some configuration selected, compacted list and whole prefix agree from every state (registers shared by two classes: see Restoration) |
| `Compaction.Accumulate` | app/engine/recovery.py:233-256 | Merging a later configuration into the latest one assigns what both assign one after the other; masks unite, a complete baseline stays complete, empty advanced analyzer values keep earlier ones |
| `Compaction.Compact` | app/engine/recovery.py:191-258 | The loop over the prefix accepts exactly the foldable prefixes and holds, per class, the merged configuration of everything so far |
| `Compaction.InIndexOrder` | app/engine/recovery.py:259 | The result lists every class once, ordered by the action its configuration came from |
| `Compaction.PlansUpdateLiveSettings` | app/engine/recovery.py:204-232 | Live updates of a plan move only levels, compliances, carrier settings and generator settings |
| `CompiledPrelude.SourceSelectsLevel` | app/engine/compiler.py:2821-2834 | Behind every source request of a compiled list that drives a source, patches of modules included, stands a setup that selected both level and compliance |
| `CompiledPrelude.UpdatedIsConfigured` | app/engine/compiler.py:694-704 | Every setting that a live update of a compiled plan assigns was selected by a configuration before |
| `CompiledPrelude.CompactionLosesNothing` | app/engine/recovery.py:191-258 | The compaction of a compiled plan, cut off anywhere, does not fail and leads every state of every class to the same state as the whole prefix |
| `Agreement.LastGivenIsTold` | app/engine/recovery.py:185-258 | For every compiled list and every setting of every class: the replay has the value that the last action giving that setting gives it, a level update the level, a compliance update the compliance, and nothing if no action gives it |
| `Agreement.SourceAsPlanned` | app/engine/recovery.py:204-214 | For every compiled list and source: the replay that recovery compacts and the planned state of compilation agree on every setting, while the source drives on level and compliance too; what only measuring clears is excepted |
| `Agreement.CarrierAsPlanned` | app/engine/recovery.py:215-232 | For every compiled list and carrier: the replay has the planned waveform, frequency and both levels |
| `Agreement.AnalyzerAsPlanned` | app/engine/recovery.py:233-256 | For every compiled list: the replay has the planned start, stop, reference level and points, patches included |
| `Agreement.GeneratorAsPlannedIff` | app/engine/compiler.py:2519-2522 | What the generator is told is what the compiler plans for it at every point of a list if and only if every live update repeats the planned value of the setting that it does not select |
| `Agreement.RestatedPowerIsNotTold` | app/engine/compiler.py:2519-2522 | An accepted plan whose checkpoints state a power of -10 dBm while the generator was told -20 dBm: the frequency update carries another power than the one planned |
| `Agreement.CompactedIsPlanned` | app/engine/recovery.py:185-258 | The compaction of a compiled plan, cut off anywhere, sends the planned values: level and compliance of a driven source, the setup of a carrier, the basic analyzer settings, and the generator under the condition above |
| `Agreement.LevelStatedIff` | app/engine/compiler.py:2488-2503 | Later checkpoints state the planned level of a driven source throughout a list if and only if every level update of it names the mode it is in, or repeats the level |
| `Agreement.CarrierStated` | app/engine/compiler.py:2504-2518 | Later checkpoints state the planned frequency and levels of a carrier |
| `Agreement.AllowedAsPlannedIff` | app/engine/compiler.py:635-730 | The output-flow check accepts an action exactly when the planned state before it allows it: no acquisition in the generator mode, and nothing is switched on, updated or asserted that is not planned as a source, a carrier or a generator |
| `Snapshots.RecordedIsTrue` | app/engine/runner.py:1238-1499 | With instruments that answer truly, every recorded section is what the registers hold, however long ago it was recorded, for every run; the settling time of a source and the filter mode of the analyzer are excepted |
| `Snapshots.RecordedIsComplete` | app/engine/runner.py:1240-1336 | After every run there is a complete section for every source and carrier that was configured, and one for an output path if and only if its carrier was not configured since |
| `Snapshots.RecordedSettleTime` | app/engine/runner.py:1797-1802 | The recorded settling time of a source is exactly this: the one selected for it, unless a settling-time sweep has noted another since its last setup and a later level or compliance update, output switch or ramp took the noted one along |
| `Snapshots.RecordedFilterIff` | app/engine/runner.py:1354-1378 | The recorded filter mode is the one the analyzer has if and only if no other one was written since the analyzer was read last |
| `Restoration.ConfigurationPrelude` | app/engine/recovery.py:185-323 | The whole prelude: the compacted list with sources, carriers and output paths as they were answered and the analyzer settings re-inserted after the basic ones they share registers with; it is refused exactly when a step has no baseline or an answer that is needed is missing |
| `Restoration.RestoreRecords` | app/engine/recovery.py:259-302 | Every record of the compacted list is completed from its section or kept, and the stage fails exactly when some record can be neither |
| `Restoration.MeasuringSendsNoSource` | app/engine/recovery.py:276-287 | A source that only measures is sent none of the settings of a source, any other every setting that was answered |
| `Restoration.AutomaticNumbersAreNotSent` | app/engine/recovery.py:303-322 | Of the answered analyzer settings exactly the numbers that an automatic mode decides are not sent |
| `Restoration.InsertAnalyzer` | app/engine/recovery.py:303-322 | The result has one record per class, the others untouched, with the reported analyzer settings right after the basic ones |
| `Resumption.RecoveryTellsTruth` | app/engine/recovery.py:185-323 | For every run of a compiled plan with true answers, however often it was resumed before, and whatever classes share registers: the prelude writes to no register anything but what it held at the boundary; the settling time of a source and the filter mode of a read analyzer are excepted |
| `Resumption.RecoveryRestores` | app/engine/recovery.py:185-323 | Every register that the run wrote and whose value was reported holds after the prelude, from whatever state, exactly what it held at the boundary, in a first run as in one that itself began with a prelude; the settling time of a source is excepted |
| `Resumption.ChainIsUninterrupted` | app/engine/recovery.py:185-323 | At every boundary of a chain of resumed runs, each begun with the prelude of the boundary before, a register that every resume could bring back holds exactly what it would hold if one uninterrupted run had executed all the actions up to there |
| `Resumption.FilterRestoredIff` | app/engine/recovery.py:303-322 | A read analyzer gets its filter mode back if and only if no other one was written since it was read last |
| `Resumption.SettleTimeRestoredIff` | app/engine/recovery.py:264-287 | A restored source gets its settling time back if and only if the last point of a settling-time sweep that was taken into its section since its last setup, if any, has that very time; otherwise it gets the time of that point |
| `Resumption.RecoveryRefusesIff` | app/engine/recovery.py:259-312 | Recovery of a compiled plan with true answers is refused exactly when a carrier was configured after its output path, or the analyzer did not tell its filter mode |
| `RecoveryLimits.ReconfiguredCarrierRefused` | app/engine/runner.py:1244-1260 | A plan compiled from three nodes (carrier, output path, carrier) of which no truthful run can be resumed from its end: the compacted list cannot be completed |
| `RecoveryLimits.CarrierPlanRuns` | app/engine/runner.py:1244-1284 | The plan is compiled, and there is such a run of it |
| `RecoveryLimits.SelectedFilterIsStale` | app/engine/runner.py:1337-1378 | A plan compiled from three nodes (basic analyzer setup, advanced settings, full basic setup with another filter mode): after every truthful run of it the prelude sends the filter mode of the advanced settings, while the analyzer has the one selected last |
| `RecoveryLimits.FilterPlanRuns` | app/engine/runner.py:1337-1378 | The plan is compiled, and there is such a run of it |
| `RecoveryLimits.SweptSettleTimeIsSent` | app/engine/runner.py:1797-1802 | A compiled plan that sets a source up with 0.1 s, sweeps its settling time over 0.1 s and 2 s with a point after each, and switches it off: after every truthful run of it the prelude sends 2 s |
| `RecoveryLimits.SettlingPlanRuns` | app/engine/runner.py:1797-1802 | The plan is compiled, and there is such a run of it |
| `Plan.ControlledIff` | app/engine/compiler.py:146-165 | An output has to be proven off before a resume if and only if some action of the plan works on it; the MOKE channels stand as one field |
| `Plan.RequiredIff` | app/engine/compiler.py:107-127 | An instrument is needed if and only if some action verifies, asserts, works on or reads it |
| `Boundary.LatestBoundary` | app/engine/recovery.py:94-154 | The backward scan in chunks of 500 rows answers, for every log, plan and point count, what one plain reverse scan answers, errors included |
| `Boundary.ScanDecidedBy` | app/engine/recovery.py:118-154 | The scan is decided by the last row that is a malformed boundary or a boundary of this plan, whatever lies before it and whatever passed-over rows lie after it |
| `Boundary.VerifyBoundary` | app/engine/recovery.py:119-153 | A boundary yields its resume point exactly when every output that some action works on is in its scope and recorded off, its counts are in range and equal the checkpoint-producing actions before it, and its snapshots are mappings; otherwise it raises |
| `Boundary.CrashedArchiveResumesIff` | app/engine/recovery.py:57-68 | However the log of a run is cut off, what it leaves can be resumed if and only if a boundary of this plan or no point was committed; it is then resumed at the last boundary, or where the archive already stood, and the points it needs are committed |
| `Boundary.ChainConservesPoints` | app/storage/hdf5_writer.py:205-290 | A chain of interrupted runs, each resumed at its last boundary with the points cut back to it, can be continued if and only if no run stored a point before the first boundary; the points kept are then the checkpoint-producing actions before the resume index |
| `Boundary.CutBackKeepsAnswer` | app/engine/recovery.py:138-146 | Cutting the points back to a boundary does not change which boundary is found |
| `RunLedger.ChainEndsWithTotal` | app/engine/runner.py:295-489 | A chain of faulted, aborted or crashed runs resumed from their boundaries can be continued if and only if no run stored a point before the first boundary; ending in one successful run it has stored exactly the total points of the plan |
| `RunLedger.ResumedRunIsALeg` | app/engine/runner.py:2520-2551 | Whatever a resumed run leaves in the archive is, cut off anywhere, a log that recovery reads in turn, and it can be resumed again if and only if a boundary or no point is there |
| `RunLedger.MokeRunResumesIffPointless` | app/engine/recovery.py:58-63 | A run that drives the MOKE field, cut off anywhere, can be resumed if and only if it stored no point, and then only from the beginning |
| `RunLedger.AttemptsBounded` | app/engine/runner.py:548-620 | In a whole run, its clean-up included, an action is handed to the instruments at most once more than it may be retried, and an action that can energize an output at most once |
| `RunLedger.FinallyStartedExactlyOnce` | app/engine/runner.py:1127-1162 | With distinct node ids, the measurement and the clean-up after a failure together start every finally action that is not completion-only exactly once, and clean-up starts no completion-only action |
| `RunLedger.PendingExactly` | app/engine/runner.py:1136-1140 | With distinct node ids, clean-up starts exactly the finally actions that still await it, in plan order |
| `RunLedger.EstimateDominatesRun` | app/engine/estimation.py:215-216 | A full run whose attempts stay within their deadlines takes no longer, backoffs included, than the retry upper duration, and commits no more raw sweeps than were reserved |
| `RunLedger.SharingStep` | app/engine/runner.py:2133-2134 | Offering the next of the remaining devices an equal slice of the time left keeps every device at least an equal share of what was left at the beginning, less the time lost outside of operations |
| `RunLedger.EqualSharesIff` | app/engine/runner.py:2117-2134 | A list that comes to every device in scope, with operations that use up their slices, gives each an equal share at its first turn if and only if no device has another turn before all have had one |
| `RunLedger.HalvedStep` | app/engine/runner.py:1167-1171 | After k clean-up operations at least 1/2^k of the budget is left, less the time lost outside of operations |
| `RunLedger.OnRecordBoundary` | app/engine/runner.py:2537-2551 | Recording a boundary in step with the stored points keeps the log acceptable to recovery and its boundaries strictly increasing |
| `Runner.RecipeRunner.Run` | app/engine/runner.py:174-546 | Whatever instruments, storage, clock and operator do: the archive stays a log that recovery reads, hand-overs, raw sweeps and attempt times stay within their bounds, and so does the time that shutdown operations take within their slices; a successful run has handed over every action not meant for failures, stored exactly the remaining checkpoints, and leaves on exactly the held outputs; a failed run has started exactly the pending clean-up and ends in a shutdown that holds nothing, gives every device in charge its turn, tries every driven MOKE channel if a slice was left, and is not a fault only if none is left driven; the held outputs are, by the actions of the plan, those that a completion-only action retains; a dry run turns nothing on |
| `Runner.RecipeRunner.RunActions` | app/engine/runner.py:295-489 | The measurement loop keeps all of this action by action, with at most one hand-over after Stop was set, and from the first action on holds the MOKE trajectory that the plan says |
| `Runner.RecipeRunner.RunAction` | app/engine/runner.py:298-489 | One action: within its retry policy, its point stored and counted exactly if it produces a checkpoint, and a boundary recorded whenever points were added and every controlled output is confirmed off |
| `Runner.RecipeRunner.ExecuteWithPolicy` | app/engine/runner.py:548-609 | Only device errors are retried, as often as policy and live output state allow, never past the watchdog, and with Stop looked at before every retry; a setup whose output is recorded active has one attempt only, and the attempt that succeeds stayed within its deadline |
| `Runner.RecipeRunner.ExecuteImpl` | app/engine/runner.py:1174-1814 | A successful action changes the recorded outputs in exactly the way its kind says, and they are what the instruments show; a failing action that cannot energize leaves recorded OFF states true; a spectrum is acquired unless a source reached compliance |
| `Runner.RecipeRunner.SetOutput` | app/engine/runner.py:1437-1485 | An output switch records what the instrument confirms; a dry run asks for OFF instead of ON and fails unless OFF is confirmed |
| `Runner.RecipeRunner.AssertOn` | app/engine/runner.py:1178-1237 | A continuity assertion succeeds outside of a dry run only if the live reading is ON |
| `Runner.RecipeRunner.UpdateSignalGenerator` | app/engine/runner.py:1394-1415 | A live generator update succeeds only if the RF output is as it was recorded before |
| `Runner.RecipeRunner.ArmMoke` | app/engine/runner.py:1523-1530 | Arming is refused unless the permission equals the prepared plan; the run then owns the output |
| `Runner.RecipeRunner.StopOwnedMokeChannels` | app/engine/runner.py:2236-2271 | Every owned channel that is not held is tried, whatever the others raise, or with none owned that of the prepared plan, or the current one of the instrument; the stop succeeds exactly when every one was confirmed at zero |
| `Runner.RecipeRunner.AcquireAveragedSpectrum` | app/engine/runner.py:1846-1956 | An acquired block has at least the requested sweeps and the minimum duration; nothing is acquired once a source must be stopped; the sweeps committed never exceed the reserve of one attempt |
| `Runner.RecipeRunner.Execute` | app/engine/runner.py:1164-1173 | A clean-up action is handed over under the shared budget, which starts with it, and is refused only when nothing of it is left |
| `Runner.RecipeRunner.RunPendingFinally` | app/engine/runner.py:1127-1162 | Clean-up starts exactly the pending actions, each node once and in plan order; it hands over all of them while time is left, turns nothing on, and leaves 1/2^k of the time |
| `Runner.RecipeRunner.SafeShutdown` | app/engine/runner.py:2080-2165 | The shutdown never raises; for every list, each present device that the run is in charge of, listed or not, the generator after a failure and the MOKE box that it drives included, has a turn in which it is offered a slice exactly if anything is left; with a slice every driven MOKE channel that is not held is tried, and an answer of true means that each was confirmed at zero; it answers true only if every one confirmed and the flush did not fail, and then exactly the held outputs are on; with distinct devices in the list each gets an equal share of the time left |
| `Runner.RecipeRunner.ShutdownOwnedDevice` | app/engine/runner.py:2200-2234 | A device with held outputs keeps exactly those on and switches the others off; any other gets its emergency command, a mere receiver only an abort |
| `Runner.RecipeRunner.BeginCleanup` | app/engine/runner.py:2168-2189 | The budget starts with the first operation; an operation is refused exactly when nothing is left and otherwise gets its slice of what is left |
| `Runner.RecipeRunner.EndCleanup` | app/engine/runner.py:2190-2198 | An operation that took longer than its slice has failed even if it returned |
| `Runner.RecipeRunner.RecordSafeBoundaryIfAdvanced` | app/engine/runner.py:2520-2551 | A boundary is recorded exactly when points were added and every controlled output is confirmed off; then every controlled output is physically off, and its counts are the ones recovery checks |
| `Runner.RecipeRunner.StoresWhatIsCounted` | app/engine/compiler.py:130-135 | The runner stores a point for exactly the actions that compilation counts, except for a true checkpoint value that is not the boolean |
| `Runner.RecipeRunner.ConfirmDryRunOutputsOff` | app/engine/runner.py:2462-2496 | A dry run goes on only when every owned output is confirmed off |
| `Runner.RecipeRunner.CheckReferences` | app/engine/runner.py:246-259 | The check before the first action passes only if every corrected acquisition has a recovered or earlier acquired reference |
| `Runner.RecipeRunner.RunPrelude` | app/engine/runner.py:262-281 | The recovery prelude executes configurations only, hands over nothing of the measurement, and turns nothing on |
| `Runner.RecipeRunner.Conclude` | app/engine/runner.py:490-502 | A run that is no dry run ends in HOLDING if and only if a completion-only action of the plan retains an output; then each of these was confirmed by this run, and an owned output is on, recorded and physically, if and only if such an action retains it |
| `Runner.RecipeRunner.AbortSafely` | app/engine/runner.py:1077-1104 | A stopped run is SAFE only if clean-up and shutdown succeeded and no MOKE output was driven; then every owned output is off |
| `Runner.RecipeRunner.EndInFault` | app/engine/runner.py:512-544 | A fault forgets all output states, runs the pending clean-up and a shutdown that holds nothing, and ends in FAULT |
| `Runner.RecipeRunner.InterruptibleWait` | app/engine/runner.py:1970-1977 | A wait that returns has lasted as long as asked and Stop is not set; only Stop ends it early |
| `Policy.EstimatePlan` | app/engine/estimation.py:85-216 | The upper duration dominates the deadlines of all attempts and backoffs of the plan, with equality unless the nominal duration is longer; the reserved sweeps are exactly those of all attempts |
| `Policy.DeadlineCovers` | app/engine/policy.py:67-84 | The deadline of an attempt is what the action asks for (a wait, a ramp, or all sweeps at their longest with the delays between them, the minimum duration and the command) and the watchdog grace |
| `Policy.RetriedIff` | app/engine/policy.py:87-96 | Exactly configurations, source readings, acquisitions, ramps to zero and OFF switches may be tried again |
| `Policy.EnergizingIsNeverRetried` | app/engine/policy.py:87-96 | An action that can energize an output is no candidate for a retry |
| `MokeTrajectories.PrepareTrajectories` | app/engine/compiler.py:516-559 | Preparation succeeds exactly for lists that keep the segment rules, and then each configuration and its arm action carry the same plan of exactly the voltages of their segment in order, every move the ramp timeout of its profile and the voltage of a DAC code in the working range to which no other such code is nearer, and everything else is untouched |
| `MokeTrajectories.SegmentCarriesOnePlan` | app/engine/compiler.py:523-535 | In a prepared list the plan of a segment is valid for its profile and its targets are exactly the voltages up to the end of the segment |
| `MokeTrajectories.SuccessfulRunIsPermitted` | app/engine/runner.py:1523-1533 | At every action of a prepared plan that a successful run comes to, the runner holds the plan that its arm and move checks need |
| `MokeTrajectories.AppliedVoltageIsNearest` | app/safety/moke_box.py:107-125 | The voltage applied for a target is that of a DAC code, lies in the working range, and no code of that range is nearer to the target |
| `MokeTrajectories.AppliedVoltageExists` | app/safety/moke_box.py:107-125 | A target in the working range has a DAC voltage if and only if some code lies in that range, and rounding never leaves the range |
| `FinalStates.VisitFinalState` | app/engine/compiler.py:987-1048 | A final state is compiled exactly when it is admissible and the first for its output; all its actions are completion-only and drive no other output; only the last one marks a held output, after asserting it on |
| `FinalStates.AdmissibleIff` | app/engine/compiler.py:1007-1036 | A final state is admissible if and only if the main plan uses its output, the levels of a carrier come as a pair, and a MOKE voltage is held only where its box can apply it and is zero otherwise |
| `FinalStates.SourceIsSet` | app/engine/compiler.py:1018-1042 | The final state of a source sets the authored level, and then asserts or switches its output |
| `FinalStates.CarrierIsSet` | app/engine/compiler.py:1026-1042 | The final state of a carrier sets the authored frequency and levels, and then asserts or switches its output |
| `FinalStates.MokeIsSet` | app/engine/compiler.py:1008-1017 | The final state of a MOKE channel prepares, arms and applies the voltage to hold, or stops the channel |
| `FinalStates.TagFaultOnly` | app/engine/compiler.py:438-449 | Tagging in place marks exactly the clean-up of outputs with an authored final state |
| `FinalStates.FinalStatesStand` | app/engine/compiler.py:438-449 | A clean-up action is kept for failures if and only if it works on an output with an authored final state |
| `FinalStates.TaggingKeepsCompiled` | app/engine/compiler.py:438-449 | Tagging keeps every guarantee of compiled actions, the checkpoint count and the held outputs |
| `FinalStates.SafeShutdownActions` | app/engine/compiler.py:757-804 | The list fails exactly on unsupported entries; otherwise it names each device that owns outputs exactly once, and ends with the storage flush |
| `OutputFlow.ValidateDeviceStateFlow` | app/engine/compiler.py:635-730 | The check accepts exactly the plans in which every ON, live update and assertion follows a setup still in force, every assertion an ON not seen to be undone, no spectrum setup an active generator, and no acquisition the generator mode |
| `OutputFlow.AcceptedPlanRuns` | app/engine/compiler.py:635-730 | In an accepted plan, with obedient instruments, an assertion finds its output on if and only if no output-path configuration and no ramp to zero followed the last ON |
| `OutputFlow.RunFollowsFlow` | app/engine/runner.py:1238-1500 | In a run of an accepted plan that is no dry run, where instruments obey: every output that an action has set up, switched or turned off is, from then on and action by action as the runner records it, what the order of the steps says, whatever state it was in before |
| `OutputFlow.SucceedingAssertions` | app/engine/runner.py:1261-1265 | A run of an accepted plan, no dry run, in which every action succeeds has no assertion after an output-path configuration or a ramp to zero that followed the last ON of its output |
| `OutputFlow.AcceptedAssertionCanFail` | app/engine/runner.py:1261-1265 | An accepted plan whose assertion finds the output off: the check does not see the output path |
| `Expansion.CheckBudget` | app/engine/compiler.py:263-293 | The check fails exactly when some enabled node costs more than the limit, and otherwise computes the cost |
| `Expansion.PointsBounded` | app/engine/compiler.py:1050-1299 | Where every sweep is bound to an axis with as many points as it expands to, the checkpoints emitted never exceed the cost, and equal it without conditions |
| `Expansion.ActionsBounded` | app/engine/compiler.py:1050-1299 | Where every block emits at most one action, the actions emitted never exceed the cost |
| `Expansion.BudgetIsKept` | app/engine/compiler.py:263-293 | A recipe within its budget keeps the limits of checkpoints and of actions |
| `Expansion.Visit` | app/engine/compiler.py:1050-1299 | The visit appends exactly the expansion of the tree and comes to no refused block; it cannot give up on one that fits the limit and has none |
| `Expansion.PointActionsReplaceUpdates` | app/engine/compiler.py:1188-1299 | A sweep that emits its own point actions takes the place of the updates of its value that are authored in it, one action per value in order; any other sweep emits the authored ones |
| `Expansion.UnboundSweepExceedsCost` | app/engine/compiler.py:276-289 | An unbound sweep stores more points than its cost |
| `Expansion.MokeVoltageExceedsCost` | app/engine/compiler.py:1145-1166 | An explicit MOKE voltage emits three actions at the cost of one |
| `Expansion.MokeSweepExceedsCost` | app/engine/compiler.py:1188-1222 | A MOKE sweep that prepares itself emits two actions more than its cost |
| `PlannedState.Expand` | app/engine/compiler.py:1050-1299 | The expansion of a list of nodes and plain actions over one tracker is refused with the first refusal; otherwise it yields the compiled list, with its requests rewritten as far as the tracker caught up, which is one of built records and leads to the same planned state; every record assigns and selects what its node has authored, and that is then planned |
| `PlannedState.Tracker.Append` | app/engine/compiler.py:1295-1297 | A node becomes the record compiled from the state planned by everything before it, or is refused, and the list stays one of built records |
| `PlannedState.CompiledIsBuilt` | app/engine/compiler.py:1390-1412 | Every record that compilation makes is built: a setup of a source names level and compliance, a patch keeps the planned mode and repeats every planned setting that it does not name, carrier and analyzer setups name their basis |
| `PlannedState.CompiledAssigns` | app/engine/compiler.py:814-848 | Whatever is planned and for every node: the record has every authored setting as it was authored and selects it, and selects nothing else but the range mode of an authored range; the range pair of a source is what the station decides |
| `PlannedState.CompilationAssigns` | app/engine/compiler.py:1399-1412 | Every record of a compiled list assigns what its node has authored, and right after it that is what is planned |
| `PlannedState.CompiledIff` | app/engine/compiler.py:806-848 | A node is refused if and only if it names the wrong settings, or a value that it needs is neither authored nor planned, or a source asks for another range mode than the station has |
| `PlannedState.LeftOutIsFilledIn` | app/engine/compiler.py:3264-3366 | A block gives what it leaves out its own value, a module and a patch repeat what is planned |
| `PlannedState.MeasuringClears` | app/engine/compiler.py:241-254 | A source that only measures is planned at zero, without a range, whatever was planned before |
| `PlannedState.ModeIsSet` | app/engine/compiler.py:213-216 | A setup of the analyzer or a patch of its whole basis leaves the generator mode, a setup of the generator enters it, and no other record changes it |
| `PlannedState.Tracker.Sync` | app/engine/compiler.py:209-239 | However appends and catching up alternate, the tracked state is one fold over the authored list, and the list holds the rewritten requests |
| `PlannedState.MergeIsIdempotent` | app/engine/compiler.py:241-254 | Merging a merged request again under its own mask changes nothing |
| `PlannedState.RewritingKeepsDevices` | app/engine/compiler.py:217-222 | The rewritten list leads the devices to the same planned state as the authored one |
| `PlannedState.BuiltRecordsStateWhatIsHeld` | app/engine/compiler.py:2488-2496 | Every built source request, taken alone, states the mode, and with a source mode the level, that the source will hold |
| `PlannedState.RewritingKeepsPlannedState` | app/engine/compiler.py:209-239 | For every list of built records the rewritten list gives exactly the same tracked state, setpoints for later checkpoints included, and is built itself |
| `Deadlines.DeviceAdapter.CallThrough` | app/devices/base.py:50-66 | Through any depth of views a command is sent only if every view was read before its deadline, under exactly the tightest cap, and the timeout is restored however the call ends |
| `Deadlines.CappedIsMinimum` | app/devices/base.py:58-63 | That timeout is the minimum of the original one and every layer's remaining milliseconds, at least one |
| `Deadlines.CapIsRemaining` | app/devices/base.py:58-63 | A cap is the time that remains, rounded up to the next millisecond, and at least one |
| `Deadlines.DeviceAdapter.RunScope` | app/devices/base.py:190-212 | A scope restores the operation deadline always, and session and timeouts unless the session was replaced; inside an enclosing deadline the session is still protected afterwards if and only if it was not replaced |
| `Deadlines.DeviceAdapter.RunReconnect` | app/devices/base.py:214-228 | A session opened within a deadline is protected by it; failing to open one changes nothing |
| `Deadlines.DeviceAdapter.RunIoTimeout` | app/devices/base.py:230-252 | An I/O timeout is restored however its body ends, unless the session was replaced |
| `Deadlines.DeviceAdapter.Execute` | app/devices/base.py:43-252 | Any nesting of calls, scopes, timeouts, failures and reconnections respects every deadline, and leaves no trace unless it replaces the session; protection survives if no nested scope replaces it |
| `DecimalStepping.StepQuantityTextIsExact` | app/domain/quick_controls.py:63-96 | The stepped text reads back, in the same unit, as exactly the old number plus direction times the step, keeps the exponent suffix and separator, and shows at least the decimals that were written |
| `DecimalStepping.ScanQuantityText` | app/domain/quick_controls.py:12-19 | A number and unit written out are read back exactly |
| `DecimalStepping.SuffixMovesSeparator` | app/domain/quick_controls.py:63-96 | A suffix of e and k moves the separator k places to the right, one of e- and k as many to the left |
| `DecimalStepping.SuffixAppendsZeros` | app/domain/quick_controls.py:63-96 | A suffix of e and k on a whole number appends k zeros |
| `DecimalStepping.DefaultStepIsLastDigit` | app/domain/quick_controls.py:143-166 | Without an explicit step a step adds the multiplier to the digits as they are written |
| `DecimalStepping.DefaultStepKeepsDecimals` | app/domain/quick_controls.py:169-206 | Such a step with a whole multiplier shows no more decimals than were written |
| `DecimalStepping.UpAndDownRestores` | app/domain/quick_controls.py:143-166 | With an explicit step, or the last written digit and a whole multiplier, any number of steps up and as many down restore the number |
| `DecimalStepping.OneUpOneDownIff` | app/domain/quick_controls.py:156-166 | With the last written digit as step, one step up and one down restore the number if and only if the multiplier is whole |
| `DecimalStepping.StepIsExact` | app/domain/quick_controls.py:169-206 | Rendering never rounds: the printed number is the exact sum |
| `DecimalStepping.BoundaryIsExact` | app/domain/quick_controls.py:99-140 | A boundary rendered in the written notation denotes exactly the boundary |
| `AuditLog.AuditLogger.Interleave` | app/audit/logger.py:110-243 | Over any interleaving of callers and writer, with any call failing or timing out: the file is a beginning of the admitted records, and every promise made by a normal return still holds |
| `AuditLog.AuditLogger.WaitDurable` | app/audit/logger.py:130-133 | A normal return from a durable record means that it and all earlier records are durable |
| `AuditLog.AuditLogger.EndClose` | app/audit/logger.py:227-243 | A normal return from closing means that every admitted record is in the file |
| `AuditLog.AuditLogger.Enqueue` | app/audit/logger.py:121-128 | A request gets its place in the order together with its admission; a full queue is a final failure and admits nothing |
| `AuditLog.AuditLogger.WriterStep` | app/audit/logger.py:135-160 | Every step of the writer, succeeding or not, keeps the invariant and takes nothing back |
| `AuditLog.AcknowledgedIsDurable` | app/audit/logger.py:135-154 | An acknowledgement without a failure means that the request and all before it were forced to the device |
| `AuditLog.ReaderAcceptsLog` | app/audit/logger.py:253-286 | The complete lines of the file are always the first admitted records, and the strict reader accepts the file if and only if its last line is no fragment of a record |
| `AuditLog.IterRecords` | app/audit/logger.py:253-286 | The reader accepts exactly one session numbered from zero without a gap, and yields its records |
| `AuditLog.FlushAfterClosePromisesNothing` | app/audit/logger.py:217-225 | A flush while another thread is closing can return normally with an admitted record not yet in the file |

## Left out

- Instrument adapters, transports, command tables and the HDF5 file format: calls that answer or raise.
- The values a point carries (setpoints, semantic axes, metadata, spectrum arithmetic): a point is a stored fact.
- Safety-limit validation, quantisation of requests, sweep-point generation and the normalisation of the recipe tree: their results are inputs.
- Opening the archive, its status and plan hash, the completeness marks of stored points and the recovered reference spectrum (app/engine/recovery.py:41-56, 69-74, 156-183).
- Resumption.RecoveryRestores: says nothing of a field answered as empty, of source settings while only measuring, of a number that an automatic mode decides, or of registers outside of the configuration records.
- Resumption.ChainIsUninterrupted: speaks of registers that were written and reported by each boundary that the chain resumes from; the settling time of a source and a replaced filter mode are excepted as in RecoveryRestores.
- Registers.Register: a source has one level and one compliance here; the instrument keeps them apart for current and for voltage (app/devices/keithley_2600/adapter.py:883-896), and a change of the source mode selects the other pair.
- Snapshots.RecordedIsTrue: a live update is recorded as the value it was given; readback tolerances are not modelled.
- PlannedState.Compile: the checks of values against limits, and of the names a block may have beyond its settings, are not modelled.
- RunLedger.EqualSharesIff: is about the worst case, in which every operation uses up its slice and no time is lost elsewhere.
- Device-module nodes of the recipe tree, and cancellation of a compilation: the expansion bound is stated without them.
- The budget check covers the root of a recipe and not its Finally part, as in the source; Finally actions are outside of the bound.
- Floating-point rounding and the 28-digit decimal context: times are real, decimals unbounded; a negative zero, and unit scales that are no powers of ten, are not modelled.
- Non-ASCII digits and spaces, and a unit that the pattern could only find by giving digits back: such a text has no number here, and no known unit there.
- The heartbeat thread, telemetry, the user interface and the semantic display context.
- The expected configuration that a continuity assertion compares with the last confirmed one: the comparison may succeed or fail.
- Averaging, processing and qualification of spectra beyond the sweep loop: they may raise.
- Runner.RecipeRunner.Run: does not promise success in a run without mishaps; what raises is up to the outside world.
- Runner.RecipeRunner.RunPrelude: does not bound hand-overs after Stop, because the source does not look at Stop between prelude actions.
- Policy.EstimatePlan: takes the nominal duration, a matter of transfer rates, as a parameter, and leaves out the byte estimates.
- Expansion.Visit: why a block or a sweep is refused is not modelled, only that it is.
- The integer default of a quantity step: it is an explicit step here; the value it has depends on the text only through the notation.
- The argument checks of an audit record (severity, empty message) and its redaction: they come before admission.
- AuditLog.ReaderAcceptsLog: takes as given that a complete record parses and a fragment of one does not.
