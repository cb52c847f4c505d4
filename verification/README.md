# Network toolkit: verified models

A Dafny 4.11 model of the parts of the toolkit whose correctness is hardest to see from
the code, with proofs. `dafny verify dfyconfig.toml` checks everything.

## What is modelled

**Automation jobs and their pipeline.** `Jobs` is the job table as a value, with one step
for each transaction; `JobStore` is the store object whose methods carry out those
transactions. `Pipeline` defines the plain loop over the stages and the cursor that is
saved between them, and says what the loop's results are, block by block, without the loop. `Workers` lets any number of workers take their steps in any order,
mixed with crashes, errors before or after a commit, expired leases, operator retries,
deletions and late writes by workers that lost their job, and proves that every recorded
and every completed result is that of the plain loop. `Engine` is the loop of
`process_job` in its own form, tied to those steps. `Resumption` follows one job that is
handed out only while nobody holds it, through crashes and errors before and after every
commit, ties it to a log, and says exactly when hand-outs are like that; `JobLog` proves what such logs say: when stages run again,
that started stages form a prefix, that delays are waited once, when they are cut short,
and how often the job waits. `LateRaises` has the failing cases. Executing an action is an
arbitrary function of trigger, stage, action with its configuration, context of earlier
stages and stage index; the attempt number is not among its arguments, and saved progress
is read back as it was written.

**Triggers.** `Debounce` proves that counters and state implement a specification on the
history of checks. `Calendar` does the same for calendar occurrences, over an arbitrary
next-occurrence function. `Scheduler` is the worker's loop over tracked work.

**Definitions and backups.** `Stages` is stage normalization, `Definitions` the three save
operations, `Backup` export and replacement, `Rollback` the Combine import with its
snapshot.

**The relay.** `Relay` keeps the two buffers as objects over a byte array, with the bytes
ever received and sent as ghost sequences, and proves the loop equal to a specification on
values. Answers of `recv`, `send`, `shutdown`, `poll` and the clock are inputs, so the
theorems about that specification hold for all of them.

**Bounded readers.** `JsonGuard` has both copies of the character-level guard,
`JsonGrammar` the concrete syntax of RFC 8259 they are measured against, `Preview` the
projection of stored results, `BoundedResult` the fitting of an SSH result into bytes.

**Pools and chains.** `Pools` is the table of shared executors, `MapWindow` the windowed
parallel map, `Chain` the ordering of issuing certificates.

Methods in classes are proved against functions of the old state; the theorems are lemmas
about those functions, over every input or every run. What such a function does to a row,
a direction or a record is also stated over its fields, in the method's own contract or in
a lemma that does not name the function.

## What the proofs showed about the code

- A delay is waited once because the stage id is not empty; that ids differ is not needed
  (`Resumption.EmptyIdNeverWaits`). Normalization guarantees both.
- `complete_job` and `link_job_run` do not check whose run they link. The engine only links
  its own; a foreign run would break the table (`Jobs.ForeignLinkBreaksTable`).
- `fail_job` has no status guard. When a transaction commits and its caller raises all the
  same, as `_connect` can (automation.py:2488-2505), a waiting or completed job is queued
  again. Results stay the same (`Workers.InterruptedRunsGiveThePlainResults`), but a delay
  can be cut short (`LateRaises.ALateDeferCutsADayShort`) and a finished pipeline can start
  over once its run is deleted (`LateRaises.ALateCompletionRestarts`). The exact conditions
  are `Resumption.DelaysAreCutShortExactlyAfterALateDefer` and
  `Resumption.SavedStagesRunAgainExactlyAfterALostCompletion`.
- Two workers on one job can start a stage again that was saved. That takes a lease its
  holder outlives (`LateRaises.TwoHoldersRepeatAStage`), or a late defer that `fail_job`
  gives back only after the job was handed out again, with every lease kept
  (`LateRaises.ALateDeferRepeatsAStage`); nothing else gives a job its first second holder
  (`Resumption.ExclusiveExactlyWhenTimely`). The worker's loop renews the leases of what it
  tracks; a job that a request runs itself (automation_routes.py:846) is not renewed.
- An error drops the debounce latch and keeps the met count (`Debounce.ErrorDropsLatch`).
- A calendar record more than a minute late passes over occurrences up to a millisecond
  after it was made, one still to come included (`Calendar.ALateRecordLosesTheNextOccurrence`);
  any record passes over the millisecond after its occurrence
  (`Calendar.PassedOverExactlyWhenSkipped`).
- A preview can lose a dict entry without reporting it, exactly when two keys agree in their
  first 128 characters (`Preview.FoldingKeepsEverythingUnlessKeysCollide`).
- A condition that is changed into a trigger while an automation combines it with others
  leaves a store whose backup cannot be imported (`Backup.MixedTriggersDoNotImport`); a
  Combine import can do the same (`Rollback.CombinedIsSoundUnlessMixed`).
- When the relay's clock fails it reads 0. At the look at the idle time that only delays
  giving up; at the last progress it makes the next good reading end a busy relay
  (`Relay.AFailedReadingCutsARelayShort`), and nothing else ends one early
  (`Relay.GivesUpEarlyExactlyAfterAFailedReading`).

## Model

| member | source | states |
|---|---|---|
| `Workers.InterruptedRunsGiveThePlainResults` | twn_toolkit/automation.py:3021-3155 | for any number of workers and any interleaving of their steps with crashes, errors before or after a commit, lease-expiry hand-outs, delays, operator retries, deletions and late writes: every result list given to `record_run` is that of the uninterrupted pipeline, run block by block as `Pipeline.PlainRunsInBlocks` says, and every completed job is linked to an existing run of its own automation holding those results |
| `Workers.EveryInterleavingKeepsInv` | twn_toolkit/automation.py:1372-1581 | every interleaving keeps the tables well formed, every saved cursor on the path of the plain loop, and every worker between two steps in agreement with what it last read |
| `Workers.WorkTouchesOwnRow` | twn_toolkit/automation.py:1480-1581 | a worker's step changes progress and run link of no job but its own, and saves only progress that stands for its own position |
| `Workers.WorkAddsOnlyItsRun` | twn_toolkit/automation.py:1722-1807 | a worker's step adds at most the one run it records |
| `Pipeline.RoutesAreComplementary` | twn_toolkit/automation.py:54-75 | the five policies over the statuses of a stage; of "success or partial" and "any failed" exactly one routes onward, the strict policies narrow them, and the two strict ones exclude each other |
| `Pipeline.ContextCountsEachResultOnce` | twn_toolkit/automation.py:3177-3202 | the context handed to later stages lists every result of the stage once and files each action under exactly one outcome |
| `Pipeline.RunStageIgnoresWaits` | twn_toolkit/automation.py:3104-3140 | a stage gives the same results, context and successor whether or not its delay was just waited out |
| `Pipeline.StepStaysOnPath` | twn_toolkit/automation.py:3101-3153 | running the stage at a saved position of the plain loop leads to a position of the plain loop |
| `Pipeline.PlainFromCursor` | twn_toolkit/automation.py:3082-3101 | continuing from any saved position gives the results of starting over |
| `Pipeline.FinishedCursorIsPlain` | twn_toolkit/automation.py:3153-3155 | a position past the last stage carries exactly the plain results, stopped pipelines included |
| `Pipeline.PlainRunsInBlocks` | twn_toolkit/automation.py:3101-3155 | the results are one block for each started stage, and there is only one way to run the stages like that: result n of stage i is what executing its action n yields for stage index i + 1 and a context that lists, in order, one item for each result of the stages before, with action, stage, status, summary and bounded output, and sorts the action names into successful, partial and failed by those statuses; a stage starts exactly when the policy of the one before lets it |
| `Engine.AddStageContext` | twn_toolkit/automation.py:3177-3202 | the loop over a stage's results builds the context the specification folds |
| `Engine.ExecutePipeline` | twn_toolkit/automation.py:3073-3155 | the resumable loop does to the tables, turn by turn, what the worker steps do, and any results it returns are those of the pipeline run through, block by block |
| `Engine.HandleStage` | twn_toolkit/automation.py:3101-3153 | one iteration waits, or runs the stage and saves; it goes on only after a successful save |
| `Engine.PutAside` | twn_toolkit/automation.py:3105-3122 | a delayed stage suspends the job, in status waiting, with the delay marked as done |
| `Engine.Checkpoint` | twn_toolkit/automation.py:3142-3151 | after a successful save the row is running and holds the new progress |
| `Engine.ProcessJob` | twn_toolkit/automation.py:3021-3060 | one call equals the worker steps; when it finishes, the job is completed and linked to a run with the results of the pipeline run through, or to the run the row already carried |
| `Engine.RecordResults` | twn_toolkit/automation.py:3049-3054 | recording, linking and completing: a finished job is linked to a run that holds exactly the results given |
| `Engine.CompleteRun` | twn_toolkit/automation.py:3037-3040 | an already recorded run is only completed again, not executed again |
| `Engine.GiveUp` | twn_toolkit/automation.py:3055-3060 | the exception handler is one `fail_job`, which may itself raise or never come |
| `Engine.TurnsAreHistory` | twn_toolkit/automation.py:3021-3060 | a call's turns are events of the interleaved system, so the theorems about all histories apply to it |
| `Engine.UndisturbedCallsGetThere` | twn_toolkit/automation.py:3021-3155 | a call that nothing disturbs completes its job with the results of the pipeline, or leaves it waiting for the delay of a later stage, within two steps for each stage ahead and four more |
| `Resumption.ExclusiveKeepsXInv` | twn_toolkit/automation.py:3101-3153 | as long as a job is handed out only while nobody holds it, its row, its holder and its log of hand-outs, starts, saves, waits, completions, give-backs and lost runs agree, with crashes and with errors before and after any commit; the holder's row runs, or its last defer or completion committed and raised |
| `Resumption.ExclusiveExactlyWhenTimely` | twn_toolkit/automation.py:1372-1478 | hand-outs meet no holder if and only if no lease is outlived by its holder and, after every defer that committed and raised, `fail_job` comes before the job is handed out past the delay |
| `Resumption.RestartsHaveACause` | twn_toolkit/automation.py:3140-3153 | in any history at all: a saved stage starts again only after a completion whose run was lost, or after a hand-out past an outlived lease or past the delay of a late defer not yet given back |
| `Resumption.SavedStagesRunAgainExactlyAfterALostCompletion` | twn_toolkit/automation.py:1518-1531 | while leases are kept and late defers given back in time, a stage whose progress was saved is started again if and only if a completion committed and raised, and the recorded run was deleted before a later start |
| `Resumption.StartedStagesFormAPrefix` | twn_toolkit/automation.py:3101-3153 | before any later stage starts, the one before it has started: executed stages form a prefix |
| `Resumption.DelayedStagesWaitOnceBeforeRunning` | twn_toolkit/automation.py:3104-3126 | when a delayed stage with a non-empty id starts, it has waited exactly once since the last completion, and its job was handed out again only after the whole delay, unless the defer committed and raised and the job was requeued for earlier |
| `Resumption.DelaysAreCutShortExactlyAfterALateDefer` | twn_toolkit/automation.py:1493-1581 | while a job rests after a wait it can be claimed before the delay is over if and only if its defer committed and raised and the back-off after it ends before the delay does |
| `Resumption.RestingJobsResumeOnTime` | twn_toolkit/automation.py:1392-1411 | a resting job can be claimed from its resume time on and never before |
| `Resumption.EmptyIdNeverWaits` | twn_toolkit/automation.py:3104-3126 | only a later stage with a delay and a non-empty id ever waits; unique ids are not needed for it |
| `Resumption.HandOutsAreBounded` | twn_toolkit/automation.py:1546-1581 | without process crashes and operator retries, a job is handed out at most 3 x (1 + delayed stages) times, with 3 x delayed stages more for each completion whose run was lost; every transaction of its holder may commit and raise, but a claim that does leaves the job to nobody and counts as a crash |
| `JobLog.StagesRestartExactlyAfterALostCompletion` | twn_toolkit/automation.py:3101-3153 | the same condition for every log whose entries fit one another |
| `JobLog.DelayedStagesWait` | twn_toolkit/automation.py:3104-3126 | in every such log the wait of a delayed stage is the only one in its pass, and it is respected by the next hand-out |
| `JobLog.WaitsAreBounded` | twn_toolkit/automation.py:1493-1516 | a job waits at most once for each delayed stage, and again only in a pass that began with a lost run |
| `LateRaises.LateDeferCutsTheDelayShort` | twn_toolkit/automation.py:1546-1581 | in any state: after a defer that commits and raises, the job can be handed out five seconds after `fail_job`, and then the delayed stage starts, whatever its delay is |
| `LateRaises.LateCompletionStartsOver` | twn_toolkit/automation.py:1518-1581 | in any state: after a completion that commits and raises before the third attempt, and with the history cleared, the next hand-out starts the first stage |
| `LateRaises.ALateDeferCutsADayShort` | twn_toolkit/automation.py:3104-3126 | a history from the start in which a stage with a delay of a day starts 86395 seconds early |
| `LateRaises.ALateCompletionRestarts` | twn_toolkit/automation.py:3140-3153 | a history from the start in which a pipeline saved to its end starts over |
| `LateRaises.TwoHoldersRepeatAStage` | twn_toolkit/automation.py:1372-1432 | a history in which a second worker, handed the job under an expired lease, starts a stage the first has just saved |
| `LateRaises.ALateDeferRepeatsAStage` | twn_toolkit/automation.py:1493-1581 | a history in which no lease runs out: a late defer of a second is given back after the job was handed out again, and a stage that was saved starts once more |
| `Jobs.HistoriesKeepWellFormed` | twn_toolkit/automation.py:1372-1581 | every reachable table: running exactly with a lease, waiting with a resume time, completed with an existing run of the same automation |
| `Jobs.OpsKeepWellFormed` | twn_toolkit/automation.py:1493-1581 | each transaction keeps the table well formed as long as linked runs belong to the job's automation |
| `Jobs.ClearRunsKeepsWellFormed` | twn_toolkit/automation.py:1872-1893 | clearing an automation's history never strands a completed job of another |
| `Jobs.ForeignLinkBreaksTable` | twn_toolkit/automation.py:1518-1544 | the store does not check whose run is linked: a foreign run always leads to a completed job without a run |
| `Jobs.LeaseColumnFollowsHistory` | twn_toolkit/automation.py:1372-1478 | the lease column is what the history of hand-outs, renewals and releases says, and it is set exactly while the job runs |
| `Jobs.HandOutsRespectLeases` | twn_toolkit/automation.py:1372-1464 | no job is handed out under an unexpired, unreleased lease, and a claim by id never takes over a running job |
| `JobStore.Store.EnqueueJob` | twn_toolkit/automation.py:2200-2233 | a queued job with its trigger and plan, refused for an unknown automation |
| `JobStore.Store.SelectDue` | twn_toolkit/automation.py:1392-1411 | the selection is the oldest claimable jobs by queueing time and id, outside the excluded automations, and leaves one out only at the limit |
| `JobStore.Store.ClaimJobs` | twn_toolkit/automation.py:1372-1432 | the selected jobs are handed out, one attempt and one clamped lease each, and no other row changes |
| `JobStore.Store.ClaimJob` | twn_toolkit/automation.py:1434-1464 | hands out one job if it is ready; a running job, expired or not, is refused |
| `JobStore.Store.RenewJobLease` | twn_toolkit/automation.py:1466-1478 | extends the clamped lease of a running job and touches nothing else |
| `JobStore.Store.SaveJobProgress` | twn_toolkit/automation.py:1480-1491 | saves the progress of a running job or refuses |
| `JobStore.Store.DeferJobForStage` | twn_toolkit/automation.py:1493-1516 | puts a running job aside until the delay is over with its attempts reset, or refuses a delay out of range |
| `JobStore.Store.CompleteJob` | twn_toolkit/automation.py:1518-1531 | completes a running job with an existing run and clears its progress |
| `JobStore.Store.LinkJobRun` | twn_toolkit/automation.py:1533-1544 | links an existing run to a running job |
| `JobStore.Store.FailJob` | twn_toolkit/automation.py:1546-1581 | requeues after 5 seconds, or 10 after the second attempt, or fails for good at the third attempt, whatever the status was; progress, run and attempts stay |
| `JobStore.Store.RetryFailedJobs` | twn_toolkit/automation.py:1614-1627 | requeues exactly the failed jobs with fresh attempts |
| `JobStore.Store.RecordRun` | twn_toolkit/automation.py:1722-1807 | adds one run of an existing automation |
| `JobStore.Store.DeleteRun` | twn_toolkit/automation.py:1859-1870 | deletes a run together with the jobs linked to it |
| `JobStore.Store.ClearRuns` | twn_toolkit/automation.py:1872-1893 | deletes an automation's runs and completed jobs; other links are set to null by the schema |
| `JobStore.Store.PruneHistory` | twn_toolkit/automation.py:2028-2059 | a run stays if and only if it was there and the retention time is 0 or it started no longer ago than that; a job stays if and only if it was there and is not linked to a run that went; what stays is unchanged |
| `JobStore.Store.DeleteAutomation` | twn_toolkit/automation.py:696-713 | refused while work is pending; otherwise jobs and runs go too |
| `Relay.RelayBuffer.Compact` | native/macos_network_broker.c:122-132 | moves the window to the front without changing its bytes |
| `Relay.RelayBuffer.ReadData` | native/macos_network_broker.c:134-159 | appends what was received, sees an end of file only in an empty read into free space, and retries on the retryable errors |
| `Relay.RelayBuffer.WriteData` | native/macos_network_broker.c:161-179 | removes from the window's front exactly the bytes sent |
| `Relay.RelayBuffer.FinishDirection` | native/macos_network_broker.c:181-195 | shuts the target down only after the end of file with an empty window, once |
| `Relay.Await` | native/macos_network_broker.c:218-246 | with both buffers compacted, the interests and the timeout registered are those of the open directions and of the rest of the limit, or the relay gives up because the limit has passed |
| `Relay.Serve` | native/macos_network_broker.c:246-263 | carries out on both buffers what the specification says poll's answer leads to, up to the first error |
| `Relay.Iterate` | native/macos_network_broker.c:208-264 | one turn of the loop: exit, both directions, poll call and time of last progress are those of the step function |
| `Relay.RelayStreams` | native/macos_network_broker.c:197-268 | for every start time and sequence of answers from outside, both directions, exit, last progress and all calls of poll are those of the run specification |
| `Relay.RunsOnlyGoForward` | native/macos_network_broker.c:134-195 | over any run: received and sent bytes are only added to, nothing is received after an end of stream and nothing is sent after a shutdown |
| `Relay.BothShutMeansDelivered` | native/macos_network_broker.c:209-214 | the relay reports success with both sides shut exactly when both are, and then everything received has been sent |
| `Relay.BytesComeFromThePeers` | native/macos_network_broker.c:134-159 | what was received is, in order, pieces of what the two peers delivered |
| `Relay.ServingActsOnReports` | native/macos_network_broker.c:249-262 | a direction receives only where poll reported data or a hang-up and sends only where it reported room |
| `Relay.EveryPollServesWhatIsOpen` | native/macos_network_broker.c:218-236 | at every poll each open direction is waited for: reading exactly while its stream has not ended and its window leaves room, writing exactly while bytes wait; the timeout is positive and is the rest of the idle limit |
| `Relay.TurnsMoveWhatIsReady` | native/macos_network_broker.c:208-264 | a turn that goes on has moved, in both directions, exactly: where poll reported data or a hang-up and there is room before the end, everything `recv` delivered up to the room, or the end of the stream; where it reported space, everything `send` took of the window; and a side is shut exactly when its stream had ended and was delivered |
| `Relay.TurnsEndByTheFirstReply` | native/macos_network_broker.c:208-264 | which reply ends a turn: the first of a failing shutdown, both sides shut, the idle limit, a failing poll, a bad descriptor or fault on a watched side, a failing `recv`, a failing `send`; and no other |
| `Relay.TurnsPollForWhatIsOpen` | native/macos_network_broker.c:208-246 | poll is called exactly if no shutdown failed, a side is still open and the limit has not passed, and its interests are those of the two windows |
| `Relay.LastIsTheLastReading` | native/macos_network_broker.c:206-264 | the time the limit counts from is the clock reading after the latest byte, end of stream or shutdown |
| `Relay.GivesUpExactlyWhenIdle` | native/macos_network_broker.c:238-243 | a turn that looks at the clock gives up exactly if the reading is the limit or more past that time; the limit is the shorter one once a side has ended |
| `Relay.GivesUpEarlyExactlyAfterAFailedReading` | native/macos_network_broker.c:116-120 | with a clock that reads the true time or, failing, 0: the relay gives up before the limit has truly passed if and only if the last progress was read as 0 and the clock now works and has run for the limit |
| `Relay.AFailedReadingCutsARelayShort` | native/macos_network_broker.c:213-264 | a concrete relay that gives up a millisecond after a byte came in |
| `JsonGuard.SourceBudget.CheckedSourceJsonText` | twn_toolkit/backup_source_reads.py:34-66 | the scanner's verdict and what it leaves of the shared budget, for every text, and no effect without an active budget |
| `JsonGuard.CaseSnapshot.GuardJson` | twn_toolkit/case_export_source.py:34-59 | the second copy computes the same verdict and leaves the same budget |
| `JsonGuard.CaseSnapshot.Charge` | twn_toolkit/case_export_source.py:25-32 | a charge succeeds exactly while the total stays within the maximum |
| `JsonGuard.CopiesAgree` | twn_toolkit/case_export_source.py:34-59 | with the same budget both copies accept exactly the same texts |
| `JsonGuard.ScanConcat` | twn_toolkit/backup_source_reads.py:34-66 | mode, charge and peak depth of a text follow from those of its parts |
| `JsonGuard.VerdictMeasuresPeakAndCost` | twn_toolkit/backup_source_reads.py:34-66 | a text is accepted exactly when its peak depth is at most 64 and its charge fits the budget |
| `JsonGuard.RejectedAtTheFirstOffence` | twn_toolkit/backup_source_reads.py:34-66 | a rejected text is rejected at the first character that breaks a limit, for its depth or its charge, and the budget has paid for exactly the text up to there |
| `JsonGrammar.GuardMeasuresEveryJsonText` | twn_toolkit/backup_source_reads.py:34-66 | for every value and every spelling RFC 8259 sections 2 to 7 allow: the scan ends unquoted at depth 0, the peak is the nesting height, the charge is strings, containers and commas, at least the number of values less one; so acceptance means height at most 64 and a charge within budget |
| `JsonGrammar.WeightBoundsValues` | twn_toolkit/backup_source_reads.py:34-66 | strings, containers and commas number at least the values less one |
| `JsonGrammar.RenderedValuesAreMeasured` | twn_toolkit/backup_source_reads.py:34-66 | inside any surrounding text, a rendered value returns the scanner to where it was, with the height and charge of the value |
| `Debounce.Automation.RecordCondition` | twn_toolkit/automation.py:1178-1230 | one check updates counters, state and last trigger as the step function does, and fires exactly when that does |
| `Debounce.Automation.RecordError` | twn_toolkit/automation.py:1629-1708 | an error keeps the counters and drops the latch |
| `Debounce.Automation.SetEnabled` | twn_toolkit/automation.py:721-788 | arming and disarming reset state and counters but keep the last trigger |
| `Debounce.RowFollowsHistory` | twn_toolkit/automation.py:1178-1230 | after any checks, errors and armings the row holds the trailing met run, the trailing clear run while latched, and the last fire |
| `Debounce.StateFollowsHistory` | twn_toolkit/automation.py:1178-1230 | the state shown after any history: while latched whether a clear check came since the fire, otherwise what the last event was |
| `Debounce.DebounceRefinesHistory` | twn_toolkit/automation.py:1178-1230 | it fires exactly on the met checks that find it unlatched, with a long enough met run and the cooldown over, for every history |
| `Debounce.RefireNeedsRecovery` | twn_toolkit/automation.py:1178-1230 | between two fires lies a completed recovery, an error or a re-arming |
| `Debounce.FiresAreSpaced` | twn_toolkit/automation.py:1178-1230 | two fires are at least the cooldown apart, across errors and re-armings |
| `Debounce.FiresNeedChecks` | twn_toolkit/automation.py:1178-1230 | without errors n fires need at least n x trigger_after + (n - 1) x recover_after checks |
| `Debounce.ErrorDropsLatch` | twn_toolkit/automation.py:1629-1708 | a concrete history in which one error lets an automation fire again without recovery |
| `Calendar.Schedule.Claim` | twn_toolkit/automation.py:831-841 | a claim is due exactly for an enabled automation whose time has come; it keeps the first pending occurrence and moves the next look 300 seconds on |
| `Calendar.Schedule.RecordOccurrence` | twn_toolkit/automation.py:854-933 | records the awaited occurrence once, fires always, within a minute, or within the grace minutes, as the missed-run policy says, and arms the one after it, or after now when it was more than a minute late |
| `Calendar.RecordsFollowTheCalendar` | twn_toolkit/automation.py:854-933 | whatever is claimed, claimed again, skipped or lost in between, the records form the chain of next occurrences with their original timestamps |
| `Calendar.OccurrencesAreRecordedInOrder` | twn_toolkit/automation.py:854-933 | occurrences are recorded in strictly increasing order, what was claimed was claimed at or after its time, and nothing is recorded from before a late record |
| `Calendar.RecordsFollowTheirClaims` | twn_toolkit/automation.py:831-933 | an occurrence recorded as claimed was claimed by an earlier event and recorded by a later one |
| `Calendar.PassedOverExactlyWhenSkipped` | twn_toolkit/automation.py:905-933 | an occurrence after a recorded one is passed over, and then never recorded, if and only if it lies within a millisecond after the recorded one, whatever the record, or the record was more than a minute late and it lies at most a millisecond after the time of the record |
| `Calendar.ALateRecordLosesTheNextOccurrence` | twn_toolkit/automation.py:905-906 | a record half a millisecond before the next occurrence, and more than a minute late, loses that occurrence |
| `Stages.Normalize` | twn_toolkit/automation.py:286-347 | the loop accepts, rejects and repairs exactly as the specification, and its result is in normal form |
| `Stages.NormalizedIsNormal` | twn_toolkit/automation.py:286-347 | accepted stages have unique trimmed ids, collapsed names, delays in range with none on the first stage, actions in every stage, and no stray final policy |
| `Stages.NormalStagesAreFixed` | twn_toolkit/automation.py:286-347 | stages pass unchanged if and only if they are in normal form |
| `Stages.NormalizingTwice` | twn_toolkit/automation.py:333-347 | normalizing again changes nothing, the repair of a final policy included |
| `Stages.CollapseTwice` | twn_toolkit/automation.py:306-308 | collapsing white space in a name is idempotent |
| `Stages.NormalizingKeepsWhatIsGiven` | twn_toolkit/automation.py:287-347 | stages are refused with the complaint about the first stage that has one; otherwise every stage keeps its trimmed id or a numbered one, its collapsed name or a numbered one, its delay unless it is first, its present actions in order, and its policy, but for one that moves from the last of several stages to the one before |
| `Stages.CollapseSqueezes` | twn_toolkit/automation.py:306-308 | collapsing drops white space at both ends and turns every run of it inside into one space, and keeps every other character |
| `Stages.TrimTakesOnlySpace` | twn_toolkit/automation.py:300-305 | trimming takes white space from both ends and nothing else |
| `Stages.FixedStagesMap` | twn_toolkit/automation.py:3491-3502 | renaming the actions of normal stages keeps them normal |
| `Definitions.DefinitionStore.SaveCondition` | twn_toolkit/automation.py:349-382 | saves under a free name, new or in place; every automation that uses a changed condition is switched off, with zero counts, no next check and nothing pending, its design and its past as they were; every other row stays |
| `Definitions.DefinitionStore.SaveAction` | twn_toolkit/automation.py:384-417 | the same for actions, an automation using one if any of its stages names it |
| `Definitions.DefinitionStore.SaveAutomation` | twn_toolkit/automation.py:92-285 | saves exactly what passes every check, spelled out, with deduplicated conditions and normal stages; the saved row is off with zero counts, new or changed; a changed one loses its pending event but keeps when it was last checked and last fired; every other row stays |
| `Definitions.DedupedKeepsOrder` | twn_toolkit/automation.py:92-142 | of repeated conditions the first occurrences stay, in their order |
| `Definitions.DefinitionStore.Clear` | twn_toolkit/automation.py:715-719 | deletes every definition, with events and history |
| `Backup.ExportThenReplace` | twn_toolkit/automation.py:3302-3504 | exporting one store and replacing another gives the same definitions up to identifiers if and only if the export is well formed, as it is for every store that meets the save checks; then one set of records describes both stores |
| `Backup.ReplaceAll` | twn_toolkit/automation.py:3376-3504 | listed once and well formed, all records come back out of the store, which they describe, and nothing else does; even a failed import leaves only definitions that pass the save checks |
| `Backup.Export` | twn_toolkit/automation.py:3302-3367 | lists every definition once, by names instead of identifiers: sources, actions, automations, each kind by name; for a store that meets the save checks the records describe it |
| `Backup.ViewsDescribe` | twn_toolkit/automation.py:3302-3367 | what a sound store exports, over its rows: every definition with its name, type and configuration, every automation with its settings, the names of its conditions in order, and its stages in order with id, name, policy, delay and the names of their actions; and nothing besides |
| `Backup.LostConditionsExportAsOne` | twn_toolkit/automation.py:3302-3367 | of any automation the names of the conditions still there are exported, and "Legacy condition" when none is |
| `Backup.ViewsAreWellFormed` | twn_toolkit/automation.py:3302-3367 | what a store that meets the save checks exports has distinct names, no dangling reference, normal stages and no trigger beside another condition |
| `Backup.ImportedAutomation` | twn_toolkit/automation.py:3438-3504 | an imported automation passes every save check and is exported again as the record it came from |
| `Backup.SavingKeepsNamesSound` | twn_toolkit/automation.py:349-417 | saving keeps names collapsed, in range and distinct without regard to case |
| `Backup.SavedRowIsSound` | twn_toolkit/automation.py:92-285 | whatever passes the checks of saving is stored in the form those checks accept again |
| `Backup.ChangedConditionStaysSoundUnlessMixed` | twn_toolkit/automation.py:349-382 | changing a condition keeps the store meeting the save checks if and only if it does not become a trigger beside other conditions of an automation |
| `Backup.MixedTriggersDoNotImport` | twn_toolkit/automation.py:154-162 | once that happened, the export of the store is not well formed |
| `Rollback.Combine` | twn_toolkit/automation.py:3506-3727 | when the import fails at any point, conditions, actions, automations and event states are exactly those before it and no history was lost; when it succeeds, every record of the validated backup is exported again by the store, and what no record names is unchanged, automations up to their runtime columns, and whatever is new is named by a record; every automation of the backup carries the settings, conditions and stages of its record, and, unless an operator switches automations on meanwhile, is off, as is every automation that uses a definition the import saved over; a well-formed backup, listed once, into a store with distinct automation names succeeds if and only if nothing outside fails before its last save; and a store that met the save checks still does if and only if the backup makes no condition a trigger beside others in an automation it does not bring along |
| `Rollback.Restore` | twn_toolkit/automation.py:3635-3727 | in one transaction: from every state a partial import can leave, no name conflict arises, the four tables equal the snapshot, and only history of added automations goes |
| `Rollback.UpsertDefinitions` | twn_toolkit/automation.py:3710-3727 | inserting or updating row by row never meets a name conflict while the names are those of the snapshot up to case |
| `Rollback.Import` | twn_toolkit/automation.py:3506-3618 | after any prefix of its writes, with the scheduler writing in between, the store can be taken back to the snapshot; with nothing failing outside, a well-formed backup always goes through |
| `Rollback.RecordsAreImportable` | twn_toolkit/automation.py:3566-3617 | the automations of a well-formed backup name only what was saved for it and pass every save check |
| `Rollback.CombinedIsSoundUnlessMixed` | twn_toolkit/automation.py:3536-3617 | a combined store meets the save checks if and only if no record turns one of several conditions of an automation left alone into a trigger |
| `Rollback.Validate` | twn_toolkit/automation.py:3514-3521 | only what a store of its own accepted and exports is imported, and a well-formed backup passes unchanged |
| `Rollback.ImportSources` | twn_toolkit/automation.py:3536-3549 | a record replaces the definition of the same name in any case, or is added; every other definition stays; no save is ever refused, so it fails only when something outside does |
| `Rollback.ImportActions` | twn_toolkit/automation.py:3551-3564 | the same for actions |
| `Rollback.ImportAutomations` | twn_toolkit/automation.py:3566-3617 | each record is saved over the automation of the same name in any case, or added, and is exported again as it came; automations no record names keep their design; what is saved meets the save checks; the store stays recoverable |
| `Rollback.MergeOneMore` | twn_toolkit/automation.py:3541-3549 | one more saved record keeps all earlier ones |
| `Rollback.SavedIsTheRecord` | twn_toolkit/automation.py:3566-3617 | what is saved for a validated record is exported as that record, whatever identifiers its conditions and actions got |
| `Rollback.RowsMergeOneMore` | twn_toolkit/automation.py:3596-3617 | one more saved automation keeps all earlier ones, since their names differ without regard to case |
| `Rollback.TouchedAreResting` | twn_toolkit/automation.py:3536-3617 | automations of the backup and automations that use a condition or action it replaced are left switched off |
| `Preview.PreviewValue` | twn_toolkit/automation_history.py:58-83 | the recursion over the shared mutable budget computes the projection and what it leaves of the budget |
| `Preview.PreviewIsBounded` | twn_toolkit/automation_history.py:58-83 | neither budget goes below zero, text is paid for character by character and nodes down to level 8 one by one, at most 20 children, texts of at most 4096, keys of at most 128 and distinct, placeholders below level 8 |
| `Preview.UnlimitedMeansWhole` | twn_toolkit/automation_history.py:58-83 | `limited` stays false exactly when the value fits, and then nothing but keys was cut and the budget paid for all of it |
| `Preview.ProjectionKeepsAllItCan` | twn_toolkit/automation_history.py:58-83 | what is kept of any value: a text is cut only at 4096 characters and a container only after 20 children, anything else goes only below level 8 or once a budget is used up, and children stay in order under their cut keys |
| `Preview.FoldingKeepsEverythingUnlessKeysCollide` | twn_toolkit/automation_history.py:77-81 | cutting keys loses no child if and only if no dict has two keys that agree in their first 128 characters |
| `Preview.UnlimitedPreviewIsTheValue` | twn_toolkit/automation_routes.py:1280-1284 | an unlimited preview is the input with its keys cut if and only if it fits and its cut keys are distinct |
| `Preview.CollidingKeysVanishSilently` | twn_toolkit/automation_history.py:77-81 | a concrete value that loses a child without being reported as limited |
| `BoundedResult.Bound` | twn_toolkit/bulk_ssh_jobs.py:111-141 | the record is refused or fits; it is unchanged when it fits, and otherwise marked as cut, with the longest prefix of its output that fits and every other field as it was; the error is the first 1000 characters of the redacted error; the status is "unknown" when the flag was set and the redacted status otherwise; and any property of texts that redaction gives, and that every beginning of such a text keeps, holds of every text of the record, nested ones included |
| `BoundedResult.BoundedHolds` | twn_toolkit/bulk_ssh_jobs.py:111-141 | so whatever redaction takes out of texts is in no text of the stored record |
| `BoundedResult.PreparedFields` | twn_toolkit/bulk_ssh_jobs.py:111-124 | the record before it is measured, field by field over the result: the flag goes, the error is cut, texts are redacted, plain values and nesting stay |
| `BoundedResult.EncodedRecordIsJson` | twn_toolkit/bulk_ssh_jobs.py:126-127 | the encoding that is measured is a text of RFC 8259 for just that record: its keys in order, every text spelled character by character, and no white space |
| `BoundedResult.EncodedTextIsJson` | twn_toolkit/bulk_ssh_jobs.py:126-127 | quotes, backslashes and control characters are escaped, and every other character stands for itself |
| `BoundedResult.BytesCountsUtf8` | twn_toolkit/bulk_ssh_jobs.py:126-127 | the size is the number of bytes of the encoding in UTF-8 (section 3 of RFC 3629) |
| `BoundedResult.Shorten` | twn_toolkit/bulk_ssh_jobs.py:128-138 | the bisection finds that longest prefix, or ends with the empty one |
| `BoundedResult.SizeOfOutput` | twn_toolkit/bulk_ssh_jobs.py:126-127 | a record's encoded size is its size without output plus the escaped UTF-8 bytes of the output |
| `BoundedResult.ShorterIsSmaller` | twn_toolkit/bulk_ssh_jobs.py:128-138 | a shorter prefix never encodes to more bytes, which is what makes bisection right |
| `BoundedResult.RunFitsItsEnvelope` | twn_toolkit/bulk_ssh_jobs.py:150-165 | over n hosts the bounded records total at most 63 MiB less 2048 n |
| `BoundedResult.RetryTokenFits` | twn_toolkit/bulk_ssh_jobs.py:164-177 | a retry token adds 26 bytes besides itself, so up to 2048 bytes in all keep a host inside its share |
| `Pools.SharedPools.Borrow` | twn_toolkit/automation_execution.py:19-31 | the first locked block: reuse the pool of the key, whatever limit is asked for, or create one with the limit, and count the borrower; refused only for a new pool with no workers |
| `Pools.SharedPools.Return` | twn_toolkit/automation_execution.py:32-38 | the second locked block: the last borrower, and only it, takes the pool out of the table and will shut it down |
| `Pools.EveryInterleavingKeepsInv` | twn_toolkit/automation_execution.py:18-40 | every interleaving keeps counts equal to holders and one shutdown for each pool without holders, done or still owed |
| `Pools.HoldersShareALivePool` | twn_toolkit/automation_execution.py:18-40 | a pool is in the table exactly while its key has a holder; holders share one executor that nobody shut down; every other executor has been shut down once or its last borrower is about to |
| `Pools.NoPoolLeaks` | twn_toolkit/automation_execution.py:32-40 | when every borrower is done no pool is left and each executor was shut down exactly once |
| `MapWindow.Map` | twn_toolkit/automation_execution.py:95-121 | with at least one worker it returns the input-order map exactly when no item raises, each item submitted once and never more than the window outstanding; on failure, seeing it is the last thing it does with the executor before withdrawing and waiting, so nothing is submitted after it, and nothing runs on return; with no worker nothing is submitted |
| `MapWindow.Fill` | twn_toolkit/automation_execution.py:100-106 | tops the window up with the next items and no further |
| `MapWindow.Collect` | twn_toolkit/automation_execution.py:111-115 | stores the results of finished calls in any order and stops at the first failure |
| `MapWindow.Round` | twn_toolkit/automation_execution.py:110-115 | a round takes at least one result and leaves the window as full as it can be, or a failure |
| `MapWindow.Drain` | twn_toolkit/automation_execution.py:116-121 | withdraws what has not started and returns only when everything submitted is over |
| `MapWindow.UnfinishedIsPending` | twn_toolkit/automation_execution.py:95-121 | calls that are not over are all in the window, so the window bounds them |
| `Chain.Order` | twn_toolkit/certificate_automation.py:1231-1248 | refuses exactly when only the leaf was sent; otherwise a permutation of the other certificates in the specified order |
| `Chain.OrderedIsAPermutation` | twn_toolkit/certificate_automation.py:1237-1248 | the order is a permutation for every issuer graph, cycles included |
| `Chain.RestKeepsItsOrder` | twn_toolkit/certificate_automation.py:1236-1248 | the certificates the walk did not reach follow in the order they came |
| `Chain.ChainStartsWithAMaximalWalk` | twn_toolkit/certificate_automation.py:1236-1248 | the chain starts with a walk from the leaf, each certificate for the issuer of the one before, which ends at a root or where no remaining certificate continues it |
| `Chain.AnyOrderGivesThePath` | twn_toolkit/certificate_automation.py:1236-1248 | a path to its end, subjects unambiguous, comes out as that path in whatever order its certificates and others were sent (the ordering of RFC 8446 section 4.4.2) |
| `Scheduler.Loop.Cycle` | twn_toolkit/automation_worker.py:135-196 | for every order of completions, claims and stop signals: finished work goes, the rest stays, due renewals reach exactly the tracked jobs that run; every job claimed is tracked and was claimable; unless stopped it claims jobs until it is full or none is on offer, then the first due checks as far as there is room, each tracked or set aside; tracked work stays within the limit, with at most one job and one check an automation, and one item in all with overlap skipping |
| `Scheduler.Loop.Work` | twn_toolkit/automation_worker.py:84-196 | the whole loop, turn by turn, over every sequence of completions, times and stop signals: every turn is as above, no claim is left untracked, and without a stop signal every turn is taken |
| `Scheduler.Loop.AdmitJobs` | twn_toolkit/automation_worker.py:153-175 | every claimed job is tracked and was claimable and idle, no other job changes, and while running it stops only when full or when nothing is on offer |
| `Scheduler.Loop.AdmitChecks` | twn_toolkit/automation_worker.py:176-196 | claims the due checks that came first; each is tracked, or set aside because of work in hand, or left when a stop arrives |
| `Scheduler.Loop.RenewLeases` | twn_toolkit/automation_worker.py:148-152 | extends the lease of exactly the tracked jobs that still run, to 300 seconds from now, and changes no other column and no other row |
| `Scheduler.Loop.Reap` | twn_toolkit/automation_worker.py:136-147 | forgets exactly the finished work |
| `Scheduler.AutomationTable.ClaimDue` | twn_toolkit/automation.py:792-852 | the due checks that come first by check time and then name, in that order, up to the limit; due means enabled, polled and past its time; each is advanced, an interval check by the cadence and a calendar check to the next look with its occurrence kept, and no other row changed |
| `Scheduler.FewInHand` | twn_toolkit/automation_worker.py:153-196 | at most one job and one check of an automation, or one item with overlap skipping |
| `Scheduler.ClaimedChecksAreNotDue` | twn_toolkit/automation.py:1251-1266 | a claimed check is not due again at once and comes up within one interval |
| `Scheduler.CadenceDoesNotDrift` | twn_toolkit/automation.py:1251-1266 | lateness of less than an interval never shifts the cadence |

## Left out

- Exactly-once execution of actions: a stage that ran but was not saved runs again, and a crash between recording and linking can record a second run. The theorems are about results.
- Two workers on one job at once: covered by the theorem about results; the theorems in `Resumption` assume leases kept and late defers given back in time, except `Resumption.RestartsHaveACause`; `LateRaises` shows that each of the two is needed.
- Attempt numbers handed to actions, encryption and JSON encoding of rows, and rounding of clock times: times are reals, identifiers are numbers or names, tokens are never reused.
- `_execute_stage`: its parallel execution is `MapWindow`; here a stage's results are a function of its actions and context.
- History pruning by check age, artifacts, storage statistics and the other tables of the schema.
- `Jobs.OpsKeepWellFormed`: assumes that a linked run belongs to the job's automation, which the store does not check; `Workers.EveryInterleavingKeepsInv` proves it for the engine.
- `Resumption.HandOutsAreBounded`: for histories without process crashes, claims that commit and raise, exceptions that keep `fail_job` from committing, and operator retries, since each of those hands a job out once more without limit.
- `Scheduler.Loop.Cycle`: what running jobs write to the tables between two statements of one cycle is not in it; `Workers` has those writes. Live tools, heartbeat, retention and start-up dispatch of the same loop are left out.
- Calendar rules: the next occurrence is an arbitrary function with the three properties a next-occurrence function has.
- Condition types, action types and their validation: validation is the identity on stored configurations.
- `Backup.ReplaceAll`: the first, embedded-definition backup format is not read, and non-text values are not converted to text.
- `Rollback.Combine`: names are equivalent by one rule, letters A to Z without case, where the original mixes `casefold`, `lower` and NOCASE; for other letters those three differ. Whether operators switch automations on during an import is a parameter. A failure of the database itself during the restore is not modelled, and deletions by others during an import are not either.
- `Relay.RelayStreams`: total over a finite list of rounds; descriptors, signals, forks, name resolution, connecting and privilege dropping are not modelled.
- `JsonGrammar.GuardMeasuresEveryJsonText`: characters are Unicode scalar values; a lone surrogate in a Python string is outside it. Texts that are not JSON are covered by `JsonGuard.VerdictMeasuresPeakAndCost`.
- `Preview.PreviewValue`: loaded JSON only, whose keys are text; `history_rows` and its page budget are left out as easy.
- `BoundedResult.Bound`: what taking the password out does to a text is an arbitrary function; keys and lists are not redacted, as in the original, so where the error or the output is not text its encoding has to have the property too; the text form of a field that is not text is its encoding; lone surrogates, which cannot be encoded, are excluded.
- `MapWindow.Map`: the executor holds only this call's submissions, and an interrupt of the waiting thread itself is not modelled.
- `Pools.HoldersShareALivePool`: reading the configured worker count is a parameter; a failing read leaves the table as it was.
- `Chain.Order`: certificates are equal when their encodings are, standing for equal fingerprints; PKCS#7 decoding and PEM output are not modelled.
- Routes, templates, sessions, audit, authentication, heartbeat files, the ACME lock and CSV output: easy beside these cores or settled outside the code.
