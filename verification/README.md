# Herdr Bots: verified model of the durable run protocol

This project models what makes Herdr Bots safe to run as any number of processes
over one database, and proves it in Dafny. `dafny verify dfyconfig.toml` checks
all of it.

The runs table is changed only by compare-and-set writes, while the calls that
matter (creating a workspace, starting a command, closing a workspace, running a
verifier) happen outside any transaction and may be answered late or never. The
model has these parts:

- **Rows and writes.** `rows.dfy` is one row of the runs table; `row_writes.dfy`
  gives every store write on it as a function of the row, the arguments and the
  clock; `row_laws.dfy` states what holds of every such write, and `event_log.dfy`
  what it means for a log to replay to a row. `row_effects.dfy` says of every write
  exactly when it lands, what it sets and what it logs, and `filing.dfy` exactly how a
  finished run is filed.
- **The engine.** `engine.dfy` is the program any number of processes run on one
  run: program counters, snapshots, leases, and the outside world with counters
  of its calls. Any process may stop for ever at any counter. `engine_invariant.dfy`,
  `engine_steps.dfy` and `engine_log.dfy` carry the invariant through every step,
  and `engine_theorems.dfy` states the results over whole histories. `verdicts.dfy`
  says what each run ends as, `engine_flow.dfy` what a process does next,
  `engine_fencing.dfy` says exactly what an executor can still do after its claim
  was recovered, `engine_claims.dfy` exactly when the claim behind a close or a
  verifier still stands at the call, and `engine_example.dfy` plays four histories
  out, step by step.
- **The store.** `ledger.dfy` is the whole store as a value and every call on it as
  one atomic step; `ledger_laws.dfy` and `ledger_theorems.dfy` hold of every
  sequence of calls by anyone. `acceptance.dfy` and `decisions.dfy` read off the tables
  what the store answers to a delivery and to an admission; `daily_limit.dfy` is about
  the runs a day takes and `canaries.dfy` about attended canaries. `store.dfy` is the
  store as a class that checks and updates its tables in place. Every method of it
  leaves what the call on the value leaves and keeps `Valid`: logs replay, accepted
  occurrences own their runs; no finished outcome, receipt, authority or cursor goes
  back. The table below names the methods that span tables or race others; the rest
  have the same contract.
  `engine_store.dfy` shows that each engine step is one store request, and
  `engine_embedding.dfy` that whole interleavings are runs of the store.
- **Admission.** `admission.dfy` is the capacity decision, as the loop and as a
  specification.
- **Schedules.** `schedule.dfy` enumerates a window; `recorder.dfy` is any number of
  concurrent, crashing evaluators recording a job's schedule, and `polling.dfy` says
  when that amounts to one scan. `outcomes.dfy` says which outcome is right for a
  moment, `evaluate.dfy` is one evaluation run against the store, step for step one
  poll of the recorder, and `passes.dfy` the loop over jobs.
- **Text that carries evidence.** `shell.dfy` (quoting through two shells),
  `status_line.dfy` (the exit status, from the script to the screen and back),
  `write_scope.dfy`, `git_records.dfy` and `bounded_review.dfy` (the boundary proof
  of a scoped run), `completion.dfy` (completion markers) and `inventory.dfy` (the
  worktree list as an absence proof). `text.dfy` and `options.dfy` are shared.

## Assumptions

- Each store method is one atomic step. A database error means the step did not
  happen and the process stops, except that saving a receipt may also fail after it
  was committed, which the engine handles and the model includes.
- Timestamps are nondecreasing in commit order. A step that must own a claim reads
  the clock when it commits; recovery steps may carry any older reading.
- A call under a claim is issued before the claim's deadline, as its context
  requires. One Provision call creates at most one workspace. An acknowledged close
  and an observed absence are truthful.
- JSON encodes injectively and a run's sampling bucket is a function of its id.
  Effect claims and owners are nonempty; nothing relies on their freshness.
- Every expression but one that never fires has a next moment after each instant,
  and an `@every` one has it a whole number of seconds after the last full second.
  Wall-clock keys are any function of the moment.
- Disk sizes are reals. Runs are numbered in the order the store lists them.

## Findings

Where the code does not do what one might expect, the model follows the code and a
lemma says exactly what holds.

- The recovery code appears a second time in a hand-retired run's log once a late
  workspace close finishes on it, because that write logs the row's own code again
  (`EngineTheorems.RecoveryEntriesCounted`, `EngineExample.RecoveryCodeCanRepeat`).
- An executor whose claim was recovered can still save a staged-input receipt, even
  while another process closes the workspace (`EngineFencing.StaleExecutorExactly`,
  `EngineExample.StagedInputsCanLandLate`). Between expiry and recovery it can also
  save source context (`EngineFencing.FencedExecutorExactly`).
- A close or a verifier can be executed after its claim was recovered, by an owner
  that is merely slow (`EngineClaims.CloseClaimStandsExactly`,
  `EngineClaims.VerifierClaimStandsExactly`, `EngineExample.VerifiersCanRunLate`).
- An `@every` job polled more often than its delay never runs: each poll moves the
  cursor, and the next moment is counted from there (`Polling.EveryNeverRuns`). In
  general polling finds what one scan finds exactly for memoryless timetables
  (`Polling.PollingIsOneScanExactly`), and of the `@every` expressions only that of
  one second is memoryless (`Schedule.EveryMemorylessExactly`).
- An expression that parses but never fires, such as the 30th of February, keeps the
  enumeration loop running for ever (`Schedule.NeverFiringNeverEnds`).
- A job with a thousand occurrences due fails every later evaluation, since its cursor
  no longer moves (`Schedule.TooManyIsForever`), and with it all later jobs and all
  dispatch (`Passes.OneOverfullJobBlocksTheRest`).
- The daily limit counts the day of the request at hand, so a request whose day does
  not cover an earlier one can take that past a limit both had; exactly such requests
  can (`DailyLimit.WindowKeptExactly`, `DailyLimit.MovedWindowExceeds`).
- In tables an older version or a hand edit left, with an active run that has neither
  a device claim nor a readable snapshot, an attended canary can be left queued
  (`Canaries.CanaryStaysQueuedExactly`, `Canaries.CanaryLeftQueued`) and the admission
  decision can depend on the order of active rows
  (`Admission.OrderMattersExactlyWhenTorn`). No sequence of calls leads there
  (`Canaries.NoCanaryStaysQueued`, `Canaries.NeverTorn`).
- A verifier whose result file was published but whose owner then met a protocol
  error ends differently depending on who persists it
  (`EngineTheorems.OwnerAndReconcilerAgree`).
- The scan for a completion status can skip one when the marker and its colon overlap
  themselves, and then the two packages disagree; the exact condition is
  `Completion.ScanIsExactExactly`. The engine's markers never do
  (`Completion.EngineMarkersAgree`).

## Model

| member | source | states |
|---|---|---|
| EngineTheorems.EffectsAtMostOnce | internal/engine/engine.go:624-1001 | In every interleaving of any number of processes, with crashes, expiries and late replies, no two steps are both a Provision call, both a StartCommand, both a CloseWorkspace or both a verifier execution |
| EngineTheorems.CallsFollowClaims | internal/engine/engine.go:624-812 | Each of those calls is made only after its durable claim or plan was taken. Provisioning and start calls are made while it stands: a live claim with the planned branch saved, a live claim on the run's own workspace that nobody may close. A close or verifier call carries the saved intent or the one verifier claim, which may have been recovered since |
| EngineClaims.CloseClaimStandsExactly | internal/engine/engine.go:878-1001 | When a workspace close is called, the claim its caller took still stands if and only if no other process has reclaimed the close in between |
| EngineClaims.VerifierClaimStandsExactly | internal/engine/engine.go:1069-1191 | When a verifier is executed, its claim still stands if and only if the run is not over |
| EngineExample.VerifiersCanRunLate | internal/engine/engine.go:1788-1837 | A concrete history after which a verifier can still be executed although its claim was recovered and the run interrupted |
| EngineTheorems.StartedRunsHaveStarted | internal/store/store.go:1975-2000 | Starting, running, settled, verifying and close-claimed rows name exactly the workspace Provision created; past starting the command was started exactly once |
| EngineTheorems.LateClaimIsNeverDropped | internal/store/store.go:1499-1579 | The late-cleanup claim made by whoever holds a returned workspace identity wins unless the row already names that same workspace |
| EngineTheorems.NoReturnedWorkspaceIsLost | internal/engine/engine.go:1974-1997 | Once Provision has returned an identity, however late, the row names exactly that workspace as soon as the process is done saving it, through the receipt, an earlier recovery or the one cleanup claim |
| EngineTheorems.CloseBeforeTerminal | internal/engine/engine.go:878-1001 | A run whose close effect finished has had its close acknowledged or its workspace seen absent, and persists the intent the first claim saved, after any number of expiries and reclaims |
| EngineTheorems.TimedOutRunsAreClosed | internal/engine/engine.go:1003-1025 | A timed-out or cancelled run has no live workspace, then or later |
| EngineTheorems.TerminalOutcomesAreFinal | internal/store/store.go:1643-1705 | After a run first becomes terminal no step changes its state, results, lane, reason or receipts; before that each receipt is written at most once and no run goes back |
| EngineTheorems.PassedRunsAreVerified | internal/engine/engine.go:1069-1191 | A passed run succeeded; its single verifier claim has a published result with exit code 0; for a scoped run the change observations before and after the verifier and the receipt are the same bytes |
| EngineTheorems.FiledRunsAreVerified | internal/store/store.go:1346-1384 | A run filed in the automatic or sampled lane is verified in that sense |
| EngineTheorems.OwnerAndReconcilerAgree | internal/engine/engine.go:1788-1837 | In any history in which an owner's verifier published a result and a reconciler reads a durable one, in either order, both saw the same exit code, so with equal boundary results they persist the same outcome if and only if the owner found the result properly published or the boundary was broken |
| Verdicts.SucceededRunsPassed | internal/engine/engine.go:1106-1176 | A succeeded run has passed its verifier if it ever claimed one, and otherwise has none configured and is unverified |
| Verdicts.OwnerVerdictExactly | internal/engine/engine.go:1131-1176 | In any history, when the verdict of a verifier's owner lands the run has passed if and only if the result was properly published as 0 within a proven boundary; otherwise it has failed: rejected as verifier_failed for a nonzero exit or a run error, unverified as verifier_receipt_failed for a protocol error, unverified as bounded_review_failed without the proof |
| Verdicts.ReconciledVerdictExactly | internal/engine/engine.go:1788-1837 | The same when a reconciler's verdict lands, of the exit code published under the run's only claim |
| Verdicts.NoResultVerdictExactly | internal/engine/engine.go:1788-1837 | Without a durable result the reconciler interrupts the run, with a code for no path, no file and an invalid one |
| Verdicts.UnpreparedVerdictExactly | internal/engine/engine.go:1123-1130 | A verifier that could not be prepared fails the run unverified |
| Verdicts.CompletionGoesOnExactly | internal/engine/engine.go:1027-1117 | A completed command goes on to its verifier exactly past a required attestation and a proven boundary, each of which is then the row's receipt |
| Verdicts.RunsEndAs | internal/engine/engine.go:624-1191 | Every way a run can end in any history, each with its state, results and code; nothing else ends one |
| Verdicts.CloseIntentsAre | internal/engine/engine.go:1974-1997 | A close saves the intent asked for; a late cleanup saves that the receipt was not persisted, or a finished run's own outcome |
| EngineFlow.ExecutorGoesOnExactly | internal/engine/engine.go:624-812 | An executor goes on exactly when the write it depends on landed, and otherwise stops, saves late or tries again |
| EngineFlow.RecoveryGoesOnExactly | internal/engine/engine.go:425-547 | A reconciler goes on with the row it changed and stops when it changed none |
| EngineFlow.CloseGoesOnExactly | internal/engine/engine.go:878-1001 | A close goes from claim to call to finish, a recovered one from a seen absence through reclaiming with the saved intent to finish |
| EngineFlow.VerifierGoesOnExactly | internal/engine/engine.go:1117-1176 | A verifier goes from claim to run to result to boundary to verdict, and publishes exactly the result files that were written |
| EngineTheorems.FencedWritesAreRefused | internal/store/store.go:2282-2400 | On a run whose provisioning claim expired or ended no renewal, plan, receipt, confirmation or failure by any owner lands |
| EngineTheorems.FencingIsPermanent | internal/store/store.go:1935-2000 | A fenced run stays fenced in every later world |
| EngineFencing.FencedExecutorExactly | internal/engine/engine.go:624-812 | Once a provisioning claim has expired, exactly three writes of its executor still land: the claim to clean up a workspace the row does not name, a first staged-input receipt on a run that is not over, and source context while the row is still provisioning |
| EngineFencing.StaleExecutorExactly | internal/engine/engine.go:624-812 | After any step that recovered the expired claim, whatever happened in between, a step of the executor changes the row if and only if it is one of the first two |
| EngineExample.StagedInputsCanLandLate | internal/engine/engine.go:624-812 | A concrete history in which a staged-input receipt lands while another process holds a live close claim |
| EngineTheorems.EventLogReplays | internal/store/store.go:1386-1443 | Every run's events chain from nothing into accepted to the row's current state, and no event is ever rewritten |
| EngineTheorems.RetireFailsClosed | internal/store/recovery.go:35-89 | Retiring by hand against the current row: with every bound column unchanged it retires with one entry, on a row without workspace or effect; otherwise nothing changes |
| EngineTheorems.ExplicitRecoveryFailsClosed | internal/engine/recovery.go:41-112 | The same over whole histories, racing every other step, with the recovery code counted in the log before and after |
| EngineTheorems.RecoveryEntriesCounted | internal/store/store.go:1659-1685 | The log of a run retired by hand carries the recovery code exactly once until a late close finishes on the row and exactly twice afterwards |
| EngineExample.RecoveryCodeCanRepeat | internal/store/store.go:1659-1685 | A concrete history, with the late reply after the retirement, whose log carries the recovery code twice |
| EngineExample.RunsCanPass | internal/engine/engine.go:624-1191 | A concrete history in which a run is admitted, provisioned, started and verified and ends passed, filed automatically and read |
| EngineTheorems.Reachable | internal/engine/engine.go:624-1191 | Every reachable world satisfies the protocol invariant |
| EngineTheorems.Onward | internal/engine/engine.go:624-1191 | Every later world keeps what one step keeps: monotone states, effects, receipts, claims, log and fencing |
| EngineSteps.ExecuteFits | internal/engine/engine.go:624-812 | Every step of dispatch and execute keeps the invariant and what all other processes rely on |
| EngineSteps.RecoverFits | internal/engine/engine.go:425-547 | So does every step of cancelling an accepted run, reconciling an expired claim and explicit recovery |
| EngineSteps.CloseFits | internal/engine/engine.go:878-1001 | So does every step of closing a workspace and recovering an expired close |
| EngineSteps.MonitorFits | internal/engine/engine.go:1027-1176 | So does every step of monitoring up to the verifier claim |
| EngineSteps.VerifyFits | internal/engine/engine.go:1788-1837 | So does every step of a verifier's owner and of the reconciler |
| EngineSteps.OthersStable | internal/engine/engine.go:549-574 | A process that is not scheduled keeps its own part of the invariant across any step of another |
| EngineStore.StepsAreServed | internal/engine/engine.go:624-1191 | Every step of every process changes the row and its events as one store request does, with a clock reading that is not a future one |
| EngineStore.DecisionIsAdmissionStep | internal/store/store.go:2128-2261 | DecideAdmission does to the candidate's row what the protocol's admission step does |
| EngineEmbedding.HistoryIsRun | internal/engine/engine.go:624-1191 | Inside a store that holds the run's row and log, whatever else it contains, any stretch of any interleaving without a landing admission is a sequence of store calls that ends with the row and log the processes left |
| EngineEmbedding.AdmissionIsCall | internal/store/store.go:2128-2261 | An admission step with the store's own ruling, whether it claims the run, finishes it or leaves it queued, is the store's decision, with the same row and log |
| EngineEmbedding.ElsewhereHolds | internal/store/store.go:1386-1410 | No call on another run, a job or an occurrence touches the run's row or log, so the histories of all runs may interleave |
| RowEffects.LandsExactly | internal/store/store.go:1386-2576 | Every row write lands exactly when its arguments are accepted, its value is not there yet and it finds its row, by the columns its statement compares; otherwise it says which failed |
| RowEffects.SetsExactly | internal/store/store.go:1386-2576 | ... and sets exactly the columns its statement sets |
| RowEffects.AddsExactly | internal/store/store.go:1386-2576 | ... and adds exactly its event, if any |
| Filing.ClassifiedExactly | internal/store/store.go:1346-1384 | Automatic lane, sampled lane, unread mark and reason, each exactly when the outcome and the configuration call for it |
| Filing.EndingFiles | internal/store/store.go:1346-1384 | Whatever request ends a run files it by its outcome; a verifier from before claims goes to mandatory review, unread |
| Filing.OnlyEndingFiles | internal/store/store.go:1346-1384 | No other request changes a run's review |
| RowLaws.TerminalIsFinal | internal/store/store.go:1386-1443 | No request any caller can make changes the outcome of a finished run, what a run is, or a receipt once set |
| RowLaws.EveryWriteDocuments | internal/store/store.go:1386-1410 | Every request that changes the state appends exactly one event, from the old state to the new one |
| RowLaws.OnlyAdmissionActivates | internal/store/store.go:2240-2261 | No other request makes an inactive run active or moves its disk claim |
| RowLaws.LiveClaimIsExclusive | internal/store/store.go:2282-2326 | While a provisioning claim is live only its owner changes state, place, claim or result, apart from the two writes that ignore leases |
| RowLaws.LiveEffectIsExclusive | internal/store/store.go:1643-1705 | While an effect claim is live only its holder ends or moves it |
| Rows.Classify | internal/store/store.go:1346-1375 | A finished run starts out read only when it succeeded with a passed verdict; automatic and sampled lanes need a verifier command and a pass |
| EventLog.ReplaysIsChained | internal/store/store.go:2549-2569 | Replaying a log entry by entry is the same as its entries forming a chain |
| Admission.AdmissionDecision | internal/engine/engine.go:384-417 | The decision loop with its two running sums computes the decision specified on all active rows at once |
| Admission.TotalSplits | internal/engine/engine.go:398-410 | The per-device and legacy sums together are the total charged to the device |
| Admission.OrderMattersExactlyWhenTorn | internal/engine/engine.go:384-417 | The decision depends on the order of active rows if and only if it looks at them and one conflicts while another unclaimed one has no readable snapshot |
| Decisions.OrdinaryExactly | internal/store/store.go:2128-2261 | DecideAdmission claims an ordinary queued run exactly when its job may run and it has room, finishes it as capacity_probe_failed exactly when its job may run and the probe failed, and otherwise leaves it as it is; room means a working probe, fewer runs in flight than the cap, no queue_one run of its own job and no illegible one in the way, and a fit of floor, device reserves, legacy reserves and its own |
| Decisions.CanarySettledExactly | internal/store/store.go:2157-2200 | Before the allocator is asked, an attended canary is finished with each reason exactly when it applies |
| Decisions.CanaryWeighedExactly | internal/store/store.go:2202-2261 | After that, it is claimed exactly when it has room and finished with the reason it has none, unless the first run in its way is illegible |
| Decisions.SettledOrWeighs | internal/store/store.go:2157-2200 | One of the two is always the case, and not both |
| Decisions.JudgeIs | internal/engine/engine.go:384-417 | The allocator's four verdicts in terms of the rows in flight |
| Decisions.AdmissionNeverFinishesOrdinary | internal/store/store.go:2128-2261 | Over any calls admission never finishes an ordinary run whose probes worked |
| Acceptance.NewOccurrenceExactly | internal/store/store.go:1194-1250 | A new occurrence trips the guard exactly when too many finished runs are unread; else it is skipped for the limit exactly when the day is full, skipped for overlap exactly when an open run is in the way under forbid or a queued one under queue_one, and otherwise accepted as exactly the requested row |
| Acceptance.KnownOccurrenceIsRepeated | internal/store/store.go:1200-1208 | A recorded occurrence gets its first outcome back |
| Acceptance.CountIsSize | internal/store/store.go:1088-1094 | Counting rows is the size of the set of rows that meet the test |
| Acceptance.FenceExactly | internal/store/store.go:1123-1150 | Which fence a call meets, each exactly when it applies |
| Acceptance.ScheduledExactly | internal/store/store.go:964-983 | A scheduled occurrence is accepted exactly behind a saved revision of a job that may run |
| Acceptance.RecordingExactly | internal/store/store.go:985-1012 | An outcome without a run is recorded once under the same conditions |
| Acceptance.EventExactly | internal/store/store.go:1014-1083 | A new event synchronizes its job and is then accepted exactly when the job may run |
| Acceptance.CreatedExactly | internal/store/store.go:1256-1333 | A manual run is created exactly behind fence and guard, a canary always, each as exactly the requested row |
| Acceptance.SyncExactly | internal/store/store.go:774-809 | What synchronizing leaves of a new, an equal, a newer, an older and a conflicting revision |
| Acceptance.CursorExactly | internal/store/store.go:837-853 | The cursor moves forward only, exactly under the fence |
| Acceptance.SettingsExactly | internal/store/store.go:860-919 | Completing, pausing and halting change exactly their columns |
| LedgerLaws.CallShows | internal/store/store.go:1194-1299 | Every store call leaves the runs and events tables alone, makes one documented row write, or appends one accepted run with its first event |
| LedgerLaws.CallKeepsLogs | internal/store/store.go:1236-1248 | Every call keeps every run's event log replaying to its row |
| LedgerTheorems.RunsAreKept | internal/store/store.go:1386-1443 | Over any calls by any callers no run is forgotten, no terminal outcome changes, each receipt is written at most once |
| LedgerTheorems.EveryLogReplays | internal/store/store.go:2512-2547 | From the empty store on, every run's log chains to its row's state |
| LedgerTheorems.AuthorityNeverRegresses | internal/store/store.go:774-809 | A saved job's revision never decreases, equal revisions mean equal hash, definition and enablement, and its cursor never moves back |
| LedgerTheorems.FencedCreation | internal/store/store.go:1123-1150 | A fenced call appends nothing or exactly the requested run, and then under the exact current revision of an enabled, unpaused job with nothing halted and unread finished runs below the limit |
| LedgerTheorems.TrippedGuardCreatesNothing | internal/store/store.go:1096-1121 | A tripped unread guard pauses the job and creates no run, event or occurrence |
| LedgerTheorems.PauseLastsUntilResumed | internal/store/store.go:884-910 | A pause, whoever set it, lasts until an explicit resume, whatever is synchronized or delivered meanwhile, and no fenced call creates a run of the job until then |
| LedgerTheorems.OccurrenceIsFinal | internal/store/store.go:1174-1192 | A recorded occurrence never changes |
| LedgerTheorems.FirstOutcomeIsFinal | internal/store/store.go:1014-1083 | Redelivering a recorded occurrence creates no run; an event delivery always gets the first outcome back, a scheduled one gets it or is denied by the fence |
| LedgerTheorems.OneRunPerOccurrence | internal/store/store.go:1335-1344 | Every accepted occurrence names its own run of its own job, no two the same one |
| DailyLimit.DailyLimitHolds | internal/store/store.go:1209-1219 | When every request made inside a window covers it, the runs accepted from occurrences in it never exceed the daily maximum, over any calls |
| DailyLimit.AcceptanceRespectsItsWindow | internal/store/store.go:1209-1219 | Whatever windows earlier requests counted, an accepted occurrence leaves its own request's window at or below its own limit |
| DailyLimit.WindowKeptExactly | internal/store/store.go:1209-1219 | A request the store can accept keeps a window's limit, in every store that calls lead to, if and only if it is made outside the window, or its day covers the window and its limit is no higher |
| DailyLimit.MovedWindowExceeds | internal/store/store.go:1209-1219 | Three calls on the empty store after which a request with a shifted day has taken an earlier day to two runs, both limits being one |
| LedgerTheorems.ForbidNeverOverlaps | internal/store/store.go:1222-1230 | A forbid job fed only by occurrences never has two nonterminal runs |
| LedgerTheorems.QueueOneNeverOverlaps | internal/engine/engine.go:393-396 | A job whose runs all say queue_one never has two active runs, manual runs and canaries included |
| Canaries.CanaryStaysQueuedExactly | internal/store/store.go:2128-2261 | DecideAdmission leaves an accepted canary of a known job queued, under a valid lease, if and only if its job is enabled, unpaused and nothing halted, its snapshot decodes, overlap is allowed or no other run of the job is open, and the allocator cannot read an active row; the call then fails and changes nothing |
| Canaries.UnreadableExactly | internal/engine/engine.go:384-417 | The allocator cannot read the active rows if and only if the probe worked, the cap has room, and the first row to end the loop is an unclaimed one whose snapshot does not decode |
| Canaries.NoCanaryStaysQueued | internal/store/store.go:2128-2261 | Over any calls by anyone from the empty store, or from any tables without an active row the allocator cannot read, an attended canary of a known job never stays queued once its admission is decided under a valid lease |
| Canaries.CanaryLeftQueued | internal/engine/engine.go:404-410 | Tables whose logs replay, but with an active row no calls leave, in which a canary is left queued |
| Canaries.NeverTorn | internal/engine/engine.go:384-417 | Nor does the order of the active rows ever matter, over any calls from such tables |
| LedgerTheorems.CapacityHolds | internal/store/store.go:2119-2261 | With fixed limits and free space the active runs never exceed the cap, and on each device with an admitted active run the floor, its reserves and all legacy reserves fit its free space |
| LedgerTheorems.GrantingKeepsRoom | internal/engine/engine.go:411-417 | A granted candidate fits its device and takes nothing from any other |
| DurableStore.Store.ClaimLateProvisioningCleanup | internal/store/store.go:1499-1579 | Adopts a late workspace; a terminal row keeps its own outcome as intent; every log still replays, occurrences keep their own runs, nothing final changes |
| DurableStore.Store.ReclaimEffect | internal/store/store.go:1584-1604 | Re-owns only an expired close; every log still replays, occurrences keep their own runs, nothing final changes |
| DurableStore.Store.ClaimVerifier | internal/store/store.go:1608-1641 | Takes the one verifier claim and its result path; every log still replays, occurrences keep their own runs, nothing final changes |
| DurableStore.Store.FinishEffect | internal/store/store.go:1643-1705 | Finishes under the live effect claim, leaving a terminal row's outcome as it is; every log still replays, occurrences keep their own runs, nothing final changes |
| DurableStore.Store.FinishExpiredVerifier | internal/store/store.go:1709-1748 | Finishes only an expired or legacy verifier; every log still replays, occurrences keep their own runs, nothing final changes |
| DurableStore.Store.SetReceiptOnce | internal/store/store.go:1877-1924 | Sets a receipt once, accepts its repeat, refuses a different one and any on a finished run; every log still replays, occurrences keep their own runs, nothing final changes |
| DurableStore.Store.RecordRunEvent | internal/store/store.go:2512-2547 | Appends evidence unless it repeats the run's last event, and reopens the inbox; every log still replays, occurrences keep their own runs, nothing final changes |
| DurableStore.Store.SyncJobAuthority | internal/store/store.go:774-809 | Saves a job's authority, or refuses an older or conflicting one; every log still replays, occurrences keep their own runs, nothing final changes |
| DurableStore.Store.RequireJobAuthority | internal/store/store.go:1123-1150 | Says which fence fails, in the source's order |
| DurableStore.Store.SetCursorIfAuthority | internal/store/store.go:837-853 | Moves the cursor forward only, under the fence; every log still replays, occurrences keep their own runs, nothing final changes |
| DurableStore.Store.EnforceUnreadGuard | internal/store/store.go:1102-1121 | Pauses at the unread limit and does no more; every log still replays, occurrences keep their own runs, nothing final changes |
| DurableStore.Store.AcceptOccurrence | internal/store/store.go:1194-1250 | Existing outcome, guard, daily limit, overlap, acceptance, in that order; every log still replays, occurrences keep their own runs, nothing final changes |
| DurableStore.Store.AcceptScheduledOccurrence | internal/store/store.go:964-983 | The same behind the fence; every log still replays, occurrences keep their own runs, nothing final changes |
| DurableStore.Store.RecordOccurrenceIfAuthority | internal/store/store.go:985-1012 | Records a missed or skipped occurrence at most once behind the fence; every log still replays, occurrences keep their own runs, nothing final changes |
| DurableStore.Store.EnqueueEventOccurrence | internal/store/store.go:1014-1083 | An exact retry gets the first outcome whatever the job's state; anything else is synchronized, checked and accepted; every log still replays, occurrences keep their own runs, nothing final changes |
| DurableStore.Store.CreateManualRun | internal/store/store.go:1256-1300 | Creates a manual run behind fence and guard; every log still replays, occurrences keep their own runs, nothing final changes |
| DurableStore.Store.CountRuns | internal/store/store.go:1088-1094 | Counts the rows that meet a test, as the aggregate queries do |
| DurableStore.Store.LastEvent | internal/store/store.go:2527-2531 | Finds the run's latest event |
| DurableStore.Store.Rule | internal/store/store.go:2160-2240 | The checks in the source's order, and whether the allocator failed on an unreadable row; every other refusal of an attended canary finishes it |
| DurableStore.Store.DecideAdmissionOf | internal/store/store.go:2128-2280 | Fails, holds, finishes or claims the candidate with its device, reserve and bounded lease, as one transaction; every log still replays, occurrences keep their own runs, nothing final changes |
| DurableStore.Store.InterruptRecoveredProvisioning | internal/store/recovery.go:35-89 | Retires only the row observed, by every bound column; every log still replays, occurrences keep their own runs, nothing final changes |
| DurableStore.CallIsLawful | internal/store/store.go:1236-1248 | Any call, by anyone, on tables whose logs replay and whose accepted occurrences own distinct runs leaves such tables, keeps every finished outcome and written receipt, and moves no authority or cursor back |
| LedgerTheorems.ReplayIsRun | internal/engine/engine.go:97-181 | Any calls replayed on a store form a store history, so every theorem about those applies to an evaluation and to an engine interleaving |
| Schedule.Enumerate | internal/schedule/schedule.go:33-50 | The enumeration loop keeps exactly the moments of one scan with distinct wall-clock keys, or fails at a thousand, for five-field and @every expressions alike |
| Schedule.Between | internal/schedule/schedule.go:25-87 | Due occurrences with lateness outcomes for cron, @every, once and event schedules |
| Schedule.OccurrencesExactly | internal/schedule/schedule.go:63-87 | A due moment is on time within a minute, caught up within the grace, and missed exactly when beyond both |
| Schedule.DueIsOnePerKey | internal/schedule/schedule.go:38-50 | A scan of a window finds due exactly one moment, the earliest, for every key some moment it meets has |
| Schedule.ScansSplitExactly | internal/schedule/schedule.go:38-50 | A window may be scanned in pieces, wherever they meet, with the keys of one scan, if and only if the timetable is memoryless: before a next moment it has no other one |
| Schedule.EveryMemorylessExactly | internal/schedule/schedule.go:12-14 | Of the @every expressions exactly that of one second is memoryless |
| Schedule.FoundIsWindow | internal/schedule/schedule.go:38-50 | A scan of a memoryless schedule finds exactly the keys of all moments in its window |
| Schedule.SoundEnds | internal/schedule/schedule.go:38-50 | The loop ends whenever there is always a next moment |
| Schedule.NeverFiringNeverEnds | internal/schedule/schedule.go:38-50 | For an expression that never fires, whose next moment is the zero time, the loop is still going after any number of rounds |
| Schedule.TooManyIsForever | internal/schedule/schedule.go:47-49 | A window that fails with too many occurrences fails for every later now as long as the cursor stays, @every expressions included |
| Schedule.DueMomentsAre | internal/schedule/schedule.go:25-87 | For every kind of schedule a window that does not overflow yields exactly the keys a scan of it finds, each once |
| Recorder.NothingIsLost | internal/engine/engine.go:97-181 | For every schedule, any polling times, crashes, concurrent evaluators, pauses, guard trips and revisions: from where the current enabled revision took over up to the saved cursor, scans that leave no gap and meet at polling times have all their keys recorded, and the cursor never moves back |
| Recorder.EveryMomentIsRecorded | internal/engine/engine.go:97-181 | So for a memoryless schedule every moment there is has exactly one occurrence under its key |
| Recorder.NothingIsInvented | internal/engine/engine.go:128-160 | Under one revision every recorded key is one that a scan from a cursor since the start to a polling time finds |
| Recorder.PollingRefinesOneScan | internal/engine/engine.go:97-181 | For a memoryless schedule under one enabled revision, whatever polls ran and wherever they stopped, the keys recorded are at least those one scan up to the cursor finds and at most those one scan up to the latest poll finds |
| Recorder.CaughtUpIsOneScan | internal/engine/engine.go:97-181 | So once the cursor has reached the latest poll they are exactly the keys of one scan over the whole range |
| Polling.PollingIsOneScanExactly | internal/engine/engine.go:97-181 | Polling records what one scan finds, in every history that has caught up, if and only if the timetable is memoryless |
| Polling.PollsLoseMoment | internal/engine/engine.go:175-181 | For any timetable that forgets a moment, a history of two polls that records nothing although one scan finds it |
| Polling.PollsInventMoment | internal/engine/engine.go:175-181 | For any timetable that brings a moment forward, a history of two polls that records a key one scan does not find |
| Polling.EarlyPollsRecordNothing | internal/engine/engine.go:97-181 | As long as every poll comes before the next moment after the cursor it finds, nothing is ever recorded, in any history |
| Polling.EveryNeverRuns | internal/engine/engine.go:97-181 | So an @every job whose polls each come sooner after the saved cursor than its delay, less the second it is rounded to, never runs at all, whatever others call |
| Recorder.AdvanceOk | internal/store/store.go:837-853 | Whoever may move the cursor has recorded everything up to there |
| Evaluate.EvaluateJob | internal/engine/engine.go:97-181 | One evaluation, with a source lookup that may fail at any occurrence, is one poll of the recorder and a sequence of store calls on that job; it moves the cursor only after recording everything due; every occurrence it adds is missed exactly when overdue, unchanged exactly when the gate says so, else what acceptance answers, an accepted run having the configured trigger when on time and catchup after that; and it stops only when refused, overfull or at a failed lookup |
| Outcomes.NewOccurrencesAreRight | internal/engine/engine.go:128-176 | Whatever sequence of right calls was made, every occurrence it added says so |
| Passes.EvaluateAll | internal/engine/engine.go:97-182 | The loop over all jobs: each evaluated on what the one before left, until one fails; it goes on to dispatch exactly when none did |
| Passes.EvaluatedAreCaught | internal/engine/engine.go:97-182 | After a pass everything due for the jobs it evaluated is recorded, from where their cursors stood before it |
| Passes.OneOverfullJobBlocksTheRest | internal/engine/engine.go:121-123 | Once a thousand occurrences of one job are due, then until that job is paused, disabled, revised or completed or everything is halted, no pass dispatches or touches a later job, whatever others call in between |
| Evaluate.ScanJob | internal/engine/engine.go:97-181 | Looking, recording and advancing are the poll's own steps, and the cursor moves exactly when all of them went through |
| Evaluate.RecordAll | internal/engine/engine.go:128-176 | The loop makes the right call for everything due, or stops at a failed lookup or a tripped guard with the cursor where it was |
| Evaluate.RecordNext | internal/engine/engine.go:128-176 | One round makes the right call for its moment as the poll's next step, or stops for one of these reasons |
| Shell.LexQuote | internal/engine/engine.go:2101-2103 | Lexing a quoted string reads exactly that string into the current word, whatever it contains and whatever follows |
| Shell.QuoteIsOneWord | internal/engine/engine.go:2101-2103 | A quoted string is the single word it quotes |
| Shell.CommandLineSplits | internal/engine/engine.go:2092-2099 | The script splits into exactly the binary, -p, the arguments and the redirected prompt path, with the status line after |
| Shell.CommandSurvivesBothShells | internal/herdr/client.go:507-516 | Through both shells: sh -c receives the script unchanged and runs that command |
| StatusLine.TailPrintsStatus | internal/engine/engine.go:2098 | Running what follows the command prints a newline, the marker, a colon, the command's exit status in decimal and a newline, whatever the status |
| StatusLine.LineIsRead | internal/herdr/client.go:562-573 | On a screen with that line and no later status the command is completed and the number read, the last match, is the one printed |
| StatusLine.StatusIsReported | internal/herdr/client.go:562-573 | So for every run of the engine the status its command ends with is the one CommandResult reports |
| WriteScope.WriteAllowed | internal/engine/bounded_review.go:1154-1167 | The matching loop accepts exactly the paths some entry grants |
| WriteScope.GrantsIsPartwise | internal/engine/bounded_review.go:1154-1167 | A prefix entry grants exactly the proper descendants of its directory, segment by segment; any other exactly itself |
| WriteScope.CleanIsOrdinary | internal/engine/bounded_review.go:1286-1305 | A path without .. is clean exactly when it is the root or all its segments are ordinary names |
| WriteScope.RepositoryPathsAreOrdinary | internal/engine/bounded_review.go:1286-1305 | A validated repository path is spelled by ordinary segments outside .git |
| WriteScope.RepositoryPathExactly | internal/engine/bounded_review.go:1286-1305 | A repository path is accepted exactly when it is NUL-free and the root or spelled by ordinary names, the first not .git |
| WriteScope.EntryAcceptedExactly | internal/config/config.go:709-757 | A scope entry is accepted exactly when it has no NUL or wildcard, is spelled by ordinary names but for a trailing slash, is not .git or the staged-inputs directory or under them, and as a prefix does not contain the latter |
| WriteScope.AcceptedScopesAvoidProtectedPaths | internal/config/config.go:709-757 | No path an accepted scope allows is or lies under .git or the staged-inputs directory, as text and by segments |
| GitRecords.ParseFields | internal/engine/bounded_review.go:987-1019 | The record loop returns every path of every record in order, or fails |
| GitRecords.ParseNameStatus | internal/engine/bounded_review.go:987-1019 | The same from git's raw output |
| GitRecords.FieldsRoundTrip | internal/engine/bounded_review.go:1021-1029 | Splitting inverts NUL termination of any fields |
| GitRecords.OutputRoundTrip | internal/engine/bounded_review.go:1021-1029 | Whatever splits is the termination of the fields it splits into |
| GitRecords.ParsesEveryEncoding | internal/engine/bounded_review.go:987-1019 | Every well-formed record list is read back, both sides of renames included |
| GitRecords.AcceptsOnlyEncodings | internal/engine/bounded_review.go:987-1019 | Whatever is accepted encodes some well-formed record list with those paths |
| GitRecords.EncodingIsInjective | internal/engine/bounded_review.go:987-1019 | No two well-formed record lists are written alike |
| BoundedReview.AddUntracked | internal/engine/bounded_review.go:940-971 | Untracked and ignored files are validated and never listed twice |
| BoundedReview.ListChanges | internal/engine/bounded_review.go:919-984 | The changes read from git's three outputs |
| BoundedReview.NamedIsChanged | internal/engine/bounded_review.go:919-984 | Every path git's output names is among the changes |
| BoundedReview.ChangesExactly | internal/engine/bounded_review.go:919-984 | The changes are read exactly when all three outputs are what git writes, and are exactly the paths those name |
| BoundedReview.VerdictExactly | internal/engine/bounded_review.go:369-461 | No boundary, intact, receipt or broken, each exactly: a receipt when both passes are legible with nothing planted among the inputs, stay inside the scope, name the same files and saw the same content |
| BoundedReview.ReceiptsProveTheBoundary | internal/engine/bounded_review.go:369-461 | A change receipt means both passes agree in paths and content and every path either names is a staged input or granted by the scope and outside the protected directories |
| Completion.HasCompletionStatus | internal/adapter/adapter.go:251-266 | The loop accepts exactly the lines the skipping scan accepts, for every line and marker |
| Completion.ScanIsExactExactly | internal/adapter/adapter.go:251-266 | The scan accepts exactly the lines that contain marker, colon, digit, for all lines, if and only if at every self-overlap of the marker and its colon the overlap is followed by a digit |
| Completion.ColonFreeIsClear | internal/adapter/adapter.go:251-266 | A marker without a colon has no such overlap |
| Completion.FindBoundary | internal/adapter/adapter.go:205-215 | The boundary is the first line the scan accepts |
| Completion.BoundaryExactlyWhenCompleted | internal/herdr/client.go:562-573 | For such a newline-free marker the attestation boundary exists exactly when the command waiter finds a match, on every screen |
| Completion.PackagesAgreeExactly | internal/herdr/client.go:562-573 | For a newline-free marker the two agree on every screen if and only if the marker is of that kind |
| Completion.EvidenceExactly | internal/adapter/adapter.go:205-219 | The evidence is exactly the lines before the first one with a status, for markers without such an overlap |
| Completion.EvidenceIsAppendStable | internal/adapter/adapter.go:198-219 | Appending any text to a transcript with a boundary leaves the evidence lines unchanged, for every marker |
| Completion.MarkerIs | internal/engine/engine.go:2105-2117 | The marker is the prefix and then the identifier, capital letters and digits kept and anything else an underscore |
| Completion.EngineMarkersAgree | internal/engine/engine.go:2105-2117 | The engine's markers are of that kind, so scan, boundary and waiter agree on every transcript |
| Inventory.DecodeInventory | internal/herdr/client.go:162-241 | The inventory decodes exactly when it is a list whose every row does |
| Inventory.FindByBranch | internal/herdr/client.go:247-285 | Absence is reported if and only if the inventory decodes completely and no row names the branch; otherwise the first such row's path and its workspace |
| Inventory.RowDecodesExactly | internal/herdr/client.go:162-241 | A row decodes exactly when it is an object with a nonempty path, boolean flags not both true and a branch that fits them, to that path and branch |
| Inventory.NamesIsDecoded | internal/herdr/client.go:196-222 | Decoding neither hides nor invents the branch a row names |
| Inventory.BranchlessOnlyWhenAffirmed | internal/herdr/client.go:182-209 | A row counts as branchless exactly when it affirms one of the two flags, or has a null branch and no flag |

## Left out

- Liveness: Herdr may never answer, so the model proves what each completed call
  leaves behind and never that a call completes.
- The agent mode of execute, which no launch produces any more; the branches of
  interruption and close recovery for a row without a workspace identity, which
  `EngineTheorems.StartedRunsHaveStarted` shows no such row reaches.
- `Transition` towards anything but settled, `SetReceipt`, `ReleaseEffect`, generic
  `ClaimEffect` and the unfenced create, accept and cursor helpers, which the engine
  does not call.
- Process and file input and output, SQL text, locking, migrations, git and Herdr
  invocation, staging of inputs: only their results enter, as nondeterministic inputs.
- Cron parsing, time zones, YAML, JSON, hashing, random tokens and message texts.
  Details are opaque tokens, and the codes an interruption can carry are grouped
  where nothing distinguishes them.
- A cron expression that never fires: the enumeration loop does not end on it, so its
  method and everything built on it take expressions that always have a next moment.
- A canary whose snapshot decodes as a fragment but not as a job, since canaries are
  created from configuration.
- The parts of ParseClaudeModelAttestation after the evidence lines are chosen; they
  are a function of those lines.
- A status too large for a machine integer on the screen, and any shell construct but
  the ones the status line uses.
- JSON objects with duplicate or differently cased keys in the worktree inventory.
- Command-line commands, the terminal pane, launchd, release scripts, route probes,
  prompts, and simple field validation and defaults.
- Recorder.PollingRefinesOneScan: covers memoryless schedules, since it is false of any
  other, as `Polling.PollingIsOneScanExactly` shows.
- DailyLimit.DailyLimitHolds: covers requests whose day covers the window, since no other
  request keeps it, as `DailyLimit.WindowKeptExactly` shows.
- Completion.BoundaryExactlyWhenCompleted: covers the markers for which it is true,
  as `Completion.PackagesAgreeExactly` shows.
- LedgerTheorems.CapacityHolds: free space per device is fixed, so it does not cover
  space consumed by anything else.
