# Secret rotation: a verified model

This project models the part of the system that replaces a leaked cloud credential, and proves what
every run of it keeps. A rotation is a row with a list of steps (provision, distribute, verify,
revoke, in any number and order). A worker job takes a Redis lock, lets the engine advance the
rotation by one step, and enqueues itself again. API handlers approve, reject and confirm beside it.
Workers can die between any two durable effects and jobs can be delivered again. Around this core
there are the hash-chained audit log, the event stream to the browser, the blast-radius graph and
the severity score.

`dafny verify dfyconfig.toml` checks everything.

## How it is built

The code that updates rows, connectors, the lock and the tables in place is written as classes and
methods with loops (`Connectors`, `Engine`, `Lock`, `Service`, `Trigger`, `AuditChain`,
`EventStream`, `BlastRadius`). Each method is proved against a specification function; the theorems
are lemmas about those functions over whole runs.

- `RotationTypes`, `EngineSpec`: rows, and one engine call as the sequence of its durable effects
  (commits and connector calls). A call that dies leaves a prefix of that sequence. Connector
  answers are an arbitrary `Oracle`.
- `Connectors`, `Engine`: the step executors and `advance_rotation` on mutable rows. The ghost log
  of effects and of the state after each effect is what ties them to `EngineSpec`.
- `Effects`: what each log entry and each call does, field by field.
- `Machine`: runs, as sequences of approve, reject, confirm, simulate-failure, lock-busy and job
  actions with arbitrary crashes and redeliveries; and the condition under which each effect occurs.
- `Safety`, `Recovery`, `CrashFree`, `Vectors`, `Confirmation`, `Expiry`, `Outage`, `LostKeys`,
  `StoredValue`, `Rollback`, `Progress`, `Liveness`: theorems about all runs of one rotation.
- `Service`: the job and the API handlers; each is one `Machine` action.
- `Registry`, `Trigger`: all rotations of all secrets, and their creation.
- `Lock`: the lock as a timed protocol of many jobs and one clock. `Interleaving`: the calls of
  several jobs under it, one effect at a time.
- `AuditChain`, `AuditLedger`: the two appending writers, the seeding loop, interleaved transactions,
  and what is kept of them.
- `EventStream`, `EventStandard`: the frame writer, the incremental line parser, and how a parser of
  the standard reads the same stream.
- `BlastRadius`, `Severity`, `SeverityLaws`, `Investigation`: the graph loop, the score, and how the two meet.

A worker that dies between the two connector calls of one step leaves what a raising second call
leaves, so it is covered by an `Oracle` and a crash right after the step's execution.

## Hypotheses

Conditions on the actions of a run (`CleanRun`, `CarefulRun`, `PromptRun`) hold of each action in the
state where it happens (`Machine.Throughout`).

- `Initial`: pending approval, every step pending, no new reference. Nothing else is assumed of a
  plan unless a lemma says so.
- `CleanRun`: no worker dies between committing a failed step and the end of its rollback. Needed
  because the steps after the failed one are still pending then
  (`Recovery.CrashInHandlingCompletes`, `Vectors.CrashInHandlingAddsVector`).
- `CarefulRun`: at most one outstanding job, confirmations aimed at the step that is due, and no
  redelivery of a job that already committed its pause. Each part is needed, by the three concrete
  runs at the end of `Confirmation`.
- `PromptRun`: one approval, one confirmation per pause, jobs that neither crash nor fail.
- `FreshKeys`: every created key id is new. `OneProvision`: one provision step, with a non-empty
  plan, that is undone by deleting the new key.
- `NoCollision`, `Faithful` (audit log): no collision among the strings that the two logs hash,
  64-character hashes, and an encoder that is injective on their payloads.
- Identifiers drawn while the graph is built are distinct.

## Where the code and its documentation differ

- `coverage_gate` is always called with `revoke_confirmed=True` (`worker/rotation/engine.py:180`),
  so it never blocks inside the engine; it is not modelled.
- `needs_replan` is not terminal, and the expiry is looked at only in `pending_approval`. A second
  job executes a plan that the first one found expired (`Expiry.TwoApprovalsRunExpired`); exactly
  when is `Expiry.ExpiredRunsIff` for one call and `Expiry.ExpiredRunsNothingIff` for a run.
- A job that has used up its tries is gone (`worker/main.py:41-42`; the `MAX_TRIES` of
  `worker/jobs/run_rotation_step.py:34` is not used), and no code looks for rotations without a job.
  A job lost outside the two waiting statuses strands its rotation, and with it the secret
  (`Liveness.LostJobStrands`, `Liveness.StrandedForever`).
- A confirmation is a matter of status, not of the step: any job that arrives during a pause
  executes the paused step (`Confirmation.SkipsConfirmationIff` for one call,
  `Confirmation.ConfirmedFirstIff` for a run), and confirming another pending
  step enqueues such a job (`Confirmation.ConfirmingAnotherStepSkips`).
- Rejecting compensates nothing; a key provisioned before stays (`LostKeys.RejectedWithNewKey`), as does
  one whose store write failed (`LostKeys.RolledBackWithLostKey`).
- The revoke step that `trigger_rotation` inserts names no key (`api/routers/secrets.py:278`), so it
  targets the fallback id of `worker/rotation/steps.py:226` and no run touches the old key
  (`Trigger.CanonicalRevokesNoOldKey`).
- `_distribute` overwrites the stored new value with a placeholder (`worker/rotation/steps.py:158-171`).
  The store keeps the new credential exactly until then (`StoredValue.StoreExactly`), a verify step
  after it looks at the placeholder (`StoredValue.ExecutesOnPlaceholder`), and a triggered rotation
  that completes leaves it in the store (`Trigger.CanonicalVerifiesPlaceholder`).
- The lock's value is the rotation id, so jobs of one rotation own each other's entries
  (`Lock.LateReleaseUnlocks`); exactly when none loses it while inside is `Lock.EntryKeptIff`.
- The score counts `ec2` as privileged and the graph does not (`Investigation.GraphShowsScoreIff`).
- A message that is a JSON array ends the stream: `pop` with a name raises an exception that is not
  caught (`api/streaming/sse.py:68-70`, `EventStream.AllServedIff`).
- Frames carry the event type in their `event:` line, which the browser's parser ignores; the type
  is removed from the payload that it dispatches (`api/streaming/sse.py:68`).

## Model

| member | source | states |
|---|---|---|
| `Engine.RotationEngine.AdvanceRotation` | worker/rotation/engine.py:67-314 | one call has exactly the durable effects that the specification lists, in order, and asks to be enqueued again exactly when a step succeeded and a pending one follows |
| `Engine.RotationEngine.RunStep` | worker/rotation/engine.py:195-314 | start, execution and result of the due step, effect by effect |
| `Engine.RotationEngine.StartAndExecute` | worker/rotation/engine.py:195-219 | the running status is committed unless it is already stored, then the step executes |
| `Engine.RotationEngine.RecordResult` | worker/rotation/engine.py:211-314 | a successful result is persisted, a failed one leads into the rollback |
| `Engine.RotationEngine.RecordDone` | worker/rotation/engine.py:224-286 | step and reference are committed together, then `completed` if no pending step has a greater idx |
| `Engine.RotationEngine.FailAndRollback` | worker/rotation/engine.py:288-314 | the failure is committed, then everything done is compensated |
| `Engine.RotationEngine.Rollback` | worker/rotation/engine.py:317-392 | the rollback of the steps that were done when the call loaded them, highest idx first |
| `Engine.RotationEngine.FinishRollback` | worker/rotation/engine.py:348-379 | the compensations, then the final status |
| `Engine.RotationEngine.UndoAll` | worker/rotation/engine.py:348-376 | the loop compensates every listed step once, goes on after failures, and reports whether there were any |
| `Engine.RotationEngine.Undo` | worker/rotation/engine.py:352-376 | one compensation and the commit of its outcome |
| `Engine.RotationEngine.FindNextStep` | worker/rotation/engine.py:430-435 | the scan returns the pending step with the lowest idx |
| `Engine.RotationEngine.VerifyGate` | worker/rotation/gate.py:45-85 | the gate opens exactly when no verify step is in a status other than done |
| `Engine.RotationEngine.SetRotationStatus` | worker/rotation/engine.py:438-455 | the status update is one durable effect and changes nothing else |
| `Engine.RotationEngine.SetStepStatus` | worker/rotation/engine.py:222-257 | a step's status, and the new reference if there is one, are one durable effect |
| `Engine.RotationEngine.ConfirmStep` | api/routers/rotations.py:249-267 | confirming clears the flag of that step and changes nothing else |
| `Engine.RotationEngine.SimulateFailure` | api/services/demo.py:387-417 | the bulk updates leave steps 0 and 1 compensated, 2 done, 3 failed, and the rotation rolled back |
| `Connectors.ExecuteStep` | worker/rotation/steps.py:38-76 | dispatch by kind; effects on keys and store, and success, as specified for every combination of connector answers |
| `Connectors.ProvisionKey` | worker/rotation/steps.py:81-140 | a key created before the store write fails stays; the reference is returned only on success |
| `Connectors.DistributeSecret` | worker/rotation/steps.py:143-178 | writes the placeholder where the new reference points, or does nothing without a reference |
| `Connectors.VerifySecret` | worker/rotation/steps.py:181-209 | fails on a refusal or an exception, passes without a reference |
| `Connectors.RevokeKey` | worker/rotation/steps.py:212-246 | disable, then delete; a failing delete leaves the key disabled |
| `Connectors.CompensateStep` | worker/rotation/steps.py:251-305 | only a provision step with a stored reference calls the cloud, and only that call can fail |
| `Connectors.StoreConnector.WriteNewVersion` | worker/rotation/sandbox.py:67-71 | stores the value or, if it raises, nothing |
| `EngineSpec.CrashPoint` | worker/rotation/engine.py:133-289 | what a crash after k effects leaves is the replay of those k effects |
| `Effects.EveryEffect` | worker/rotation/engine.py:195-392 | what every entry of every run's log does to store, keys, rotation status and each step, field by field, and that it changes nothing else |
| `Effects.ReferenceRecorded` | worker/rotation/engine.py:234-249 | only a recorded provision sets the reference, to the plan's path and the key that its execution created |
| `Effects.CallOnStep` | worker/rotation/engine.py:152-219 | for every row with a pending step: a call pauses exactly on a flagged step when it is not already waiting, blocks exactly on a revoke with an open verify, and otherwise executes the step |
| `Effects.CallAfterExecution` | worker/rotation/engine.py:221-314 | what the call records then, when it completes the rotation, when it rolls back, and when it asks to be enqueued again |
| `Effects.CallWithoutStep` | worker/rotation/engine.py:131-150 | without a pending step a call completes a non-empty rotation whose steps are all done and otherwise does nothing |
| `Effects.CallGuards` | worker/rotation/engine.py:99-123 | an ended rotation is left alone, an expired plan that waits for approval is declared expired |
| `RotationTypes.FirstPending` | worker/rotation/engine.py:430-435 | the lowest pending index, or the number of steps |
| `RotationTypes.DoneDescending` | worker/rotation/engine.py:339-343 | exactly the done steps, in strictly decreasing idx |
| `Machine.AdvanceLegal` | worker/rotation/engine.py:99-392 | every effect of every call happens under the condition stated for it: due step, open gate, flag cleared or pause committed, success before `.done`, and so on |
| `Machine.ActLegal` | api/routers/rotations.py:131-277 | the same for API actions and for calls cut short by a crash |
| `Machine.RunLegal` | worker/jobs/run_rotation_step.py:72-105 | in every run every effect meets its condition, and the rows are the replay of the log |
| `Safety.VerifyBeforeRevoke` | worker/rotation/gate.py:59-83 | whenever a revoke executes, in any run with any crashes, every verify step is done, and earlier it executed, the store answered that the new credential is good (if there was one to check), and that was committed |
| `Safety.RevokeNeedsVerifies` | worker/rotation/gate.py:59-83 | the same on every legal log |
| `Safety.DoneOnceThenNeverRuns` | worker/rotation/engine.py:221-257 | at most one `.done` record per step, and no execution after it |
| `Safety.DoneHasRecord` | worker/rotation/engine.py:221-257 | at every commit of every run without a simulated failure, a step is done only through a committed execution all of whose connector calls answered as they should |
| `Safety.RecordedAsAnswered` | worker/rotation/steps.py:81-246 | a result is recorded right after an execution, and as done exactly if all calls answered: a created key and a kept write, a kept write, a positive verification, both revoking calls |
| `Safety.RefusedIsNeverDone` | worker/rotation/steps.py:201-203 | a verify step whose check was refused or raised, with a reference, is never recorded done |
| `Safety.StartedStatus` | worker/rotation/engine.py:40-45 | the rotation status that each kind of step starts with |
| `Safety.TerminalIsLast` | worker/rotation/engine.py:99-103 | nothing durable happens after a terminal status |
| `Safety.MisorderedNeverRuns` | worker/rotation/engine.py:177-193 | a revoke that some verify follows never executes, nor do later steps, and the rotation never completes |
| `Safety.PrefixInvariant` | worker/rotation/engine.py:133-134 | until the first failure the steps are done up to some index and pending from there, at every commit |
| `Safety.LocalTestIsGlobal` | worker/rotation/engine.py:263-278 | the test for a pending step with a greater idx agrees with all steps being done |
| `Safety.PauseInvariant` | worker/rotation/engine.py:152-193 | in `awaiting_confirmation` the engine last stopped on the step that is due now and has executed nothing since |
| `Safety.AwaitingMeansStopped` | worker/rotation/engine.py:152-193 | the same at every commit of the run; on a flagged step the stop was a pause |
| `Safety.FlaggedRunsOnlyAfterPause` | worker/rotation/engine.py:155-174 | a step with its flag set executes only after a pause on exactly that step with no execution in between |
| `Recovery.CompletedAllDoneIff` | worker/rotation/engine.py:134-148 | in any run, a completed rotation has every step done exactly when no step ever failed |
| `Recovery.CompletedAllDoneIffClean` | worker/rotation/engine.py:288-392 | a completed rotation has every step done if and only if no worker died between a failed step's commit and the end of its rollback |
| `Recovery.CrashInHandlingCompletes` | worker/rotation/engine.py:290-384 | a run that completes with a failed step, after a crash in failure handling |
| `Recovery.CompletedMeansAllDone` | worker/rotation/engine.py:134-148 | without such a crash, completed means every step is done |
| `Recovery.GateNeverBlocks` | worker/rotation/gate.py:59-83 | if the plan has all verifies before all revokes, the gate never blocks |
| `Recovery.NextCallRepairs` | worker/rotation/engine.py:133-148 | a crash between the last step's commit and the `completed` commit is repaired by the next call, whatever the connectors answer |
| `Recovery.FailureTail` | worker/rotation/engine.py:288-392 | after a committed failure a call does nothing but its rollback |
| `CrashFree.CrashesAddNoVectors` | worker/rotation/engine.py:195-289 | every vector of step statuses that a run with crashes commits is committed by a run without crashes |
| `CrashFree.MirrorLog` | worker/rotation/engine.py:195-286 | the crash-free run that has done the same steps and stored the same reference |
| `CrashFree.CleanTail` | worker/rotation/engine.py:288-392 | the log of a run with a failed step ends with the whole rollback of that step |
| `CrashFree.StatusesFollow` | worker/rotation/engine.py:357-374 | equal status vectors stay equal under equal effects |
| `Vectors.CleanRunsAreOrdered` | worker/rotation/engine.py:339-374 | without a crash in failure handling no commit shows a done step above a failed one |
| `Vectors.CrashInHandlingAddsVector` | worker/rotation/engine.py:290-384 | the vector that such a crash leads to, failed then done, is committed by no crash-free run |
| `Vectors.VectorsExactly` | worker/rotation/engine.py:195-392 | the vectors of step statuses that crash-free runs commit, and those that runs without a crash in failure handling commit, are exactly the described ones: steps done in order as far as the gates allow, a possible failure and its rollback from the top with each possible outcome, or the simulated failure |
| `Vectors.RollbackUpTo` | worker/rotation/engine.py:339-374 | the step statuses after any number of compensations of a rollback |
| `Confirmation.FlagMeansUnconfirmed` | api/routers/rotations.py:249-260 | a flag is cleared by the confirmation of its step and by nothing else |
| `Confirmation.SkipsConfirmationIff` | worker/rotation/engine.py:155-174 | a call executes a step whose flag is set exactly when it starts in `awaiting_confirmation` with that step due and its gate open |
| `Confirmation.FlaggedRunsOnlyWhenConfirmed` | api/routers/rotations.py:201-277 | in careful runs every execution of an initially flagged step follows a confirmation of that step |
| `Confirmation.ConfirmedFirstIff` | worker/rotation/engine.py:155-193 | in any run at all, every execution of an initially flagged step follows its confirmation if and only if no delivered job starts in a pause on a flagged step whose gate is open and lives to execute it |
| `Confirmation.TwoApprovalsSkip` | api/routers/rotations.py:131-154 | two approvals let a flagged step run unconfirmed |
| `Confirmation.RedeliverySkips` | worker/rotation/engine.py:156-174 | so does redelivering a job that died after its pause |
| `Confirmation.ConfirmingAnotherStepSkips` | api/routers/rotations.py:222-240 | so does confirming another pending step |
| `Expiry.ExpiredRunsIff` | worker/rotation/engine.py:105-193 | a call that finds the plan expired executes step i exactly when the status is past `pending_approval`, not terminal, and step i is due, not held by its flag and not by the gate |
| `Expiry.ExpiresExactly` | worker/rotation/engine.py:105-123 | in `pending_approval` a call declares the plan expired, and does nothing else, exactly if there is an expiry time strictly before the clock |
| `Expiry.FirstJobStarts` | worker/rotation/engine.py:105-219 | otherwise the first job after an approval executes a plain first step |
| `Expiry.ExpiredRunsNothingIff` | worker/rotation/engine.py:105-219 | in any run whose jobs all come after the expiry, nothing executes if and only if no delivered job meets that condition and lives to the execution |
| `Expiry.ExpiredNeverRuns` | worker/rotation/engine.py:105-123 | such a run executes nothing if no job is delivered in `needs_replan`, whatever else happens |
| `Expiry.ExpiredNeverRunsIff` | worker/rotation/engine.py:48-51 | for a plan whose first step has no flag and no gate, and jobs that do not crash, it executes nothing if and only if no job is delivered in `needs_replan` |
| `Expiry.CarefulNeverReplans` | worker/rotation/engine.py:105-123 | in careful runs no job is |
| `Expiry.TwoApprovalsRunExpired` | api/routers/rotations.py:131-154 | two approvals of an expired plan execute it |
| `Outage.OldKeyUntilItsRevoke` | worker/rotation/steps.py:212-240 | in any run an old key is as it was until a revoke step that targets this key executes and its disable call succeeds |
| `Outage.OldKeyExactly` | worker/rotation/steps.py:238-239 | at every commit of every run, whatever failed and was rolled back: an old key is gone exactly if disable and delete of a revoke step on it succeeded, and an enabled one is as before exactly if no disable call on it succeeded |
| `Outage.AccountedAt` | worker/rotation/steps.py:106-133 | until the first failure the cloud holds the initial keys, the lost ones and the referenced one, and nothing else |
| `Outage.RollbackResidue` | worker/rotation/engine.py:341-386 | after a rollback before any revoke the cloud holds the initial keys, unchanged, and exactly the lost ones besides |
| `Outage.NoOutageIff` | worker/rotation/steps.py:262-277 | it is exactly as before if and only if no created key was lost |
| `Outage.LeakedExactly` | worker/rotation/steps.py:106-126 | the lost keys are those whose creation no `.done` record follows |
| `Outage.RejectionResidueIff` | api/routers/rotations.py:182-189 | after a rejection the cloud is as before exactly when no key was lost and provision was not done |
| `LostKeys.RolledBackWithLostKey` | worker/rotation/steps.py:107-126 | a run that meets every hypothesis of the residue theorems, is rolled back, and leaves the new key in the cloud |
| `LostKeys.RejectedWithNewKey` | api/routers/rotations.py:182-189 | a run that is rejected at the pause after provision and leaves the new key in the cloud |
| `StoredValue.StoreAt` | worker/rotation/steps.py:106-133 | at every commit of every legal log with a reference, the store holds at its path the placeholder if a distribute step has written since, and the material of its key otherwise |
| `StoredValue.StoreExactly` | worker/rotation/steps.py:158-171 | in every run the store holds the new credential if and only if no distribute step has written since provision was recorded, and the placeholder otherwise |
| `StoredValue.DoneHasRef` | worker/rotation/steps.py:106-133 | without a simulated failure a done provision step has left a reference |
| `StoredValue.ExecutesOnPlaceholder` | worker/rotation/steps.py:181-209 | before any failure, a step after a distribute step after provision executes on the placeholder, so a verify step there never looks at the new credential |
| `StoredValue.CompletedWithPlaceholder` | worker/rotation/steps.py:158-171 | with such a distribute step, a rotation that completes without a crash in failure handling leaves the placeholder in the store |
| `Rollback.UndoInOrder` | worker/rotation/engine.py:339-374 | the k-th compensation is of the k-th listed step, each once, whatever failed before |
| `Rollback.HighestFirst` | worker/rotation/engine.py:339-374 | in every run, interrupted rollbacks included, a compensation is of the highest step still done |
| `Rollback.RollbackOutcome` | worker/rotation/engine.py:317-392 | every done step ends compensated or failed by its own outcome, all others but the failed one stay, and the status says whether all succeeded |
| `Rollback.VerdictOutcome` | worker/rotation/engine.py:376-379 | `rolled_back` if and only if every compensation of a done step succeeds |
| `Progress.ChainBound` | worker/jobs/run_rotation_step.py:92-105 | a chain of self re-enqueues from p pending steps has at most max(1, p) calls, from any state |
| `Progress.ExactCost` | worker/rotation/engine.py:152-286 | a prompt run has completed exactly when n + c calls have run, for n steps of which c were flagged |
| `Progress.NeverStuck` | worker/rotation/engine.py:152-286 | until then exactly one of a job, an approval or a confirmation is possible |
| `Liveness.ChangesIff` | worker/jobs/run_rotation_step.py:92-105 | a run can still have a durable effect if and only if the rotation is live: not terminal, and waiting for the user or with a job outstanding that has work |
| `Liveness.CanEndIff` | worker/rotation/engine.py:48-51 | a rotation that is not terminal can still become so if and only if it is live |
| `Liveness.LostJobStrands` | worker/main.py:41-42 | one worker that dies after committing the running status, its job not delivered again, leaves a rotation neither terminal nor live |
| `Liveness.StrandedForever` | api/routers/secrets.py:166-185 | such a rotation stays as it is and no trigger ever creates another rotation of its secret |
| `Service.RotationService.RunRotationStep` | worker/jobs/run_rotation_step.py:71-105 | a delivered job is one machine step; each of its crash points is the corresponding crashed step; it gives the lock back |
| `Service.RotationService.Approve` | api/routers/rotations.py:118-160 | one machine step that enqueues a job and changes no row; 409 outside `pending_approval` |
| `Service.RotationService.Reject` | api/routers/rotations.py:163-198 | one machine step that changes the status to `rejected` and nothing else; 409 outside the two rejectable statuses |
| `Service.RotationService.Confirm` | api/routers/rotations.py:201-284 | one machine step that clears one flag and enqueues a job; the 404 and the two 409 cases |
| `Service.RotationService.SimulateFailure` | api/services/demo.py:342-417 | one machine step; refused without a rotation in `pending_approval` |
| `Registry.AtMostOneActive` | api/alembic/versions/0001_initial_schema.py:309-314 | over any interleaving of triggers and all other transitions, each secret has at most one non-terminal rotation |
| `Registry.RepeatedTrigger` | api/routers/secrets.py:166-185 | a repeated trigger finds exactly that rotation and changes nothing |
| `Registry.TriggerInsertsIff` | api/routers/secrets.py:166-251 | a trigger inserts its rotation exactly if every rotation of the secret has one of the six ended statuses |
| `Registry.TerminalForever` | worker/rotation/engine.py:99-103 | a terminal rotation keeps its rows for the rest of any run |
| `Registry.TerminalAbsorbs` | worker/rotation/engine.py:48-51 | no action on a terminal rotation has a durable effect |
| `Trigger.RotationTable.TriggerRotation` | api/routers/secrets.py:140-320 | refuses exactly the unknown secrets; otherwise returns the active rotation untouched or inserts one with the four steps, their flags and undo actions and an expiry 86400 seconds later; both are the registry's transition |
| `Trigger.CanonicalPlan` | api/routers/secrets.py:253-282 | the canonical plan meets the hypotheses of the theorems about plans |
| `Trigger.CanonicalCost` | api/routers/secrets.py:193-282 | approved and confirmed promptly, it completes after exactly six calls |
| `Trigger.CanonicalExpiry` | api/routers/secrets.py:189 | a rotation triggered at t is expired by no call until t + 86400, and by every later one that finds it waiting for approval |
| `Trigger.CanonicalStart` | api/routers/secrets.py:253-260 | the first job after an approval within the day executes provision |
| `Trigger.CanonicalConfirms` | api/routers/secrets.py:261-281 | in careful runs distribute and revoke execute only after a confirmation of that step |
| `Trigger.CanonicalRevokesNoOldKey` | api/routers/secrets.py:276-282 | no run of it disables or deletes an existing key other than the fallback one |
| `Trigger.CanonicalVerifiesPlaceholder` | api/routers/secrets.py:253-282 | the verify step of a triggered rotation executes on the placeholder, and a completed one leaves it in the store |
| `Lock.RotationLock.Acquire` | worker/rotation/lock.py:59-80 | succeeds exactly when no live entry exists, and then writes its own, which lives for 300000 ms |
| `Lock.RotationLock.Release` | worker/rotation/lock.py:82-103 | removes the entry exactly when it is live and owned by this rotation |
| `Lock.ExclusiveWhenTimely` | worker/rotation/lock.py:59-103 | if no job outlives its entry, at most one job per secret is inside the engine, in every interleaving |
| `Lock.ExclusiveIff` | worker/rotation/lock.py:24 | the lock excludes in every interleaving if and only if the job timeout is at most the TTL |
| `Lock.ConfiguredLockExcludes` | worker/main.py:41 | with 300 s and 300000 ms it does |
| `Lock.Overlap` | worker/rotation/lock.py:59-80 | with a longer timeout, a run with two jobs inside |
| `Lock.OnlyOwnerRemoves` | worker/rotation/lock.py:82-97 | with no timing assumption, a live entry changes only by a release of a job of its own rotation |
| `Lock.LateReleaseUnlocks` | worker/rotation/lock.py:66-71 | with a longer timeout, a late release removes the entry of a later job of the same rotation |
| `Lock.EntryKeptIff` | worker/rotation/lock.py:59-103 | in every interleaving a job that is inside still has the entry of its secret if and only if the job timeout is at most the TTL |
| `Lock.DeadHolderExpires` | worker/rotation/lock.py:59-80 | a dead holder blocks its secret no longer than the TTL |
| `Interleaving.Serializable` | worker/jobs/run_rotation_step.py:71-105 | if no job outlives its lock entry, every interleaving of lock operations, single effects of several calls, cancellations, deaths, redeliveries and requests has the rows, the log and exactly the outstanding jobs of a run in which each call is one action, at times when calls began or jobs died |
| `Interleaving.SerializableIff` | worker/rotation/lock.py:24 | this holds for all interleavings if and only if the job timeout is at most the TTL |
| `Interleaving.DoneTwice` | worker/rotation/lock.py:59-103 | with a longer timeout, two calls under way at once that both record the first step as done |
| `Interleaving.InterleavedVerifyBeforeRevoke` | worker/rotation/gate.py:59-83 | verify before revoke, in every interleaving |
| `Interleaving.InterleavedExpiry` | worker/rotation/engine.py:105-123 | when all calls begin after the expiry, the exact condition for executing nothing applies to the interleaving |
| `AuditChain.Session.Audit` | api/audit/log.py:72-117 | appends the row computed from the row of the workspace with the highest visible id |
| `AuditChain.Session.Seed` | api/services/demo.py:285-303 | the seeding loop leaves a valid chain of its entries, in order |
| `AuditChain.LatestIsLast` | worker/audit.py:55-65 | on a chain, the row with the highest id is the last one |
| `AuditChain.ChainExtends` | worker/audit.py:66-102 | a row computed from the head extends the chain |
| `AuditChain.NoFork` | api/audit/log.py:72-117 | for any interleaving of transactions, several appends each, committed or aborted, the committed rows of a workspace form one chain from 64 zeros in strictly increasing id order, each hash being that of the previous hash followed by the payload, and the next writer reads its end |
| `AuditLedger.Conservation` | api/audit/log.py:104-117 | the committed payloads are exactly those that committed transactions wrote, in order of commit, read off the statements alone; per workspace too |
| `AuditLedger.KeptMeans` | api/routers/rotations.py:138-145 | a payload is kept exactly if some statement wrote it and the first end of its transaction is a commit |
| `AuditLedger.AlwaysAgrees` | api/audit/log.py:72-86 | which transactions are open, which workspaces known, which locks held and what each transaction has written, read off the statements alone |
| `AuditLedger.CommittedGrows` | api/audit/log.py:116-117 | the committed log of a longer run extends that of a shorter one |
| `AuditLedger.OwnTransaction` | api/audit/log.py:72-117 | a transaction that appends twice to a known, unlocked workspace adds exactly these two payloads when it commits and nothing when it aborts |
| `AuditLedger.NewWorkspace` | api/services/demo.py:285-303 | a transaction that creates and seeds a workspace adds exactly the seeded payload and makes the workspace known |
| `AuditChain.ChainAscends` | api/audit/log.py:80-86 | on a chain any two rows are in strict id order |
| `AuditChain.SplitInput` | api/audit/log.py:47-50 | equal hashes mean equal previous hashes and equal payloads |
| `AuditChain.HeadCommitsToHistory` | api/audit/log.py:86-102 | two valid logs with the same head hold the same payloads in order; the length need not be assumed if the zero string is no hash |
| `EventStream.ReadLoop` | web/src/lib/use-sse.ts:56-77 | for any chunks, dispatches what the complete lines of the whole text dispatch and keeps the unfinished one |
| `EventStream.DispatchLines` | web/src/lib/use-sse.ts:66-76 | the loop over the complete lines |
| `EventStream.ReadTwice` | web/src/lib/use-sse.ts:58-77 | two ways to cut the same text dispatch the same events |
| `EventStream.SplitAppend` | web/src/lib/use-sse.ts:62-64 | splitting can be resumed from the unfinished line |
| `EventStream.Served` | api/streaming/sse.py:66-72 | the messages up to the first JSON array, which ends the stream |
| `EventStream.AllServedIff` | api/streaming/sse.py:66-72 | all messages with data are served if and only if none is an array |
| `EventStream.EventLoop` | api/streaming/sse.py:47-75 | the concatenation of the frames yielded for any messages is the stream of what the served ones decode to |
| `EventStream.FrameDispatches` | api/streaming/sse.py:74-75 | the lines of a frame dispatch its data once and nothing else |
| `EventStream.StreamDispatches` | api/streaming/sse.py:47-75 | the whole stream dispatches the data of each message once, in order, and keep-alives nothing |
| `EventStream.TrimMeans` | web/src/lib/use-sse.ts:68 | trimming takes all white space off both ends and nothing else |
| `EventStream.ObjectReceived` | web/src/lib/use-sse.ts:68-75 | trimming leaves a JSON object as it is |
| `EventStream.EndToEnd` | api/streaming/sse.py:47-75 | server loop, network and client loop together: for any messages and any way to cut the text, exactly the objects of the served messages, once each, in order, and nothing left over; no published message is lost if and only if none is an array |
| `EventStandard.StandardReads` | api/streaming/sse.py:74-75 | a parser of section 9.2.6 of the WHATWG HTML standard reads the stream as the published messages, once each, in order, with their types and consecutive ids |
| `EventStandard.FrameIsEvent` | api/streaming/sse.py:75 | a frame is one event of the standard with this id, type and data |
| `EventStandard.DigitsAreTheNumber` | api/streaming/sse.py:75 | the id is the decimal numeral of its number |
| `EventStandard.TypesKept` | api/streaming/sse.py:66-72 | a message keeps its type and data; an untyped object and anything else that is no array are of type `event` |
| `EventStream.CutStream` | web/src/lib/use-sse.ts:58-64 | a stream cut at any character has dispatched a prefix of them |
| `BlastRadius.BlastRadiusBuilder.Build` | worker/blastradius/builder.py:97-206 | the result is a tree of depth at most two rooted at the secret, one node and one edge per resource in order with their labels, environments and confidences, an optional store node, and the coverage thresholds |
| `BlastRadius.GrownIsTree` | worker/blastradius/builder.py:110-191 | adding each node with one edge from the secret or the principal gives distinct nodes, one incoming edge each, and exactly one walk from the root to each |
| `BlastRadius.InferEnv` | worker/blastradius/builder.py:249-258 | the stated environment if it is neither empty nor unknown; otherwise a listed name that occurs in the lower-cased ARN while no name listed before it does, or unknown if none does |
| `BlastRadius.EnvOnce` | worker/blastradius/builder.py:255-258 | there is exactly one such environment |
| `BlastRadius.EnvExactly` | worker/blastradius/builder.py:254-258 | the order of precedence of the five names, each with its exact condition |
| `BlastRadius.SegmentStart` | worker/blastradius/builder.py:125 | the label is what follows the last colon |
| `BlastRadius.BlastRadiusBuilder.AttrsSay` | worker/blastradius/builder.py:114-180 | the attributes of the nodes, entry by entry |
| `BlastRadius.PrivilegedServices` | worker/blastradius/builder.py:28 | the services that count as privileged in the graph |
| `Severity.Score` | worker/severity/engine.py:103-145 | the score is at most 100 and is the raw score rounded to the nearest integer, halves to even |
| `Severity.RoundsOnce` | worker/severity/engine.py:130 | there is only one such integer |
| `Severity.RoundsMonotone` | worker/severity/engine.py:129-130 | a raw score that is not smaller in either part never rounds to less |
| `Severity.ScoreMonotone` | worker/severity/engine.py:147-160 | more resources or more privilege never lower the score or the bucket |
| `Severity.Saturates` | worker/severity/engine.py:147-160 | from 127 effective resources on the counts no longer matter |
| `Severity.TopScore` | worker/severity/engine.py:125-131 | a publicly leaked production secret scores 100 there |
| `Severity.InactiveNotCritical` | worker/severity/engine.py:162-166 | an inactive secret scores at most 74 and is never critical |
| `Severity.BucketExactly` | worker/severity/engine.py:169-173 | the raw scores at which each bucket begins: from 79.5, from 59.5, above 34.5 |
| `Severity.DoubledRounds` | worker/severity/engine.py:157-160 | doubling the argument of the logarithm adds at most six to the rounded score |
| `Severity.DoublingAddsSix` | worker/severity/engine.py:147-160 | diminishing returns: doubling the reach adds at most six points |
| `SeverityLaws.ProductionOverStaging` | worker/severity/engine.py:37-46 | all else equal, `prod` and `production` score alike and exactly 10 more than `staging` |
| `SeverityLaws.StagingOverUnknown` | worker/severity/engine.py:37-46 | `staging` scores 2 or 3 more than `unknown`, which scores like any unlisted environment |
| `SeverityLaws.UnknownOverDevelopment` | worker/severity/engine.py:37-46 | `unknown` scores 4 to 6 more than `dev` and `development`, which score alike |
| `SeverityLaws.DevelopmentOverTest` | worker/severity/engine.py:37-46 | `dev` scores 2 or 3 more than `test` |
| `SeverityLaws.LeakOverConfirmedOverLive` | worker/severity/engine.py:49-58 | `public_leak` scores more than `confirmed`, that 3 or 4 more than `live_inferred` |
| `SeverityLaws.LiveOverUnknownOverInactive` | worker/severity/engine.py:49-58 | `live_inferred` scores 6 to 8 more than `unknown`, which scores like `suspected` and any unlisted one and exactly 14 more than `inactive` |
| `SeverityLaws.TypeOrder` | worker/severity/engine.py:61-70 | the three classes of secret types and the rest: strictly ordered, alike within a class, and without effect on a public leak |
| `SeverityLaws.FullReachIsForty` | worker/severity/engine.py:147-160 | from 127 effective resources on, the reach is worth exactly 40 points |
| `SeverityLaws.ReachAtPowers` | worker/severity/engine.py:147-160 | with 2^k - 1 effective resources the raw score is 40 k / 7 points above that of the labels |
| `SeverityLaws.NoReach` | worker/severity/engine.py:125-131 | without reach the score is the points of the labels to the nearest integer, halves to even |
| `SeverityLaws.AbsolutePoints` | worker/severity/engine.py:125-131 | three scores without reach: 60 for a leaked production secret, 30, and 8 for an inactive test one |
| `SeverityLaws.Gap` | worker/severity/engine.py:129-130 | d more quarter points are worth d / 4 points, up to the rounding of both |
| `Investigation.PrivilegedTypes` | worker/agents/nodes/blast_radius.py:25 | the services that count as privileged in the score |
| `Investigation.GraphShowsScoreIff` | worker/agents/nodes/blast_radius.py:107-110 | the graph flags as many privileged resources as the score counts exactly when none is an ec2 one |
| `Investigation.MoreReachNeverLess` | worker/agents/nodes/severity.py:43-52 | finding more resources, anywhere in the list, never lowers score or bucket |

## Left out

- Engine.RotationEngine.AdvanceRotation: an API write that falls between two commits of a running call is not modelled; API actions come before or after the whole call (or its crash). The `not_found` reply, `message`, `error`, `executed_at` and `next_step_idx` are not modelled; the job only logs and returns them.
- Connectors.ExecuteStep: unknown step kinds, which the database enum excludes, and missing connectors, which the job never passes, are not modelled; a raising connector call is taken to change nothing.
- Connectors.ExecuteStep: the sandbox cloud returns one constant key id; the model allows any id, and `FreshKeys` is a hypothesis only where it is needed.
- Recovery.CompletedMeansAllDone: excludes crashes inside failure handling; `Recovery.CompletedAllDoneIffClean` shows that this is exactly the condition.
- CrashFree.CrashesAddNoVectors: excludes crashes inside failure handling (`Vectors.CrashInHandlingAddsVector` shows that it must), and compares step statuses, not rotation statuses or world states.
- AuditChain.Session.Audit: the columns are one `body` string; the stored `created_at` column, which differs from the hashed one, is not modelled, nor are empty hashes, which SHA-256 never yields.
- Severity.Score: exact arithmetic instead of floating point; lower-casing is an arbitrary function; the factor breakdown and the explanation are not modelled.
- EventStream.EndToEnd: starts from decoded characters; UTF-8 decoding, reconnects and the one-hour limit are not modelled.
- Service.RotationService.Approve: the 404 for an unknown rotation is not modelled; the service is that of one existing rotation.
- Service.RotationService.Reject: the 404 for an unknown rotation is not modelled, as for Approve.
- Service.RotationService.Confirm: the 404 for an unknown rotation is not modelled, as for Approve; the one for an unknown step is.
- Service.RotationService.SimulateFailure: the replies for a missing demo workspace and for no pending rotation are one.
- Trigger.RotationTable.TriggerRotation: the plan and coverage documents are reduced to the store path and the steps.
- EventStandard.StandardReads: lines end in a line feed only, as the server writes them; data and types without carriage returns.
- EventStream.EventLoop: the deadline is the length of the list of messages; JSON itself is the abstract `load`.
- Interleaving.Serializable: a request that falls between two effects of a call under way is not modelled.
- Registry.AtMostOneActive: the insert and the step rows of one trigger are one transaction, as in the source; the error reply of a lost race is not modelled.
- Lock: `extend` is never called; Redis failover, clock skew and threads that outlive a cancelled job are outside.
- Step statuses `running` and `awaiting_confirmation`, which no code path writes.
- SQL, sessions, roles, tokens, publishing, logging, tracing, and the HTTP layer beyond status codes.
- The agent pipeline, guardrails, triage, ARN parsing, policies, the demo sweeper and the user interface: short branches with easy facts.
- Behaviour that only the specifications promise: re-validation before distribute, the replan reaper, the abort endpoint, the audit verifier.
