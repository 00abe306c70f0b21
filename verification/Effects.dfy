/** What each entry of a run's log does to the rows and to the outside world, and what one call
    does with a given row, written out field by field. */
module Effects {
  import opened RotationTypes
  import opened EngineSpec
  import opened Machine
  import opened Safety
  import opened Recovery

  // ---- one entry of the log ----

  /** The store changes only by a kept write: provision puts the created key's material at the
      plan's path, distribute the placeholder at the reference's path. */
  predicate StoreEffect(s: Sys, e: Event, t: Sys) {
    if e.Executed? && e.i < |s.row.steps| && s.row.steps[e.i].kind == Provision
       && e.out.create != None && s.row.planPath != None && e.out.writeOk
    then t.world.store == s.world.store[s.row.planPath.value := Material(e.out.create.value)]
    else if e.Executed? && e.i < |s.row.steps| && s.row.steps[e.i].kind == Distribute
            && s.row.newRef != None && e.out.writeOk
    then t.world.store == s.world.store[s.row.newRef.value.path := Placeholder]
    else t.world.store == s.world.store
  }

  /** The cloud changes only by an answered create, by the revoking calls on the step's own
      key, and by the compensation of a provision step that deletes the referenced key. */
  predicate KeysEffect(s: Sys, e: Event, t: Sys) {
    var keys := s.world.keys;
    if e.Executed? && e.i < |s.row.steps| && s.row.steps[e.i].kind == Provision && e.out.create != None
    then t.world.keys == keys[e.out.create.value := true]
    else if e.Executed? && e.i < |s.row.steps| && s.row.steps[e.i].kind == Revoke && e.out.disableOk
    then
      var key := s.row.steps[e.i].keyId;
      if e.out.deleteOk then t.world.keys == keys - {key}
      else if key in keys then t.world.keys == keys[key := false]
      else t.world.keys == keys
    else if e.UndoRan? && e.ok && e.i < |s.row.steps| && s.row.steps[e.i].kind == Provision
            && s.row.steps[e.i].undo == DeleteNewKey && s.row.newRef != None
    then t.world.keys == keys - {s.row.newRef.value.keyId}
    else t.world.keys == keys
  }

  function Running(kind: Kind): RotationStatus {
    match kind
    case Provision => Provisioning
    case Distribute => Distributing
    case Verify => Verifying
    case Revoke => Revoking
  }

  predicate StatusEffect(s: Sys, e: Event, t: Sys) {
    match e
    case PlanExpired => t.row.status == NeedsReplan
    case Paused(_) => t.row.status == AwaitingConfirmation
    case Blocked(_) => t.row.status == AwaitingConfirmation
    case RollbackStarted => t.row.status == RollingBack
    case RejectedByUser => t.row.status == Rejected
    case Simulated => t.row.status == RolledBack
    case Finished(status) => t.row.status == status && status in {Completed, RolledBack, RollbackFailed}
    case Started(i) => i < |s.row.steps| && t.row.status == Running(s.row.steps[i].kind)
    case _ => t.row.status == s.row.status
  }

  predicate StepsEffect(s: Sys, e: Event, t: Sys) {
    && |t.row.steps| == |s.row.steps|
    && forall j :: 0 <= j < |s.row.steps| ==>
         && t.row.steps[j].kind == s.row.steps[j].kind && t.row.steps[j].keyId == s.row.steps[j].keyId
         && t.row.steps[j].undo == s.row.steps[j].undo
         && t.row.steps[j].flagged == (s.row.steps[j].flagged && e != Confirmed(j))
         && (!e.Simulated? ==>
               t.row.steps[j].status ==
               if e.StepDone? && e.i == j then Done
               else if e.StepFailed? && e.i == j then StepStatus.Failed
               else if e == UndoStored(j, true) then Compensated
               else if e == UndoStored(j, false) then StepStatus.Failed
               else s.row.steps[j].status)
  }

  lemma WorldOf(s: Sys, e: Event)
    ensures StoreEffect(s, e, Apply(s, e)) && KeysEffect(s, e, Apply(s, e))
  {
  }

  lemma StatusOf(s: Sys, hist: seq<Event>, e: Event)
    requires Legal(s, hist, e)
    ensures StatusEffect(s, e, Apply(s, e))
  {
  }

  lemma StepsOf(s: Sys, e: Event)
    ensures StepsEffect(s, e, Apply(s, e))
  {
  }

  /** Every entry of every run's log has exactly these effects. */
  lemma EveryEffect(init: Sys, actions: seq<Action>, p: nat)
    requires p < |Run(init, actions).log|
    ensures var log := Run(init, actions).log;
            var s, e, t := At(init, log, p), log[p], At(init, log, p + 1);
            && StoreEffect(s, e, t) && KeysEffect(s, e, t) && StatusEffect(s, e, t) && StepsEffect(s, e, t)
  {
    hide Run, Legal, Apply, StoreEffect, KeysEffect, StatusEffect, StepsEffect;
    var log := Run(init, actions).log;
    RunLegal(init, actions);
    LogStep(init, log, p);
    WorldOf(At(init, log, p), log[p]);
    StatusOf(At(init, log, p), log[..p], log[p]);
    StepsOf(At(init, log, p), log[p]);
  }

  /** A provision step that is recorded done leaves a reference to the plan's path and to the
      key that its execution created; no other record changes the reference. */
  lemma ReferenceRecorded(init: Sys, actions: seq<Action>, p: nat)
    requires p < |Run(init, actions).log|
    ensures var log := Run(init, actions).log;
            var s, e, t := At(init, log, p), log[p], At(init, log, p + 1);
            if e.StepDone? && e.i < |s.row.steps| && s.row.steps[e.i].kind == Provision && s.row.planPath != None
            then p > 0 && log[p - 1].Executed? && log[p - 1].out.create != None
                 && t.row.newRef == Some(SecretRef(s.row.planPath.value, log[p - 1].out.create.value))
            else t.row.newRef == s.row.newRef
  {
    hide Run, Legal, Apply;
    var log := Run(init, actions).log;
    RunLegal(init, actions);
    LogStep(init, log, p);
    assert p > 0 ==> log[..p][p - 1] == log[p - 1];
    ReferenceStep(At(init, log, p), log[..p], log[p]);
  }

  lemma ReferenceStep(s: Sys, hist: seq<Event>, e: Event)
    requires Legal(s, hist, e)
    ensures if e.StepDone? && e.i < |s.row.steps| && s.row.steps[e.i].kind == Provision && s.row.planPath != None
            then hist != [] && hist[|hist| - 1].Executed? && hist[|hist| - 1].out.create != None
                 && Apply(s, e).row.newRef == Some(SecretRef(s.row.planPath.value, hist[|hist| - 1].out.create.value))
            else Apply(s, e).row.newRef == s.row.newRef
  {
  }

  // ---- one call ----

  /** The engine looks further than its guards. */
  predicate Proceeds(row: Row, now: int) {
    && row.status !in {Completed, RolledBack, RollbackFailed, Rejected, Abandoned, PlanFailed}
    && !(row.status == PendingApproval && row.expiresAt != None && row.expiresAt.value < now)
  }

  predicate LowestPending(row: Row, i: nat) {
    i < |row.steps| && row.steps[i].status == Pending && forall j :: 0 <= j < i ==> row.steps[j].status != Pending
  }

  predicate AllVerified(row: Row) {
    forall j :: 0 <= j < |row.steps| && row.steps[j].kind == Verify ==> row.steps[j].status == Done
  }

  lemma LowestIs(row: Row, i: nat)
    requires LowestPending(row, i)
    ensures FirstPending(row.steps) == i
  {
    FirstPendingIs(row.steps, i);
  }

  predicate Waits(row: Row, i: nat)
    requires i < |row.steps|
  {
    row.steps[i].flagged && row.status != AwaitingConfirmation
  }

  predicate Gated(row: Row, i: nat)
    requires i < |row.steps|
  {
    row.steps[i].kind == Revoke && !AllVerified(row)
  }

  /** What a call does first, for every row with a pending step: it pauses on a flagged step
      unless it is already waiting, blocks on a revoke with an open verify, and otherwise
      executes the step, after committing the running status if it is a new one. */
  lemma CallOnStep(row: Row, now: int, o: Oracle, i: nat)
    requires LowestPending(row, i) && Proceeds(row, now)
    ensures var events := AdvanceEvents(row, now, o);
            && (events == [Paused(i)] <==> Waits(row, i))
            && (events == [Blocked(i)] <==> !Waits(row, i) && Gated(row, i))
            && (|events| > 1 <==> !Waits(row, i) && !Gated(row, i))
            && (!Waits(row, i) && !Gated(row, i) ==>
                  || (events[0] == Executed(i, o.exec) && row.status == Running(row.steps[i].kind))
                  || (events[0] == Started(i) && events[1] == Executed(i, o.exec)
                      && row.status != Running(row.steps[i].kind)))
  {
    LowestIs(row, i);
    hide FirstPending;
    assert GateOpen(row.steps) <==> AllVerified(row);
    if !Waits(row, i) && !Gated(row, i) {
      assert AdvanceEvents(row, now, o) == RunEvents(row, i, o);
      hide AdvanceEvents, ResultEvents;
      ResultNotEmpty(row, i, o);
    }
  }

  lemma ResultNotEmpty(row: Row, i: nat, o: Oracle)
    requires i < |row.steps|
    ensures ResultEvents(row, i, o) != []
  {
  }

  /** All connector calls of the step answer as they should. */
  predicate AllAnswer(row: Row, i: nat, out: Outcome)
    requires i < |row.steps|
  {
    match row.steps[i].kind
    case Provision => out.create != None && (row.planPath == None || out.writeOk)
    case Distribute => row.newRef == None || out.writeOk
    case Verify => row.newRef == None || out.verify == Passed
    case Revoke => out.disableOk && out.deleteOk
  }

  /** After the execution the call records the step done and, if no later step is pending,
      completes the rotation; or it records the failure and rolls back. It asks to be enqueued
      again exactly if it recorded a step done and a later one is pending. */
  lemma CallAfterExecution(row: Row, now: int, o: Oracle, i: nat)
    requires LowestPending(row, i) && Proceeds(row, now) && !Waits(row, i) && !Gated(row, i)
    ensures var events := AdvanceEvents(row, now, o);
            var n := if row.status == Running(row.steps[i].kind) then 1 else 2;
            var later := exists j :: i < j < |row.steps| && row.steps[j].status == Pending;
            && |events| > n
            && (events[n].StepDone? <==> AllAnswer(row, i, o.exec)) && (events[n].StepDone? ==> events[n].i == i)
            && (AllAnswer(row, i, o.exec) ==>
                  events[n + 1..] == if later then [] else [Finished(Completed)])
            && (!AllAnswer(row, i, o.exec) ==>
                  |events| > n + 2 && events[n] == StepFailed(i) && events[n + 1] == RollbackStarted)
            && (Continues(row, now, o) <==> AllAnswer(row, i, o.exec) && later)
  {
    LowestIs(row, i);
    hide FirstPending;
    assert GateOpen(row.steps) <==> AllVerified(row);
    assert AdvanceEvents(row, now, o) == RunEvents(row, i, o);
    assert Continues(row, now, o) <==> StepOk(row.steps[i], row, o.exec) && PendingAfter(row.steps, i);
    assert StepOk(row.steps[i], row, o.exec) <==> AllAnswer(row, i, o.exec);
    hide AdvanceEvents, Continues, StepOk, AllAnswer, UndoEvents, RollbackVerdict, DoneDescending;
  }

  /** Without a pending step a call completes the rotation if every step is done, and in all
      other cases, an ended rotation and an empty one included, it does nothing. */
  lemma CallWithoutStep(row: Row, now: int, o: Oracle)
    requires forall i :: 0 <= i < |row.steps| ==> row.steps[i].status != Pending
    ensures var done := forall i :: 0 <= i < |row.steps| ==> row.steps[i].status == Done;
            && (Proceeds(row, now) ==>
                  AdvanceEvents(row, now, o) == if |row.steps| > 0 && done then [Finished(Completed)] else [])
            && !Continues(row, now, o)
  {
    FirstPendingIs(row.steps, |row.steps|);
    hide FirstPending;
  }

  /** The guards: an ended rotation is left alone, and a plan that waits for approval past its
      expiry time is declared expired. */
  lemma CallGuards(row: Row, now: int, o: Oracle)
    requires !Proceeds(row, now)
    ensures !Continues(row, now, o)
    ensures AdvanceEvents(row, now, o) == if row.status == PendingApproval then [PlanExpired] else []
  {
  }
}
