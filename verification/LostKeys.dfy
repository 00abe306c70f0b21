/** Two runs after which a new key is still in the cloud. */
module LostKeys {
  import opened RotationTypes
  import opened EngineSpec
  import opened Machine
  import opened Safety
  import opened Recovery
  import opened CrashFree
  import opened Outage

  /** A plan that provisions first and has not expired, and a key that is new. */
  predicate ProvisionsFirst(init: Sys, now: int, key: KeyId) {
    && Initial(init) && OneProvision(init.row, 0) && !init.row.steps[0].flagged
    && !Expired(init.row, now) && key !in init.world.keys
  }

  /** The run meets every hypothesis of the theorems about what is left in the cloud. */
  ghost predicate MeetsHypotheses(init: Sys, actions: seq<Action>) {
    var log := Run(init, actions).log;
    CleanRun(init, actions) && FreshKeys(init, log) && NoRevokeRan(init.row.steps, log) && NotSimulated(log, |log|)
  }

  // ---- the store write fails ----

  predicate WriteFails(o: Oracle, key: KeyId) {
    o.exec.create == Some(key) && !o.exec.writeOk
  }

  lemma NoneDoneYet(steps: seq<Step>, n: nat)
    requires n <= |steps| && forall i :: 0 <= i < |steps| ==> steps[i].status == Pending
    ensures DoneDescending(steps, n) == []
  {
  }

  lemma FailingEvents(init: Sys, now: int, o: Oracle, key: KeyId)
    requires ProvisionsFirst(init, now, key) && WriteFails(o, key)
    ensures AdvanceEvents(init.row, now, o) ==
            [Started(0), Executed(0, o.exec)] + [StepFailed(0), RollbackStarted, Finished(RolledBack)]
  {
    FirstPendingIs(init.row.steps, 0);
    NoneDoneYet(init.row.steps, |init.row.steps|);
    hide FirstPending, DoneDescending, Expired;
    assert UndoAllEvents(init.row, [], o.undoFails) == [Finished(RolledBack)];
    assert RollbackEvents(init.row, o.undoFails) == [RollbackStarted, Finished(RolledBack)];
  }

  lemma FailingReplay(init: Sys, now: int, o: Oracle, key: KeyId)
    requires ProvisionsFirst(init, now, key) && WriteFails(o, key)
    ensures var t := Replay(init, AdvanceEvents(init.row, now, o));
            t.row.status == RolledBack && t.world.keys == init.world.keys[key := true]
  {
    FailingEvents(init, now, o, key);
    hide AdvanceEvents, Replay;
    var first, tail := [Started(0), Executed(0, o.exec)], [StepFailed(0), RollbackStarted] + [Finished(RolledBack)];
    assert first + [StepFailed(0), RollbackStarted, Finished(RolledBack)] == first + tail;
    ReplayAppend(init, first, tail);
    ReplayTwo(init, Started(0), Executed(0, o.exec));
    var s := Apply(Apply(init, Started(0)), Executed(0, o.exec));
    assert s.world.keys == init.world.keys[key := true];
    ReplayAppend(s, [StepFailed(0), RollbackStarted], [Finished(RolledBack)]);
    ReplayTwo(s, StepFailed(0), RollbackStarted);
    ReplayOne(Apply(Apply(s, StepFailed(0)), RollbackStarted), Finished(RolledBack));
  }

  lemma FailingRun(init: Sys, now: int, o: Oracle, key: KeyId)
    requires ProvisionsFirst(init, now, key) && WriteFails(o, key)
    ensures var c := Run(init, [Approve(true), Job(now, o, Finishes)]);
            && c.log == [Approved] + AdvanceEvents(init.row, now, o)
            && c.db.row.status == RolledBack && c.db.world.keys == init.world.keys[key := true]
  {
    var job := Job(now, o, Finishes);
    hide Act, AdvanceEvents;
    assert [Approve(true), job][..1] == [Approve(true)] && [Approve(true)][..0] == [];
    RunLast(init, [Approve(true), job]);
    RunLast(init, [Approve(true)]);
    ApproveInitial(init);
    FailingReplay(init, now, o, key);
    hide Run, Replay;
    JobRuns(Config(init, 1, [Approved]), now, o);
  }

  lemma JobRuns(c: Config, now: int, o: Oracle)
    requires c.jobs > 0
    ensures var d := Act(c, Job(now, o, Finishes));
            d.db == Replay(c.db, AdvanceEvents(c.db.row, now, o)) && d.log == c.log + AdvanceEvents(c.db.row, now, o)
  {
    hide AdvanceEvents, Replay, Continues;
  }

  /** The rollback of a failed store write leaves the new key behind: the rotation is
      rolled back and the cloud is not as before. */
  lemma RolledBackWithLostKey(init: Sys, now: int, o: Oracle, key: KeyId)
    requires ProvisionsFirst(init, now, key) && WriteFails(o, key)
    ensures var actions := [Approve(true), Job(now, o, Finishes)];
            var c := Run(init, actions);
            && MeetsHypotheses(init, actions)
            && c.db.row.status == RolledBack
            && c.db.world.keys == init.world.keys[key := true] != init.world.keys
            && Leaked(init.row.steps, c.log) == {key}
  {
    var actions := [Approve(true), Job(now, o, Finishes)];
    FailingRun(init, now, o, key);
    FailingEvents(init, now, o, key);
    CrashFreeIsClean(init, actions);
    hide Run, AdvanceEvents, Leaked, CleanRun;
    var log := Run(init, actions).log;
    assert log == [Approved, Started(0), Executed(0, o.exec), StepFailed(0), RollbackStarted, Finished(RolledBack)];
    LostHere(init, log, o, key);
    assert init.world.keys[key := true] != init.world.keys;
  }

  lemma LostHere(init: Sys, log: seq<Event>, o: Oracle, key: KeyId)
    requires OneProvision(init.row, 0) && WriteFails(o, key) && key !in init.world.keys
    requires log == [Approved, Started(0), Executed(0, o.exec), StepFailed(0), RollbackStarted, Finished(RolledBack)]
    ensures FreshKeys(init, log) && NoRevokeRan(init.row.steps, log) && Leaked(init.row.steps, log) == {key}
  {
    hide Leaked;
    assert LostAt(init.row.steps, log, 2, key);
    forall k: KeyId
      ensures k in Leaked(init.row.steps, log) <==> k == key
    {
      LeakedExactly(init, log, k);
    }
  }

  // ---- the user rejects at the pause ----

  predicate Provisions(o: Oracle, key: KeyId) {
    o.exec.create == Some(key) && o.exec.writeOk
  }

  lemma ProvisioningEvents(init: Sys, now: int, o: Oracle, key: KeyId)
    requires ProvisionsFirst(init, now, key) && |init.row.steps| > 1 && Provisions(o, key)
    ensures AdvanceEvents(init.row, now, o) ==
            [Started(0), Executed(0, o.exec)] + [StepDone(0, Some(SecretRef(init.row.planPath.value, key)))]
    ensures Continues(init.row, now, o)
  {
    FirstPendingIs(init.row.steps, 0);
    assert init.row.steps[1].status == Pending;
  }

  lemma ProvisioningJob(init: Sys, now: int, o: Oracle, key: KeyId)
    requires ProvisionsFirst(init, now, key) && |init.row.steps| > 1 && Provisions(o, key)
    ensures var d := Act(Config(init, 1, [Approved]), Job(now, o, Finishes));
            && d.jobs == 1 && d.db.world.keys == init.world.keys[key := true]
            && d.db.row.status == Provisioning && d.db.row.steps == SetStep(init.row.steps, 0, Done)
            && d.db.row.expiresAt == init.row.expiresAt
            && d.log == [Approved, Started(0), Executed(0, o.exec),
                         StepDone(0, Some(SecretRef(init.row.planPath.value, key)))]
  {
    ProvisioningEvents(init, now, o, key);
    hide AdvanceEvents, Continues, Replay;
    var done := StepDone(0, Some(SecretRef(init.row.planPath.value, key)));
    ReplayAppend(init, [Started(0), Executed(0, o.exec)], [done]);
    ReplayTwo(init, Started(0), Executed(0, o.exec));
    ReplayOne(Apply(Apply(init, Started(0)), Executed(0, o.exec)), done);
  }

  lemma PausingJob(c: Config, now: int, o: Oracle)
    requires c.jobs == 1 && |c.db.row.steps| > 1 && Prefixed(c.db.row.steps, 1) && c.db.row.steps[1].flagged
    requires c.db.row.status == Provisioning && !Expired(c.db.row, now)
    ensures var d := Act(c, Job(now, o, Finishes));
            d.log == c.log + [Paused(1)] && d.db == WithStatus(c.db, AwaitingConfirmation)
  {
    PauseEvents(c.db.row, now, o, 1);
    ReplayOne(c.db, Paused(1));
  }

  lemma RejectedRun(init: Sys, now: int, o: Oracle, key: KeyId)
    requires ProvisionsFirst(init, now, key) && |init.row.steps| > 1 && Provisions(o, key)
    requires init.row.steps[1].flagged
    ensures var job := Job(now, o, Finishes);
            var c := Run(init, [Approve(true), job, job, Reject]);
            && c.log == [Approved, Started(0), Executed(0, o.exec),
                         StepDone(0, Some(SecretRef(init.row.planPath.value, key))), Paused(1), RejectedByUser]
            && c.db.row.status == Rejected && c.db.row.steps == SetStep(init.row.steps, 0, Done)
            && c.db.world.keys == init.world.keys[key := true]
  {
    hide Act, Run, OneProvision;
    var job := Job(now, o, Finishes);
    RunFour(init, Approve(true), job, job, Reject);
    ApproveInitial(init);
    var c1 := Config(init, 1, [Approved]);
    ProvisioningJob(init, now, o, key);
    PausingJob(Act(c1, job), now, o);
    RejectAtPause(Act(Act(c1, job), job));
  }

  /** Rejected at the pause after provision, the rotation leaves the new key behind. */
  lemma RejectedWithNewKey(init: Sys, now: int, o: Oracle, key: KeyId)
    requires ProvisionsFirst(init, now, key) && |init.row.steps| > 1 && Provisions(o, key)
    requires init.row.steps[1].flagged
    ensures var job := Job(now, o, Finishes);
            var actions := [Approve(true), job, job, Reject];
            var c := Run(init, actions);
            && MeetsHypotheses(init, actions)
            && c.db.row.status == Rejected
            && c.db.world.keys == init.world.keys[key := true] != init.world.keys
            && Leaked(init.row.steps, c.log) == {}
            && |c.db.row.steps| > 0 && c.db.row.steps[0].status == Done
  {
    var job := Job(now, o, Finishes);
    var actions := [Approve(true), job, job, Reject];
    RejectedRun(init, now, o, key);
    CrashFreeIsClean(init, actions);
    hide Run, Leaked, CleanRun;
    NothingLost(init, Run(init, actions).log, o, key);
    assert init.world.keys[key := true] != init.world.keys;
  }

  lemma RejectAtPause(c: Config)
    requires c.db.row.status == AwaitingConfirmation
    ensures Act(c, Reject).log == c.log + [RejectedByUser] && Act(c, Reject).db == WithStatus(c.db, Rejected)
  {
    ReplayOne(c.db, RejectedByUser);
  }

  lemma NothingLost(init: Sys, log: seq<Event>, o: Oracle, key: KeyId)
    requires OneProvision(init.row, 0) && Provisions(o, key) && key !in init.world.keys
    requires log == [Approved, Started(0), Executed(0, o.exec),
                     StepDone(0, Some(SecretRef(init.row.planPath.value, key))), Paused(1), RejectedByUser]
    ensures FreshKeys(init, log) && NoRevokeRan(init.row.steps, log) && Leaked(init.row.steps, log) == {}
  {
    hide Leaked;
    forall k: KeyId
      ensures k !in Leaked(init.row.steps, log)
    {
      LeakedExactly(init, log, k);
    }
  }
}
