/** Runs in which no worker dies while it handles a failed step. */
module Recovery {
  import opened RotationTypes
  import opened EngineSpec
  import opened Machine
  import opened Safety

  ghost predicate HandlesFailure(events: seq<Event>) {
    exists k :: 0 <= k < |events| && events[k].StepFailed?
  }

  /** A job that has committed a failed step gets to the end of its rollback. */
  ghost predicate CleanAct(c: Config, a: Action) {
    a.Job? && HandlesFailure(EventsOf(c, a)) ==> EventsOf(c, a) == AdvanceEvents(c.db.row, a.now, a.o)
  }

  ghost predicate CleanRun(init: Sys, actions: seq<Action>) {
    Throughout(CleanAct, init, actions)
  }

  predicate RolledUp(status: RotationStatus) {
    status == RolledBack || status == RollbackFailed
  }

  lemma LastStatus(s: Sys, events: seq<Event>, status: RotationStatus)
    requires events != [] && events[|events| - 1] == Finished(status)
    ensures Replay(s, events).row.status == status
  {
  }

  lemma NoStepFailed(row: Row, i: nat, o: Oracle)
    requires i < |row.steps| && StepOk(row.steps[i], row, o.exec)
    ensures !HandlesFailure(RunEvents(row, i, o))
  {
  }

  lemma FullFailure(s: Sys, now: int, o: Oracle)
    requires HandlesFailure(AdvanceEvents(s.row, now, o))
    ensures RolledUp(Replay(s, AdvanceEvents(s.row, now, o)).row.status)
  {
    var events, i := AdvanceEvents(s.row, now, o), FirstPending(s.row.steps);
    if StepOk(s.row.steps[i], s.row, o.exec) {
      NoStepFailed(s.row, i, o);
    }
    LastStatus(s, events, RollbackVerdict(s.row, DoneDescending(s.row.steps, |s.row.steps|), o.undoFails));
  }

  lemma NoFailureAppend(a: seq<Event>, b: seq<Event>)
    requires NoFailure(a, |a|) && NoFailure(b, |b|)
    ensures NoFailure(a + b, |a + b|)
  {
  }

  lemma CleanStep(c: Config, a: Action)
    requires CleanAct(c, a) && NoFailure(c.log, |c.log|)
    ensures NoFailure(Act(c, a).log, |Act(c, a).log|) || RolledUp(Act(c, a).db.row.status)
  {
    var events := EventsOf(c, a);
    if NoFailure(events, |events|) {
      NoFailureAppend(c.log, events);
    } else if a.Job? {
      ActLegal(c, a);
      JobHasNoSimulated(c, a);
      FullFailure(c.db, a.now, a.o);
    } else {
      assert events == [Simulated];
      ReplayOne(c.db, Simulated);
    }
  }

  predicate InRollback(e: Event) {
    e.RollbackStarted? || e.UndoRan? || e.UndoStored? || e.Finished?
  }

  predicate InRunningStep(e: Event) {
    InRollback(e) || e.Started? || e.Executed? || e.StepDone? || e.StepFailed?
  }

  lemma {:induction false} UndoKinds(row: Row, todo: seq<nat>, fails: set<nat>)
    requires InPlan(row, todo)
    ensures forall k :: 0 <= k < |UndoEvents(row, todo, fails)| ==> InRollback(UndoEvents(row, todo, fails)[k])
    decreases |todo|
  {
    if todo != [] {
      UndoKinds(row, todo[..|todo| - 1], fails);
    }
  }

  lemma RollbackKinds(row: Row, fails: set<nat>)
    ensures forall k :: 0 <= k < |RollbackEvents(row, fails)| ==> InRollback(RollbackEvents(row, fails)[k])
  {
    UndoKinds(row, DoneDescending(row.steps, |row.steps|), fails);
  }

  lemma RunKinds(row: Row, i: nat, o: Oracle)
    requires i < |row.steps|
    ensures forall k :: 0 <= k < |RunEvents(row, i, o)| ==> InRunningStep(RunEvents(row, i, o)[k])
  {
    RollbackKinds(row, o.undoFails);
    ResultKinds(row, i, o);
  }

  lemma ResultKinds(row: Row, i: nat, o: Oracle)
    requires i < |row.steps|
    requires forall k :: 0 <= k < |RollbackEvents(row, o.undoFails)| ==> InRollback(RollbackEvents(row, o.undoFails)[k])
    ensures forall k :: 0 <= k < |ResultEvents(row, i, o)| ==> InRunningStep(ResultEvents(row, i, o)[k])
  {
  }

  lemma AdvanceHasNoSimulated(row: Row, now: int, o: Oracle)
    ensures forall k :: 0 <= k < |AdvanceEvents(row, now, o)| ==> !AdvanceEvents(row, now, o)[k].Simulated?
  {
    var i := FirstPending(row.steps);
    if i < |row.steps| {
      RunKinds(row, i, o);
    }
  }

  lemma JobHasNoSimulated(c: Config, a: Action)
    requires a.Job?
    ensures forall k :: 0 <= k < |EventsOf(c, a)| ==> !EventsOf(c, a)[k].Simulated?
  {
    AdvanceHasNoSimulated(c.db.row, a.now, a.o);
  }

  lemma CleanKept(c: Config, a: Action)
    requires CleanAct(c, a) && (NoFailure(c.log, |c.log|) || RolledUp(c.db.row.status))
    ensures NoFailure(Act(c, a).log, |Act(c, a).log|) || RolledUp(Act(c, a).db.row.status)
  {
    if RolledUp(c.db.row.status) {
      assert EventsOf(c, a) == [];
    } else {
      CleanStep(c, a);
    }
  }

  lemma {:induction false} CleanOrRolledUp(init: Sys, actions: seq<Action>)
    requires CleanRun(init, actions)
    ensures var c := Run(init, actions); NoFailure(c.log, |c.log|) || RolledUp(c.db.row.status)
    decreases |actions|
  {
    if actions != [] {
      CleanOrRolledUp(init, actions[..|actions| - 1]);
      CleanKept(Run(init, actions[..|actions| - 1]), actions[|actions| - 1]);
    }
  }

  lemma CleanIsPrefixed(init: Sys, actions: seq<Action>)
    requires Initial(init) && CleanRun(init, actions) && !RolledUp(Run(init, actions).db.row.status)
    ensures NoFailure(Run(init, actions).log, |Run(init, actions).log|)
    ensures var steps := Run(init, actions).db.row.steps; Prefixed(steps, FirstPending(steps))
  {
    var c := Run(init, actions);
    RunLegal(init, actions);
    CleanOrRolledUp(init, actions);
    assert c.log[..|c.log|] == c.log;
    PrefixedUntilFailure(init, c.log, |c.log|);
  }

  lemma {:induction false} CompletedHasNoPending(init: Sys, log: seq<Event>)
    requires Initial(init) && LegalLog(init, log) && Replay(init, log).row.status == Completed
    ensures FirstPending(Replay(init, log).row.steps) == |init.row.steps|
  {
    assert log != [];
    LogStep(init, log, |log| - 1);
    assert log[..|log|] == log;
  }

  predicate Failed(steps: seq<Step>, i: nat) {
    i < |steps| && steps[i].status != Pending && steps[i].status != Done
  }

  lemma {:induction false} FailedStays(init: Sys, log: seq<Event>, q: nat, p: nat, i: nat)
    requires LegalLog(init, log) && q <= p <= |log| && Failed(At(init, log, q).row.steps, i)
    requires forall r :: q <= r < p ==> !log[r].Simulated?
    ensures Failed(At(init, log, p).row.steps, i)
    decreases p
  {
    hide Legal, Apply;
    if q < p {
      FailedStays(init, log, q, p - 1, i);
      LogStep(init, log, p - 1);
      FailedStep(At(init, log, p - 1), log[..p - 1], log[p - 1], i);
    }
  }

  lemma FailedStep(s: Sys, hist: seq<Event>, e: Event, i: nat)
    requires Legal(s, hist, e) && Failed(s.row.steps, i) && !e.Simulated?
    ensures Failed(Apply(s, e).row.steps, i)
  {
  }

  lemma SimulatedIsLast(init: Sys, actions: seq<Action>, r: nat)
    requires r < |Run(init, actions).log| && Run(init, actions).log[r].Simulated?
    ensures Run(init, actions).db.row.status == RolledBack
  {
    hide Run, Legal;
    var log := Run(init, actions).log;
    RunLegal(init, actions);
    LogStep(init, log, r);
    TerminalIsLast(init, actions, r + 1);
    assert log[..|log|] == log;
  }

  /** A completed rotation has every step done exactly when no step ever failed. */
  lemma CompletedAllDoneIff(init: Sys, actions: seq<Action>)
    requires Initial(init) && Run(init, actions).db.row.status == Completed
    ensures AllDone(Run(init, actions).db.row.steps)
            <==> NoFailure(Run(init, actions).log, |Run(init, actions).log|)
  {
    hide Run, Legal, Apply;
    var log := Run(init, actions).log;
    RunLegal(init, actions);
    assert log[..|log|] == log;
    forall r | 0 <= r < |log|
      ensures !log[r].Simulated?
    {
      if log[r].Simulated? {
        SimulatedIsLast(init, actions, r);
      }
    }
    if NoFailure(log, |log|) {
      PrefixedUntilFailure(init, log, |log|);
      CompletedHasNoPending(init, log);
    } else {
      var f :| 0 <= f < |log| && Failure(log[f]);
      LogStep(init, log, f);
      FailedHere(At(init, log, f), log[..f], log[f]);
      FailedStays(init, log, f + 1, |log|, log[f].i);
    }
  }

  lemma FailedHere(s: Sys, hist: seq<Event>, e: Event)
    requires Legal(s, hist, e) && e.StepFailed?
    ensures Failed(Apply(s, e).row.steps, e.i)
  {
  }

  /** Such a run exists: a worker dies right after it committed the failure of step 0, and
      the redelivered job runs the remaining step and completes the rotation. */
  lemma CrashInHandlingCompletes(init: Sys, now: int, bad: Oracle, good: Oracle)
    requires Initial(init) && |init.row.steps| == 2 && !init.row.steps[0].flagged && !init.row.steps[1].flagged
    requires init.row.steps[0].kind == Provision && init.row.steps[1].kind == Distribute
    requires !Expired(init.row, now) && bad.exec.create == None
    ensures var c := Run(init, [Approve(true), Job(now, bad, Crashes(3, 1)), Job(now, good, Finishes)]);
            |c.db.row.steps| == 2 && c.db.row.status == Completed
            && c.db.row.steps[0].status == StepStatus.Failed && c.db.row.steps[1].status == Done
  {
    hide Act;
    var crash, again := Job(now, bad, Crashes(3, 1)), Job(now, good, Finishes);
    RunThreeActions(init, Approve(true), crash, again);
    var c := Config(init, 1, [Approved]);
    ApproveInitial(init);
    DiesAfterFailing(c, now, bad);
    GoesOn(Act(c, crash), now, good);
  }

  lemma ApproveInitial(init: Sys)
    requires Initial(init)
    ensures Act(Config(init, 0, []), Approve(true)) == Config(init, 1, [Approved])
  {
    ReplayOne(init, Approved);
  }

  lemma RunTwoActions(init: Sys, a: Action, b: Action)
    ensures Run(init, [a, b]) == Act(Act(Config(init, 0, []), a), b)
  {
    hide Act;
    assert [a, b][..1] == [a] && [a][..0] == [];
    RunLast(init, [a, b]);
    RunLast(init, [a]);
  }

  lemma RunThreeActions(init: Sys, a: Action, b: Action, c: Action)
    ensures Run(init, [a, b, c]) == Act(Act(Act(Config(init, 0, []), a), b), c)
  {
    hide Act;
    assert [a, b, c][..2] == [a, b] && [a, b][..1] == [a] && [a][..0] == [];
    RunLast(init, [a, b, c]);
    RunLast(init, [a, b]);
    RunLast(init, [a]);
  }

  lemma RunFour(init: Sys, a: Action, b: Action, c: Action, d: Action)
    ensures Run(init, [a, b, c, d]) == Act(Act(Act(Act(Config(init, 0, []), a), b), c), d)
  {
    hide Act;
    assert [a, b, c, d][..3] == [a, b, c];
    RunLast(init, [a, b, c, d]);
    RunThreeActions(init, a, b, c);
  }

  lemma DiesAfterFailing(c: Config, now: int, o: Oracle)
    requires c.jobs == 1 && Initial(c.db) && |c.db.row.steps| == 2 && !Expired(c.db.row, now)
    requires c.db.row.steps[0].kind == Provision && !c.db.row.steps[0].flagged && o.exec.create == None
    ensures var d := Act(c, Job(now, o, Crashes(3, 1)));
            && d.jobs == 1 && d.db.row.status == Provisioning && d.db.row.newRef == None
            && d.db.row.steps == SetStep(c.db.row.steps, 0, StepStatus.Failed)
  {
    hide RollbackEvents;
    var events := AdvanceEvents(c.db.row, now, o);
    FirstPendingIs(c.db.row.steps, 0);
    assert events == [Started(0), Executed(0, o.exec)] + ([StepFailed(0)] + RollbackEvents(c.db.row, o.undoFails));
    assert events[..3] == [Started(0), Executed(0, o.exec)] + [StepFailed(0)];
    ReplayAppend(c.db, [Started(0), Executed(0, o.exec)], [StepFailed(0)]);
    ReplayTwo(c.db, Started(0), Executed(0, o.exec));
    ReplayOne(Apply(Apply(c.db, Started(0)), Executed(0, o.exec)), StepFailed(0));
  }

  lemma GoesOn(c: Config, now: int, o: Oracle)
    requires c.jobs == 1 && c.db.row.status == Provisioning && c.db.row.newRef == None && |c.db.row.steps| == 2
    requires c.db.row.steps[0].status == StepStatus.Failed
    requires c.db.row.steps[1].status == Pending && c.db.row.steps[1].kind == Distribute && !c.db.row.steps[1].flagged
    ensures var d := Act(c, Job(now, o, Finishes)).db.row;
            |d.steps| == 2 && d.status == Completed
            && d.steps[0].status == StepStatus.Failed && d.steps[1].status == Done
  {
    GoesOnEvents(c.db.row, now, o);
    hide AdvanceEvents, Continues;
    var first, done := [Started(1), Executed(1, o.exec)], [StepDone(1, None), Finished(Completed)];
    ReplayAppend(c.db, first, done);
    ReplayTwo(c.db, Started(1), Executed(1, o.exec));
    ReplayTwo(Apply(Apply(c.db, Started(1)), Executed(1, o.exec)), StepDone(1, None), Finished(Completed));
    hide Replay, WorldAfterEvent;
  }

  lemma GoesOnEvents(row: Row, now: int, o: Oracle)
    requires row.status == Provisioning && row.newRef == None && |row.steps| == 2
    requires row.steps[0].status == StepStatus.Failed
    requires row.steps[1].status == Pending && row.steps[1].kind == Distribute && !row.steps[1].flagged
    ensures AdvanceEvents(row, now, o) == [Started(1), Executed(1, o.exec)] + [StepDone(1, None), Finished(Completed)]
  {
    FirstPendingIs(row.steps, 1);
  }

  /** Without a crash in failure handling it always has. */
  lemma CompletedMeansAllDone(init: Sys, actions: seq<Action>)
    requires Initial(init) && CleanRun(init, actions)
    requires Run(init, actions).db.row.status == Completed
    ensures AllDone(Run(init, actions).db.row.steps)
    ensures forall i :: 0 <= i < |init.row.steps| ==>
              i < |Run(init, actions).db.row.steps| && Run(init, actions).db.row.steps[i].status == Done
  {
    RunLegal(init, actions);
    CleanIsPrefixed(init, actions);
    CompletedHasNoPending(init, Run(init, actions).log);
    assert SamePlan(init.row.steps, Run(init, actions).db.row.steps);
  }

  /** A run that never failed had no crash in failure handling. */
  lemma {:induction false} NoFailureIsClean(init: Sys, actions: seq<Action>)
    requires NoFailure(Run(init, actions).log, |Run(init, actions).log|)
    ensures CleanRun(init, actions)
    decreases |actions|
  {
    hide Run, EventsOf, AdvanceEvents, Replay, JobsAfter;
    if actions != [] {
      RunLast(init, actions);
      var before, a := actions[..|actions| - 1], actions[|actions| - 1];
      var c, events := Run(init, before), EventsOf(Run(init, before), a);
      assert c.log <= Run(init, actions).log;
      NoFailureIsClean(init, before);
      assert forall k :: 0 <= k < |events| ==> Run(init, actions).log[|c.log| + k] == events[k];
      assert !HandlesFailure(events);
    }
  }

  /** A completed rotation has every step done if and only if no worker died between a
      failed step's commit and the end of its rollback. */
  lemma CompletedAllDoneIffClean(init: Sys, actions: seq<Action>)
    requires Initial(init) && Run(init, actions).db.row.status == Completed
    ensures AllDone(Run(init, actions).db.row.steps) <==> CleanRun(init, actions)
  {
    hide Run, CleanRun, NoFailure;
    if AllDone(Run(init, actions).db.row.steps) {
      CompletedAllDoneIff(init, actions);
      NoFailureIsClean(init, actions);
    } else if CleanRun(init, actions) {
      CompletedMeansAllDone(init, actions);
    }
  }

  // ---- the gate ----

  predicate VerifiesFirst(steps: seq<Step>) {
    forall i, j :: 0 <= i < |steps| && 0 <= j < |steps| && steps[i].kind == Revoke && steps[j].kind == Verify ==> j < i
  }

  lemma NoBlock(row: Row, now: int, o: Oracle)
    requires Prefixed(row.steps, FirstPending(row.steps)) && VerifiesFirst(row.steps)
    ensures forall k :: 0 <= k < |AdvanceEvents(row, now, o)| ==> !AdvanceEvents(row, now, o)[k].Blocked?
  {
    var i := FirstPending(row.steps);
    if i < |row.steps| {
      RunKinds(row, i, o);
      assert row.steps[i].kind == Revoke ==> GateOpen(row.steps);
    }
  }

  /** When the plan puts every verify before every revoke, the gate never blocks. */
  lemma {:induction false} GateNeverBlocks(init: Sys, actions: seq<Action>, p: nat)
    requires Initial(init) && CleanRun(init, actions) && VerifiesFirst(init.row.steps)
    requires p < |Run(init, actions).log|
    ensures !Run(init, actions).log[p].Blocked?
    decreases |actions|
  {
    var before, a := actions[..|actions| - 1], actions[|actions| - 1];
    var c := Run(init, before);
    if p < |c.log| {
      GateNeverBlocks(init, before, p);
    } else {
      if !RolledUp(c.db.row.status) {
        CleanIsPrefixed(init, before);
        SamePlanVerifies(init, before);
      }
      NoBlockAct(c, a);
    }
  }

  lemma NoBlockAct(c: Config, a: Action)
    requires RolledUp(c.db.row.status) ||
             (Prefixed(c.db.row.steps, FirstPending(c.db.row.steps)) && VerifiesFirst(c.db.row.steps))
    ensures forall k :: 0 <= k < |EventsOf(c, a)| ==> !EventsOf(c, a)[k].Blocked?
  {
    if a.Job? && !RolledUp(c.db.row.status) {
      NoBlock(c.db.row, a.now, a.o);
    }
  }

  lemma SamePlanVerifies(init: Sys, actions: seq<Action>)
    requires VerifiesFirst(init.row.steps)
    ensures VerifiesFirst(Run(init, actions).db.row.steps)
  {
    RunLegal(init, actions);
    assert SamePlan(init.row.steps, Run(init, actions).db.row.steps);
  }

  // ---- repair ----

  lemma {:induction false} UntouchedUntilStarted(init: Sys, log: seq<Event>)
    requires Initial(init) && LegalLog(init, log) && Replay(init, log).row.status == PendingApproval
    ensures forall i :: 0 <= i < |init.row.steps| ==> Replay(init, log).row.steps[i].status == Pending
    ensures Replay(init, log).row.newRef == None
    decreases |log|
  {
    hide Apply, Legal;
    if log != [] {
      var before := log[..|log| - 1];
      assert log[..|log|] == log;
      LogStep(init, log, |log| - 1);
      UntouchedStep(Replay(init, before), before, log[|log| - 1]);
      LegalPrefix(init, [], log, |log| - 1);
      UntouchedUntilStarted(init, before);
    }
  }

  lemma DoneMeansStarted(init: Sys, log: seq<Event>)
    requires Initial(init) && LegalLog(init, log) && |init.row.steps| > 0
    ensures Replay(init, log).row.status == PendingApproval ==> !AllDone(Replay(init, log).row.steps)
  {
    if Replay(init, log).row.status == PendingApproval {
      UntouchedUntilStarted(init, log);
      assert Replay(init, log).row.steps[0].status == Pending;
    }
  }

  lemma UntouchedStep(s: Sys, hist: seq<Event>, e: Event)
    requires Legal(s, hist, e) && Apply(s, e).row.status == PendingApproval
    ensures s.row.status == PendingApproval && Apply(s, e).row == s.row
  {
  }

  lemma AllDoneEvents(row: Row, now: int, o: Oracle)
    requires AllDone(row.steps) && |row.steps| > 0 && !Terminal(row.status) && row.status != PendingApproval
    ensures AdvanceEvents(row, now, o) == [Finished(Completed)]
  {
    FirstPendingIs(row.steps, |row.steps|);
  }

  lemma RepairAct(c: Config, now: int, o: Oracle)
    requires c.jobs > 0 && AllDone(c.db.row.steps) && |c.db.row.steps| > 0
    requires !Terminal(c.db.row.status) && c.db.row.status != PendingApproval
    ensures EventsOf(c, Job(now, o, Finishes)) == [Finished(Completed)]
    ensures Act(c, Job(now, o, Finishes)).db == WithStatus(c.db, Completed)
  {
    AllDoneEvents(c.db.row, now, o);
    ReplayOne(c.db, Finished(Completed));
  }

  /** A crash between the last step's commit and the `completed` commit is repaired by
      the next call, whatever its oracle. */
  lemma NextCallRepairs(init: Sys, actions: seq<Action>, now: int, o: Oracle)
    requires Initial(init) && |init.row.steps| > 0
    requires Run(init, actions).jobs > 0 && AllDone(Run(init, actions).db.row.steps)
    requires !Terminal(Run(init, actions).db.row.status)
    ensures EventsOf(Run(init, actions), Job(now, o, Finishes)) == [Finished(Completed)]
    ensures Act(Run(init, actions), Job(now, o, Finishes)).db == WithStatus(Run(init, actions).db, Completed)
  {
    var c := Run(init, actions);
    RunLegal(init, actions);
    assert SamePlan(init.row.steps, c.db.row.steps);
    DoneMeansStarted(init, c.log);
    hide Run, Act;
    RepairAct(c, now, o);
  }

  // ---- what the log looks like after a failure ----

  lemma FailureTail(s: Sys, now: int, o: Oracle, k: nat)
    requires k < |AdvanceEvents(s.row, now, o)| && AdvanceEvents(s.row, now, o)[k].StepFailed?
    ensures var events := AdvanceEvents(s.row, now, o);
            && events[k..] == [events[k]] + RollbackEvents(s.row, o.undoFails)
            && events[k].i < |s.row.steps| && events[..k] == StartEvents(s.row, events[k].i, o.exec)
  {
    var row, i := s.row, FirstPending(s.row.steps);
    assert i < |row.steps| && AdvanceEvents(row, now, o) == RunEvents(row, i, o);
    hide AdvanceEvents, RollbackEvents, RollbackVerdict, FirstPending;
    RollbackKinds(row, o.undoFails);
    FailureIsLate(row, i, o, k);
  }

  lemma FailureIsLate(row: Row, i: nat, o: Oracle, k: nat)
    requires i < |row.steps| && k < |RunEvents(row, i, o)| && RunEvents(row, i, o)[k].StepFailed?
    requires forall l :: 0 <= l < |RollbackEvents(row, o.undoFails)| ==> InRollback(RollbackEvents(row, o.undoFails)[l])
    ensures RunEvents(row, i, o)[k] == StepFailed(i)
    ensures RunEvents(row, i, o)[k..] == [StepFailed(i)] + RollbackEvents(row, o.undoFails)
    ensures RunEvents(row, i, o)[..k] == StartEvents(row, i, o.exec)
  {
    hide RollbackEvents;
    var first, tail := StartEvents(row, i, o.exec), [StepFailed(i)] + RollbackEvents(row, o.undoFails);
    assert !StepOk(row.steps[i], row, o.exec);
    assert RunEvents(row, i, o) == first + tail;
    assert k == |first|;
  }

  lemma StartKeeps(s: Sys, i: nat, out: Outcome)
    requires i < |s.row.steps|
    ensures Replay(s, StartEvents(s.row, i, out)).row.steps == s.row.steps
    ensures Replay(s, StartEvents(s.row, i, out)).row.newRef == s.row.newRef
  {
    if s.row.status == RunningStatus(s.row.steps[i].kind) {
      assert StartEvents(s.row, i, out) == [Executed(i, out)];
      ReplayOne(s, Executed(i, out));
    } else {
      assert StartEvents(s.row, i, out) == [Started(i), Executed(i, out)];
      ReplayTwo(s, Started(i), Executed(i, out));
    }
  }
}
