/** When a plan that has expired executes all the same. */
module Expiry {
  import opened RotationTypes
  import opened EngineSpec
  import opened Machine
  import opened Safety
  import opened Recovery
  import opened Confirmation

  // ---- one call ----

  /** In pending_approval a call does nothing but declare the plan expired exactly if the
      plan has an expiry time and that time is strictly before the clock. */
  lemma ExpiresExactly(row: Row, now: int, o: Oracle)
    requires row.status == PendingApproval
    ensures AdvanceEvents(row, now, o) == [PlanExpired] <==> row.expiresAt != None && row.expiresAt.value < now
    ensures (exists k :: 0 <= k < |AdvanceEvents(row, now, o)| && AdvanceEvents(row, now, o)[k] == PlanExpired)
            <==> row.expiresAt != None && row.expiresAt.value < now
  {
    var events, i := AdvanceEvents(row, now, o), FirstPending(row.steps);
    if row.expiresAt != None && row.expiresAt.value < now {
      assert events[0] == PlanExpired;
    } else if i < |row.steps| {
      RunKinds(row, i, o);
    }
  }

  /** The step `i` is due and nothing holds it back; the expiry is looked at only in
      pending_approval. */
  predicate Ready(row: Row, i: nat) {
    && !Terminal(row.status) && row.status != PendingApproval
    && i < |row.steps| && FirstPending(row.steps) == i
    && (row.steps[i].flagged ==> row.status == AwaitingConfirmation)
    && (row.steps[i].kind == Revoke ==> GateOpen(row.steps))
  }

  /** A call that finds the plan expired executes step `i` exactly when the status is no
      longer pending_approval and the step is ready. */
  lemma ExpiredRunsIff(row: Row, now: int, o: Oracle, i: nat)
    requires i < |row.steps| && Expired(row, now)
    ensures (exists k :: 0 <= k < |AdvanceEvents(row, now, o)| && IsExecuted(AdvanceEvents(row, now, o)[k], i))
            <==> Ready(row, i)
  {
    hide RunEvents, FirstPending;
    var due := FirstPending(row.steps);
    if due < |row.steps| && AdvanceEvents(row, now, o) == RunEvents(row, due, o) {
      ExecutedInRun(row, due, o, i);
    }
  }

  // ---- whole runs ----

  predicate LateJobs(init: Sys, actions: seq<Action>) {
    forall m :: 0 <= m < |actions| && actions[m].Job? ==> Expired(init.row, actions[m].now)
  }

  predicate NothingRan(log: seq<Event>) {
    forall p :: 0 <= p < |log| ==> !log[p].Executed?
  }

  // The effects up to the execution of the due step: the running status may be stored already.
  function EffectsToRun(row: Row): nat
    requires FirstPending(row.steps) < |row.steps|
  {
    if row.status == RunningStatus(row.steps[FirstPending(row.steps)].kind) then 1 else 2
  }

  /** A delivered job whose call, crash included, gets as far as executing the ready step. */
  predicate RunsStep(c: Config, a: Action) {
    var row, i := c.db.row, FirstPending(c.db.row.steps);
    && a.Job? && c.jobs > 0 && Ready(row, i)
    && (a.fate.Crashes? ==> a.fate.cut >= EffectsToRun(row))
  }

  predicate Idle(c: Config, a: Action) {
    !RunsStep(c, a)
  }

  lemma IdleCall(row: Row, now: int, o: Oracle)
    requires Expired(row, now) && !Ready(row, FirstPending(row.steps))
    ensures NothingRan(AdvanceEvents(row, now, o))
  {
  }

  lemma RunningCall(row: Row, now: int, o: Oracle, n: nat)
    requires var i := FirstPending(row.steps); Ready(row, i) && n <= |AdvanceEvents(row, now, o)|
    ensures NothingRan(AdvanceEvents(row, now, o)[..n]) <==> n < EffectsToRun(row)
  {
    var i := FirstPending(row.steps);
    hide RunEvents, FirstPending;
    assert AdvanceEvents(row, now, o) == RunEvents(row, i, o);
    hide AdvanceEvents, Ready;
    FirstExecution(row, i, o);
  }

  lemma FirstExecution(row: Row, i: nat, o: Oracle)
    requires i < |row.steps|
    ensures var n := if row.status == RunningStatus(row.steps[i].kind) then 0 else 1;
            && n < |RunEvents(row, i, o)| && RunEvents(row, i, o)[n].Executed?
            && forall k :: 0 <= k < n ==> !RunEvents(row, i, o)[k].Executed?
  {
    hide ResultEvents;
  }

  lemma RunLength(row: Row, now: int, o: Oracle)
    requires Ready(row, FirstPending(row.steps))
    ensures |AdvanceEvents(row, now, o)| >= EffectsToRun(row)
  {
  }

  /** An action executes nothing exactly when it is idle. */
  lemma IdleIff(c: Config, a: Action)
    requires a.Job? ==> Expired(c.db.row, a.now)
    ensures NothingRan(EventsOf(c, a)) <==> Idle(c, a)
  {
    if a.Job? && c.jobs > 0 {
      var row, events := c.db.row, AdvanceEvents(c.db.row, a.now, a.o);
      hide AdvanceEvents, Ready, FirstPending, RunningStatus;
      if Ready(row, FirstPending(row.steps)) {
        RunLength(row, a.now, a.o);
        var n := |Cut(a.fate, events)|;
        RunningCall(row, a.now, a.o, n);
        assert Cut(a.fate, events) == events[..n];
      } else {
        IdleCall(row, a.now, a.o);
      }
    }
  }

  lemma NothingRanAppend(a: seq<Event>, b: seq<Event>)
    ensures NothingRan(a + b) <==> NothingRan(a) && NothingRan(b)
  {
    if NothingRan(a + b) {
      assert forall p :: 0 <= p < |a| ==> (a + b)[p] == a[p];
      assert forall p :: 0 <= p < |b| ==> (a + b)[|a| + p] == b[p];
    }
  }

  lemma SameExpiry(init: Sys, actions: seq<Action>)
    ensures Run(init, actions).db.row.expiresAt == init.row.expiresAt
  {
    hide Run;
    RunLegal(init, actions);
  }

  /** In a run whose jobs all come after the expiry, nothing ever executes if and only if
      every action is idle where it happens. */
  lemma {:induction false} ExpiredRunsNothingIff(init: Sys, actions: seq<Action>)
    requires LateJobs(init, actions)
    ensures NothingRan(Run(init, actions).log) <==> Throughout(Idle, init, actions)
    decreases |actions|
  {
    hide Act, Run, Idle, NothingRan;
    if actions == [] {
      RunEmpty(init);
      assert NothingRan([]) by {
        NothingRanEmpty();
      }
    } else {
      var before, a := actions[..|actions| - 1], actions[|actions| - 1];
      var c := Run(init, before);
      RunLast(init, actions);
      ActLog(c, a);
      ExpiredRunsNothingIff(init, before);
      SameExpiry(init, before);
      IdleIff(c, a);
      NothingRanAppend(c.log, EventsOf(c, a));
    }
  }

  lemma NothingRanEmpty()
    ensures NothingRan([])
  {
  }

  // ---- the guard of the branch that fails ----

  /** No job is delivered while the status is needs_replan. */
  predicate NoReplanJob(c: Config, a: Action) {
    a.Job? && c.jobs > 0 ==> c.db.row.status != NeedsReplan
  }

  predicate Dormant(c: Config) {
    c.db.row.status in {PendingApproval, NeedsReplan, Rejected, RolledBack} && NothingRan(c.log)
  }

  lemma DormantStep(c: Config, a: Action)
    requires Dormant(c) && NoReplanJob(c, a)
    requires a.Job? ==> Expired(c.db.row, a.now)
    ensures Dormant(Act(c, a))
  {
    var events := EventsOf(c, a);
    if events != [] {
      if a.Job? {
        assert AdvanceEvents(c.db.row, a.now, a.o) == [PlanExpired];
      }
      assert events == [events[0]];
      ReplayOne(c.db, events[0]);
    }
  }

  /** A plan that has expired before its first job runs never executes a step, if no job
      is delivered in needs_replan. */
  lemma {:induction false} ExpiredNeverRuns(init: Sys, actions: seq<Action>)
    requires Initial(init) && LateJobs(init, actions) && Throughout(NoReplanJob, init, actions)
    ensures Dormant(Run(init, actions))
    decreases |actions|
  {
    hide Act, Run, Replay, Dormant;
    if actions == [] {
      RunEmpty(init);
      DormantAtFirst(init);
    } else {
      var before := actions[..|actions| - 1];
      RunLast(init, actions);
      ExpiredNeverRuns(init, before);
      SameExpiry(init, before);
      DormantStep(Run(init, before), actions[|actions| - 1]);
    }
  }

  lemma DormantAtFirst(init: Sys)
    requires Initial(init)
    ensures Dormant(Config(init, 0, []))
  {
  }

  lemma UntouchedStepAfter(s: Sys, hist: seq<Event>, e: Event)
    requires Legal(s, hist, e) && NothingRan(hist) && !e.Executed?
    requires s.row.status != RollingBack && (forall q :: 0 <= q < |hist| ==> !hist[q].StepFailed?)
    requires forall i :: 0 <= i < |s.row.steps| ==> s.row.steps[i].status == Pending
    ensures !e.StepFailed? && Apply(s, e).row.status != RollingBack
    ensures !Terminal(Apply(s, e).row.status) ==>
              forall i :: 0 <= i < |s.row.steps| ==> Apply(s, e).row.steps[i].status == Pending
  {
  }

  lemma {:induction false} UntouchedIfNothingRan(init: Sys, log: seq<Event>, p: nat)
    requires Initial(init) && LegalLog(init, log) && p <= |log| && NothingRan(log)
    ensures forall q :: 0 <= q < p ==> !log[q].StepFailed?
    ensures At(init, log, p).row.status != RollingBack
    ensures !Terminal(At(init, log, p).row.status) ==>
              forall i :: 0 <= i < |init.row.steps| ==> At(init, log, p).row.steps[i].status == Pending
    decreases p
  {
    hide Legal, Apply;
    if p > 0 {
      UntouchedIfNothingRan(init, log, p - 1);
      LogStep(init, log, p - 1);
      StillActive(At(init, log, p - 1), log[..p - 1], log[p - 1]);
      UntouchedStepAfter(At(init, log, p - 1), log[..p - 1], log[p - 1]);
    }
  }

  predicate PlainFirst(init: Sys) {
    Initial(init) && |init.row.steps| > 0 && !init.row.steps[0].flagged && init.row.steps[0].kind != Revoke
  }

  lemma {:induction false} FlagsOnlyFall(init: Sys, log: seq<Event>, i: nat)
    requires i < |init.row.steps| && !init.row.steps[i].flagged
    ensures !Replay(init, log).row.steps[i].flagged
  {
    assert log[..|log|] == log;
    FlagMeansUnconfirmed(init, log, |log|, i);
  }

  lemma IdleMeansNoReplan(init: Sys, actions: seq<Action>, a: Action)
    requires PlainFirst(init) && NothingRan(Run(init, actions).log)
    requires Idle(Run(init, actions), a) && (a.Job? ==> a.fate.Finishes?)
    ensures NoReplanJob(Run(init, actions), a)
  {
    hide Run, Replay, Act;
    var c := Run(init, actions);
    RunLegal(init, actions);
    if c.db.row.status == NeedsReplan {
      assert c.log[..|c.log|] == c.log;
      UntouchedIfNothingRan(init, c.log, |c.log|);
      FlagsOnlyFall(init, c.log, 0);
      assert SamePlan(init.row.steps, c.db.row.steps);
      FirstPendingIs(c.db.row.steps, 0);
    }
  }

  /** For a plan whose first step needs neither a confirmation nor the gate, and jobs that
      do not crash, the guard is exact: expired, the plan executes nothing if and only if
      no job is delivered in needs_replan. */
  lemma {:induction false} ExpiredNeverRunsIff(init: Sys, actions: seq<Action>)
    requires PlainFirst(init) && LateJobs(init, actions)
    requires forall m :: 0 <= m < |actions| && actions[m].Job? ==> actions[m].fate.Finishes?
    ensures NothingRan(Run(init, actions).log) <==> Throughout(NoReplanJob, init, actions)
    decreases |actions|
  {
    hide Act, Run, Idle, NothingRan, NoReplanJob, Dormant;
    if Throughout(NoReplanJob, init, actions) {
      ExpiredNeverRuns(init, actions);
      DormantRan(Run(init, actions));
    } else {
      var before, a := actions[..|actions| - 1], actions[|actions| - 1];
      ExpiredNeverRunsIff(init, before);
      RunLast(init, actions);
      ActLog(Run(init, before), a);
      NothingRanAppend(Run(init, before).log, EventsOf(Run(init, before), a));
      if NothingRan(Run(init, actions).log) {
        SameExpiry(init, before);
        IdleIff(Run(init, before), a);
        IdleMeansNoReplan(init, before, a);
      }
    }
  }

  lemma DormantRan(c: Config)
    requires Dormant(c)
    ensures NothingRan(c.log)
  {
  }

  lemma CarefulStep(c: Config, a: Action)
    requires Dormant(c) && c.jobs <= 1 && (c.db.row.status == NeedsReplan ==> c.jobs == 0) && CarefulAct(c, a)
    requires a.Job? ==> Expired(c.db.row, a.now)
    ensures Act(c, a).jobs <= 1 && (Act(c, a).db.row.status == NeedsReplan ==> Act(c, a).jobs == 0)
  {
    var events := EventsOf(c, a);
    if events != [] {
      if a.Job? {
        assert AdvanceEvents(c.db.row, a.now, a.o) == [PlanExpired];
      }
      assert events == [events[0]];
      ReplayOne(c.db, events[0]);
    }
  }

  /** In careful runs no job is, so there an expired plan never executes a step. */
  lemma {:induction false} CarefulNeverReplans(init: Sys, actions: seq<Action>)
    requires Initial(init) && LateJobs(init, actions) && CarefulRun(init, actions)
    ensures Throughout(NoReplanJob, init, actions)
    ensures var c := Run(init, actions); c.jobs <= 1 && (c.db.row.status == NeedsReplan ==> c.jobs == 0)
    decreases |actions|
  {
    hide Act, Run, Replay, CarefulAct;
    if actions == [] {
      RunEmpty(init);
    } else {
      var before := actions[..|actions| - 1];
      RunLast(init, actions);
      CarefulNeverReplans(init, before);
      ExpiredNeverRuns(init, before);
      SameExpiry(init, before);
      CarefulStep(Run(init, before), actions[|actions| - 1]);
    }
  }

  /** Two approvals of an expired plan execute it: the second job finds needs_replan. */
  lemma TwoApprovalsRunExpired(init: Sys, now: int, o: Oracle)
    requires Initial(init) && |init.row.steps| > 0 && !init.row.steps[0].flagged
    requires init.row.steps[0].kind != Revoke && Expired(init.row, now)
    ensures var job := Job(now, o, Finishes);
            RunsUnconfirmed(Run(init, [Approve(true), Approve(true), job, job]).log)
  {
    hide Act, RunsUnconfirmed;
    var job := Job(now, o, Finishes);
    RunFour(init, Approve(true), Approve(true), job, job);
    ApproveInitial(init);
    ApproveAgain(init);
    var c := Config(init, 2, [Approved, Approved]);
    FirstExpires(init, c, now, o);
    NeedsReplanRuns(Act(c, job), now, o);
  }

  lemma FirstExpires(init: Sys, c: Config, now: int, o: Oracle)
    requires Initial(init) && c.db == init && c.jobs == 2 && Expired(init.row, now)
    ensures var d := Act(c, Job(now, o, Finishes));
            && d.jobs == 1 && d.log == c.log + [PlanExpired]
            && d.db.row.status == NeedsReplan && d.db.row.steps == init.row.steps
  {
    hide RunEvents;
    ReplayOne(init, PlanExpired);
  }

  /** The first job after an approval executes a plain first step, unless the plan's expiry
      time is strictly before the clock. */
  lemma FirstJobStarts(init: Sys, now: int, o: Oracle)
    requires PlainFirst(init) && (init.row.expiresAt == None || now <= init.row.expiresAt.value)
    ensures var log := Run(init, [Approve(true), Job(now, o, Finishes)]).log;
            |log| > 2 && log[..3] == [Approved, Started(0), Executed(0, o.exec)]
  {
    var job := Job(now, o, Finishes);
    FirstEvents(init.row, now, o);
    hide Act, AdvanceEvents, PlainFirst, Run, Initial;
    RunTwoActions(init, Approve(true), job);
    PlainIsInitial(init);
    ApproveInitial(init);
    JobLog(Config(init, 1, [Approved]), now, o);
    FirstThree(AdvanceEvents(init.row, now, o));
  }

  lemma FirstThree(events: seq<Event>)
    requires |events| >= 2
    ensures ([Approved] + events)[..3] == [Approved, events[0], events[1]]
  {
  }

  lemma PlainIsInitial(init: Sys)
    requires PlainFirst(init)
    ensures Initial(init)
  {
  }

  lemma JobLog(c: Config, now: int, o: Oracle)
    requires c.jobs > 0
    ensures Act(c, Job(now, o, Finishes)).log == c.log + AdvanceEvents(c.db.row, now, o)
  {
    hide AdvanceEvents, Replay, Continues;
  }

  lemma FirstEvents(row: Row, now: int, o: Oracle)
    requires row.status == PendingApproval && |row.steps| > 0
    requires row.steps[0].status == Pending && !row.steps[0].flagged && row.steps[0].kind != Revoke
    requires row.expiresAt == None || now <= row.expiresAt.value
    ensures var events := AdvanceEvents(row, now, o);
            |events| >= 2 && events[0] == Started(0) && events[1] == Executed(0, o.exec)
  {
    FirstPendingIs(row.steps, 0);
    hide FirstPending;
    assert AdvanceEvents(row, now, o) == RunEvents(row, 0, o);
    hide AdvanceEvents, ResultEvents;
  }

  lemma NeedsReplanRuns(c: Config, now: int, o: Oracle)
    requires c.jobs > 0 && c.db.row.status == NeedsReplan && |c.db.row.steps| > 0
    requires c.db.row.steps[0].status == Pending && c.db.row.steps[0].kind != Revoke && !c.db.row.steps[0].flagged
    requires !ConfirmedBefore(c.log, |c.log|, 0)
    ensures RunsUnconfirmed(Act(c, Job(now, o, Finishes)).log)
  {
    FirstPendingIs(c.db.row.steps, 0);
    FirstStepRuns(c, now, o);
  }
}
