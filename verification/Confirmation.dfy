/** When a flagged step can execute without having been confirmed. */
module Confirmation {
  import opened RotationTypes
  import opened EngineSpec
  import opened Machine
  import opened Safety
  import opened Recovery
  import opened CrashFree

  // ---- flags ----

  ghost predicate ConfirmedBefore(log: seq<Event>, p: nat, i: nat)
    requires p <= |log|
  {
    exists q :: 0 <= q < p && log[q] == Confirmed(i)
  }

  lemma FlagStep(s: Sys, e: Event, i: nat)
    requires i < |s.row.steps|
    ensures Apply(s, e).row.steps[i].flagged == (s.row.steps[i].flagged && e != Confirmed(i))
  {
  }

  /** A flag is cleared by the confirmation of its step and by nothing else. */
  lemma {:induction false} FlagMeansUnconfirmed(init: Sys, log: seq<Event>, p: nat, i: nat)
    requires p <= |log| && i < |init.row.steps|
    ensures At(init, log, p).row.steps[i].flagged <==> init.row.steps[i].flagged && !ConfirmedBefore(log, p, i)
    decreases p
  {
    hide Apply;
    if p > 0 {
      FlagMeansUnconfirmed(init, log, p - 1, i);
      assert log[..p][..p - 1] == log[..p - 1];
      FlagStep(At(init, log, p - 1), log[p - 1], i);
      assert ConfirmedBefore(log, p, i) <==> ConfirmedBefore(log, p - 1, i) || log[p - 1] == Confirmed(i);
    }
  }

  /** A call executes a step whose flag is still set exactly when it starts in
      awaiting_confirmation, the due step is flagged and its gate passes. */
  lemma SkipsConfirmationIff(row: Row, now: int, o: Oracle, i: nat)
    requires i < |row.steps|
    ensures (exists k :: 0 <= k < |AdvanceEvents(row, now, o)| && IsExecuted(AdvanceEvents(row, now, o)[k], i))
            && row.steps[i].flagged
            <==>
            row.status == AwaitingConfirmation && FirstPending(row.steps) == i && row.steps[i].flagged
            && (row.steps[i].kind == Revoke ==> GateOpen(row.steps))
  {
    var due := FirstPending(row.steps);
    if due < |row.steps| && AdvanceEvents(row, now, o) == RunEvents(row, due, o) {
      ExecutedInRun(row, due, o, i);
    }
  }

  lemma ExecutedInRun(row: Row, due: nat, o: Oracle, i: nat)
    requires due < |row.steps|
    ensures (exists k :: 0 <= k < |RunEvents(row, due, o)| && IsExecuted(RunEvents(row, due, o)[k], i)) <==> i == due
  {
    hide RollbackEvents;
    RollbackKinds(row, o.undoFails);
    var first := StartEvents(row, due, o.exec);
    assert RunEvents(row, due, o)[|first| - 1] == Executed(due, o.exec);
  }

  // ---- the discipline under which every flagged execution was confirmed ----

  predicate Stop(e: Event) {
    e.Paused? || e.Blocked? || e.PlanExpired?
  }

  predicate EndsInStop(events: seq<Event>) {
    events != [] && Stop(events[|events| - 1])
  }

  /** One outstanding job at most, no redelivery of a job that has committed a stop, and
      confirmations aimed at the step that the engine paused on. */
  predicate CarefulAct(c: Config, a: Action) {
    && Act(c, a).jobs <= 1
    && (a.Confirm? ==> a.i == FirstPending(c.db.row.steps))
    && (a.Job? && a.fate.Crashes? && EndsInStop(EventsOf(c, a)) ==> a.fate.again == 0)
  }

  ghost predicate CarefulRun(init: Sys, actions: seq<Action>) {
    Throughout(CarefulAct, init, actions)
  }

  /** While the engine is paused on a flagged step, no job is outstanding. */
  predicate QuietPause(c: Config) {
    var i := FirstPending(c.db.row.steps);
    && c.jobs <= 1
    && (c.db.row.status == AwaitingConfirmation && i < |c.db.row.steps| && c.db.row.steps[i].flagged ==> c.jobs == 0)
  }

  lemma NotWaitingAfter(s: Sys, hist: seq<Event>, e: Event)
    requires Legal(s, hist, e) && InRunningStep(e)
    ensures Apply(s, e).row.status != AwaitingConfirmation
  {
  }

  lemma JobKinds(row: Row, now: int, o: Oracle)
    ensures forall k :: 0 <= k < |AdvanceEvents(row, now, o)| ==>
              Stop(AdvanceEvents(row, now, o)[k]) || InRunningStep(AdvanceEvents(row, now, o)[k])
    ensures Continues(row, now, o) ==> !EndsInStop(AdvanceEvents(row, now, o))
  {
    hide RunEvents;
    var i := FirstPending(row.steps);
    if i < |row.steps| {
      RunKinds(row, i, o);
    }
  }

  /** After an effect that is not a stop, the engine is not waiting. */
  lemma LastEffect(c: Config, a: Action)
    requires a.Job? && EventsOf(c, a) != []
    ensures EndsInStop(EventsOf(c, a)) || Act(c, a).db.row.status != AwaitingConfirmation
  {
    hide AdvanceEvents, Legal, Apply, StatusAfter, InRunningStep, Stop;
    var events := EventsOf(c, a);
    JobKinds(c.db.row, a.now, a.o);
    ActLegal(c, a);
    LegalHere(c.db, c.log, events, |events| - 1);
    if InRunningStep(events[|events| - 1]) {
      NotWaitingAfter(Replay(c.db, events[..|events| - 1]), c.log + events[..|events| - 1], events[|events| - 1]);
    }
  }

  lemma JobKeepsQuiet(c: Config, a: Action)
    requires QuietPause(c) && CarefulAct(c, a) && a.Job?
    ensures QuietPause(Act(c, a))
  {
    hide AdvanceEvents, Continues, Stop, Apply;
    if EventsOf(c, a) != [] {
      LastEffect(c, a);
      JobKinds(c.db.row, a.now, a.o);
    }
  }

  lemma RequestKeepsQuiet(c: Config, a: Action)
    requires QuietPause(c) && CarefulAct(c, a) && !a.Job? && !a.Confirm?
    ensures QuietPause(Act(c, a))
  {
    var events := EventsOf(c, a);
    if events != [] {
      assert events == [events[0]];
      ReplayOne(c.db, events[0]);
    }
  }

  lemma ConfirmKeepsQuiet(c: Config, a: Action)
    requires QuietPause(c) && CarefulAct(c, a) && a.Confirm?
    ensures QuietPause(Act(c, a))
  {
    if EventsOf(c, a) != [] {
      var i := FirstPending(c.db.row.steps);
      assert EventsOf(c, a) == [Confirmed(i)];
      ReplayOne(c.db, Confirmed(i));
      FirstPendingIs(Act(c, a).db.row.steps, i);
    }
  }

  lemma {:induction false} CarefulIsQuiet(init: Sys, actions: seq<Action>)
    requires Initial(init) && CarefulRun(init, actions)
    ensures QuietPause(Run(init, actions))
    decreases |actions|
  {
    hide Act, Replay;
    if actions != [] {
      CarefulIsQuiet(init, actions[..|actions| - 1]);
      var c, a := Run(init, actions[..|actions| - 1]), actions[|actions| - 1];
      if a.Job? {
        JobKeepsQuiet(c, a);
      } else if a.Confirm? {
        ConfirmKeepsQuiet(c, a);
      } else {
        RequestKeepsQuiet(c, a);
      }
    }
  }

  /** A job that starts outside a flagged pause executes no flagged step. */
  lemma JobSkipsNothing(c: Config, a: Action, k: nat, i: nat)
    requires QuietPause(c) && k < |EventsOf(c, a)| && IsExecuted(EventsOf(c, a)[k], i) && i < |c.db.row.steps|
    ensures !c.db.row.steps[i].flagged
  {
    hide AdvanceEvents, FirstPending;
    assert a.Job? && c.jobs > 0;
    SkipsConfirmationIff(c.db.row, a.now, a.o, i);
    assert EventsOf(c, a)[k] == AdvanceEvents(c.db.row, a.now, a.o)[k];
  }

  /** In a careful run every execution of an initially flagged step follows a
      confirmation of that step. */
  lemma {:induction false} FlaggedRunsOnlyWhenConfirmed(init: Sys, actions: seq<Action>, p: nat, i: nat)
    requires Initial(init) && CarefulRun(init, actions)
    requires p < |Run(init, actions).log| && IsExecuted(Run(init, actions).log[p], i)
    requires i < |init.row.steps| && init.row.steps[i].flagged
    ensures ConfirmedBefore(Run(init, actions).log, p, i)
    decreases |actions|
  {
    hide Act, Run, Replay, EventsOf, CarefulAct;
    if actions != [] {
      RunLast(init, actions);
      var before, a := actions[..|actions| - 1], actions[|actions| - 1];
      var c := Run(init, before);
      ActLog(c, a);
      if p < |c.log| {
        FlaggedRunsOnlyWhenConfirmed(init, before, p, i);
        var q :| 0 <= q < p && c.log[q] == Confirmed(i);
        assert Run(init, actions).log[q] == Confirmed(i);
      } else {
        ConfirmedInTime(init, before, a, p - |c.log|, i);
        var q :| 0 <= q < |c.log| && c.log[q] == Confirmed(i);
        assert Run(init, actions).log[q] == Confirmed(i);
      }
    } else {
      RunEmpty(init);
    }
  }

  lemma ConfirmedInTime(init: Sys, actions: seq<Action>, a: Action, k: nat, i: nat)
    requires Initial(init) && CarefulRun(init, actions)
    requires k < |EventsOf(Run(init, actions), a)| && IsExecuted(EventsOf(Run(init, actions), a)[k], i)
    requires i < |init.row.steps| && init.row.steps[i].flagged
    ensures ConfirmedBefore(Run(init, actions).log, |Run(init, actions).log|, i)
  {
    hide Act, Run, Replay, EventsOf, CarefulRun;
    var c := Run(init, actions);
    CarefulIsQuiet(init, actions);
    RunLegal(init, actions);
    JobSkipsNothing(c, a, k, i);
    assert c.log[..|c.log|] == c.log;
    FlagMeansUnconfirmed(init, c.log, |c.log|, i);
  }

  lemma ActLog(c: Config, a: Action)
    ensures Act(c, a).log == c.log + EventsOf(c, a)
  {
  }

  lemma RunEmpty(init: Sys)
    ensures Run(init, []) == Config(init, 0, [])
  {
  }

  // ---- the exact condition, over all runs ----

  /** Every execution of an initially flagged step follows a confirmation of that step. */
  ghost predicate AllConfirmed(init: Sys, log: seq<Event>) {
    forall p :: 0 <= p < |log| && FlaggedExecution(init.row, log[p]) ==> ConfirmedBefore(log, p, log[p].i)
  }

  predicate FlaggedExecution(row: Row, e: Event) {
    e.Executed? && e.i < |row.steps| && row.steps[e.i].flagged
  }

  /** A delivered job that starts in a pause on a flagged step whose gate is open, and lives
      to execute it. */
  predicate SkipsFlag(c: Config, a: Action) {
    var row, i := c.db.row, FirstPending(c.db.row.steps);
    && a.Job? && c.jobs > 0 && row.status == AwaitingConfirmation
    && i < |row.steps| && row.steps[i].flagged && (row.steps[i].kind == Revoke ==> GateOpen(row.steps))
    && (a.fate.Crashes? ==> a.fate.cut >= 2)
  }

  predicate AsksFirst(c: Config, a: Action) {
    !SkipsFlag(c, a)
  }

  ghost predicate RunsFlagged(row: Row, events: seq<Event>) {
    exists k :: 0 <= k < |events| && FlaggedExecution(row, events[k])
  }

  lemma FlaggedCall(row: Row, now: int, o: Oracle)
    requires var i := FirstPending(row.steps);
             && row.status == AwaitingConfirmation && i < |row.steps| && row.steps[i].flagged
             && (row.steps[i].kind == Revoke ==> GateOpen(row.steps))
    ensures var events, i := AdvanceEvents(row, now, o), FirstPending(row.steps);
            |events| >= 2 && events[0] == Started(i) && events[1] == Executed(i, o.exec)
  {
    var i := FirstPending(row.steps);
    hide FirstPending;
    assert AdvanceEvents(row, now, o) == RunEvents(row, i, o);
    hide AdvanceEvents, ResultEvents;
  }

  lemma UnflaggedCall(row: Row, now: int, o: Oracle)
    requires RunsFlagged(row, AdvanceEvents(row, now, o))
    ensures var i := FirstPending(row.steps);
            && row.status == AwaitingConfirmation && i < |row.steps| && row.steps[i].flagged
            && (row.steps[i].kind == Revoke ==> GateOpen(row.steps))
  {
    hide AdvanceEvents, FirstPending;
    var k :| 0 <= k < |AdvanceEvents(row, now, o)| && FlaggedExecution(row, AdvanceEvents(row, now, o)[k]);
    SkipsConfirmationIff(row, now, o, AdvanceEvents(row, now, o)[k].i);
  }

  /** An action executes a step whose flag is set exactly when it skips it. */
  lemma SkipsFlagIff(c: Config, a: Action)
    ensures RunsFlagged(c.db.row, EventsOf(c, a)) <==> SkipsFlag(c, a)
  {
    hide AdvanceEvents, FirstPending, GateOpen;
    if a.Job? && c.jobs > 0 {
      var row, full, events := c.db.row, AdvanceEvents(c.db.row, a.now, a.o), EventsOf(c, a);
      if SkipsFlag(c, a) {
        FlaggedCall(row, a.now, a.o);
        assert events[1] == full[1];
      } else if RunsFlagged(row, events) {
        var k :| 0 <= k < |events| && FlaggedExecution(row, events[k]);
        assert events[k] == full[k];
        UnflaggedCall(row, a.now, a.o);
        FlaggedCall(row, a.now, a.o);
      }
    }
  }

  lemma NoConfirmedInJob(c: Config, a: Action)
    requires a.Job?
    ensures forall k :: 0 <= k < |EventsOf(c, a)| ==> !EventsOf(c, a)[k].Confirmed?
  {
    hide AdvanceEvents, InRunningStep, Stop;
    JobKinds(c.db.row, a.now, a.o);
    KindsNotConfirmed();
  }

  lemma KindsNotConfirmed()
    ensures forall e: Event :: Stop(e) || InRunningStep(e) ==> !e.Confirmed?
  {
  }

  lemma OnlyJobsExecute(c: Config, a: Action, k: nat)
    requires k < |EventsOf(c, a)| && EventsOf(c, a)[k].Executed?
    ensures a.Job?
  {
    hide AdvanceEvents;
  }

  lemma SameConfirmed(log: seq<Event>, more: seq<Event>, k: nat, i: nat)
    requires k <= |more| && forall l :: 0 <= l < |more| ==> !more[l].Confirmed?
    ensures ConfirmedBefore(log + more, |log| + k, i) <==> ConfirmedBefore(log, |log|, i)
  {
    if ConfirmedBefore(log + more, |log| + k, i) {
      var q :| 0 <= q < |log| + k && (log + more)[q] == Confirmed(i);
      assert q < |log| && log[q] == Confirmed(i);
    }
    if ConfirmedBefore(log, |log|, i) {
      var q :| 0 <= q < |log| && log[q] == Confirmed(i);
      assert (log + more)[q] == Confirmed(i);
    }
  }

  lemma ConfirmedLonger(log: seq<Event>, more: seq<Event>, p: nat, i: nat)
    requires p <= |log|
    ensures ConfirmedBefore(log + more, p, i) <==> ConfirmedBefore(log, p, i)
  {
    assert forall q :: 0 <= q < p ==> (log + more)[q] == log[q];
  }

  /** What the events of one action add to the claim. */
  lemma ConfirmedStep(init: Sys, c: Config, a: Action)
    requires c.db == Replay(init, c.log) && AllConfirmed(init, c.log)
    ensures AllConfirmed(init, c.log + EventsOf(c, a)) <==> !RunsFlagged(c.db.row, EventsOf(c, a))
  {
    hide EventsOf, Replay, ConfirmedBefore;
    var events := EventsOf(c, a);
    var log := c.log + events;
    assert c.log[..|c.log|] == c.log;
    if RunsFlagged(c.db.row, events) {
      var k :| 0 <= k < |events| && FlaggedExecution(c.db.row, events[k]);
      OnlyJobsExecute(c, a, k);
      NoConfirmedInJob(c, a);
      FlagMeansUnconfirmed(init, c.log, |c.log|, events[k].i);
      SameConfirmed(c.log, events, k, events[k].i);
      assert log[|c.log| + k] == events[k];
    } else {
      forall p | 0 <= p < |log| && FlaggedExecution(init.row, log[p])
        ensures ConfirmedBefore(log, p, log[p].i)
      {
        if p < |c.log| {
          ConfirmedLonger(c.log, events, p, log[p].i);
        } else {
          var k := p - |c.log|;
          OnlyJobsExecute(c, a, k);
          NoConfirmedInJob(c, a);
          FlagMeansUnconfirmed(init, c.log, |c.log|, events[k].i);
          SameConfirmed(c.log, events, k, events[k].i);
        }
      }
    }
  }

  lemma ConfirmedPrefix(init: Sys, log: seq<Event>, more: seq<Event>)
    requires AllConfirmed(init, log + more)
    ensures AllConfirmed(init, log)
  {
    hide ConfirmedBefore;
    forall p | 0 <= p < |log| && FlaggedExecution(init.row, log[p])
      ensures ConfirmedBefore(log, p, log[p].i)
    {
      assert (log + more)[p] == log[p];
      ConfirmedLonger(log, more, p, log[p].i);
    }
  }

  /** In any run at all, every execution of an initially flagged step follows a confirmation
      of that step if and only if no delivered job starts in a pause on a flagged step whose
      gate is open and lives to execute it. */
  lemma {:induction false} ConfirmedFirstIff(init: Sys, actions: seq<Action>)
    ensures AllConfirmed(init, Run(init, actions).log) <==> Throughout(AsksFirst, init, actions)
    decreases |actions|
  {
    hide Act, Run, AsksFirst, AllConfirmed, EventsOf, RunsFlagged;
    if actions == [] {
      RunEmpty(init);
      assert AllConfirmed(init, []) by {
        NothingToConfirm(init);
      }
    } else {
      var before, a := actions[..|actions| - 1], actions[|actions| - 1];
      var c := Run(init, before);
      RunLast(init, actions);
      ActLog(c, a);
      RunLegal(init, before);
      ConfirmedFirstIff(init, before);
      SkipsFlagIff(c, a);
      AsksFirstIs(c, a);
      if AllConfirmed(init, c.log) {
        ConfirmedStep(init, c, a);
      } else if AllConfirmed(init, c.log + EventsOf(c, a)) {
        ConfirmedPrefix(init, c.log, EventsOf(c, a));
      }
    }
  }

  lemma AsksFirstIs(c: Config, a: Action)
    ensures AsksFirst(c, a) <==> !SkipsFlag(c, a)
  {
  }

  lemma NothingToConfirm(init: Sys)
    ensures AllConfirmed(init, [])
  {
  }

  // ---- each part of the discipline is needed ----

  /** A first step that the engine pauses on and no gate blocks. */
  predicate FlaggedFirst(init: Sys) {
    Initial(init) && |init.row.steps| > 0 && init.row.steps[0].flagged && init.row.steps[0].kind != Revoke
  }

  ghost predicate RunsUnconfirmed(log: seq<Event>) {
    exists p :: 0 <= p < |log| && IsExecuted(log[p], 0) && !ConfirmedBefore(log, p, 0)
  }

  lemma SkippingJob(c: Config, now: int, o: Oracle)
    requires c.jobs > 0 && c.db.row.status == AwaitingConfirmation && |c.db.row.steps| > 0
    requires c.db.row.steps[0].status == Pending && c.db.row.steps[0].kind != Revoke
    requires !ConfirmedBefore(c.log, |c.log|, 0)
    ensures RunsUnconfirmed(Act(c, Job(now, o, Finishes)).log)
  {
    FirstPendingIs(c.db.row.steps, 0);
    FirstStepRuns(c, now, o);
  }

  lemma FirstStepRuns(c: Config, now: int, o: Oracle)
    requires c.jobs > 0 && |c.db.row.steps| > 0
    requires c.db.row.status != RunningStatus(c.db.row.steps[0].kind)
    requires AdvanceEvents(c.db.row, now, o) == RunEvents(c.db.row, 0, o)
    requires !ConfirmedBefore(c.log, |c.log|, 0)
    ensures RunsUnconfirmed(Act(c, Job(now, o, Finishes)).log)
  {
    hide AdvanceEvents, ResultEvents, Replay, JobsAfter;
    var first := StartEvents(c.db.row, 0, o.exec);
    assert first == [Started(0), Executed(0, o.exec)];
    var log, p := Act(c, Job(now, o, Finishes)).log, |c.log| + 1;
    assert log == c.log + (first + ResultEvents(c.db.row, 0, o));
    assert log[p] == Executed(0, o.exec) && log[p - 1] == Started(0);
    assert !ConfirmedBefore(log, p, 0);
  }

  lemma FirstPause(init: Sys, c: Config, o: Oracle, fate: Fate)
    requires FlaggedFirst(init) && c.db == init && c.jobs > 0
    requires fate.Crashes? ==> fate.cut == 1
    ensures var d := Act(c, Job(Early(init), o, fate));
            && d.log == c.log + [Paused(0)] && d.db == Apply(init, Paused(0))
            && d.jobs == (if fate.Crashes? then c.jobs - 1 + fate.again else c.jobs - 1)
  {
    PauseEvents(init.row, Early(init), o, 0);
    assert [Paused(0)][..1] == [Paused(0)];
    ReplayOne(init, Paused(0));
  }

  lemma ApproveAgain(init: Sys)
    requires Initial(init)
    ensures Act(Config(init, 1, [Approved]), Approve(true)) == Config(init, 2, [Approved, Approved])
  {
    ReplayOne(init, Approved);
  }

  /** Two approvals leave a second job behind, which skips the confirmation. */
  lemma TwoApprovalsSkip(init: Sys, o: Oracle)
    requires FlaggedFirst(init)
    ensures var job := Job(Early(init), o, Finishes);
            RunsUnconfirmed(Run(init, [Approve(true), Approve(true), job, job]).log)
  {
    hide Act, RunsUnconfirmed;
    var job := Job(Early(init), o, Finishes);
    RunFour(init, Approve(true), Approve(true), job, job);
    ApproveInitial(init);
    ApproveAgain(init);
    var c := Config(init, 2, [Approved, Approved]);
    FirstPause(init, c, o, Finishes);
    SkippingJob(Act(c, job), Early(init), o);
  }

  /** So does the redelivery of a job that died after committing its pause. */
  lemma RedeliverySkips(init: Sys, o: Oracle)
    requires FlaggedFirst(init)
    ensures var job := Job(Early(init), o, Crashes(1, 1));
            RunsUnconfirmed(Run(init, [Approve(true), job, Job(Early(init), o, Finishes)]).log)
  {
    hide Act, RunsUnconfirmed;
    var job := Job(Early(init), o, Crashes(1, 1));
    RunThreeActions(init, Approve(true), job, Job(Early(init), o, Finishes));
    ApproveInitial(init);
    var c := Config(init, 1, [Approved]);
    FirstPause(init, c, o, Crashes(1, 1));
    SkippingJob(Act(c, job), Early(init), o);
  }

  lemma ConfirmElsewhere(c: Config)
    requires c.db.row.status == AwaitingConfirmation && c.jobs == 0
    requires |c.db.row.steps| > 1 && c.db.row.steps[1].status == Pending
    ensures var d := Act(c, Confirm(1, true));
            && d.jobs == 1 && d.log == c.log + [Confirmed(1)] && d.db.row.status == AwaitingConfirmation
            && d.db.row.steps[0] == c.db.row.steps[0] && |d.db.row.steps| == |c.db.row.steps|
  {
    ReplayOne(c.db, Confirmed(1));
  }

  /** So does a confirmation of another pending step. */
  lemma ConfirmingAnotherStepSkips(init: Sys, o: Oracle)
    requires FlaggedFirst(init) && |init.row.steps| > 1
    ensures var job := Job(Early(init), o, Finishes);
            RunsUnconfirmed(Run(init, [Approve(true), job, Confirm(1, true), job]).log)
  {
    hide Act, RunsUnconfirmed;
    var job := Job(Early(init), o, Finishes);
    RunFour(init, Approve(true), job, Confirm(1, true), job);
    ApproveInitial(init);
    var c := Config(init, 1, [Approved]);
    FirstPause(init, c, o, Finishes);
    ConfirmElsewhere(Act(c, job));
    SkippingJob(Act(Act(c, job), Confirm(1, true)), Early(init), o);
  }
}
