/** Every committed vector of step statuses is also committed by some crash-free run. */
module CrashFree {
  import opened RotationTypes
  import opened EngineSpec
  import opened Machine
  import opened Safety
  import opened Recovery

  predicate CrashFreeAct(a: Action) {
    match a
    case Approve(sent) => sent
    case Confirm(_, sent) => sent
    case Job(_, _, fate) => fate.Finishes?
    case _ => true
  }

  predicate CrashFreeRun(actions: seq<Action>) {
    forall m :: 0 <= m < |actions| ==> CrashFreeAct(actions[m])
  }

  lemma FinishedIsClean(c: Config, a: Action)
    requires CrashFreeAct(a)
    ensures CleanAct(c, a)
  {
    hide AdvanceEvents, HandlesFailure;
    assert !HandlesFailure([]) by {
      NothingHandled();
    }
  }

  lemma NothingHandled()
    ensures !HandlesFailure([])
  {
  }

  lemma {:induction false} CrashFreeIsClean(init: Sys, actions: seq<Action>)
    requires CrashFreeRun(actions)
    ensures CleanRun(init, actions)
    decreases |actions|
  {
    hide Run, CleanAct;
    if actions != [] {
      CrashFreeIsClean(init, actions[..|actions| - 1]);
      FinishedIsClean(Run(init, actions[..|actions| - 1]), actions[|actions| - 1]);
    }
  }

  predicate SameStatuses(a: seq<Step>, b: seq<Step>) {
    |a| == |b| && forall i :: 0 <= i < |a| ==> a[i].status == b[i].status
  }

  lemma RunOneMore(init: Sys, actions: seq<Action>, a: Action)
    ensures Run(init, actions + [a]) == Act(Run(init, actions), a)
  {
    assert (actions + [a])[..|actions|] == actions;
  }

  // ---- a crash-free run that has done exactly the first k steps ----

  /** A time at which the plan has not expired. */
  function Early(init: Sys): int {
    if init.row.expiresAt.Some? then init.row.expiresAt.value else 0
  }

  predicate FlagsFrom(init: Sys, steps: seq<Step>, k: nat) {
    |steps| == |init.row.steps| && forall j :: k <= j < |steps| ==> steps[j].flagged == init.row.steps[j].flagged
  }

  /** `c` has done exactly the first `k` steps, stored `ref`, and is ready for the next step. */
  predicate Mirrors(init: Sys, c: Config, k: nat, ref: Option<SecretRef>) {
    && Prefixed(c.db.row.steps, k) && FlagsFrom(init, c.db.row.steps, k) && c.db.row.newRef == ref
    && SamePlan(init.row.steps, c.db.row.steps)
    && c.db.row.planPath == init.row.planPath && c.db.row.expiresAt == init.row.expiresAt
    && (k == 0 ==> c == Config(init, 0, []))
    && (0 < k < |init.row.steps| ==>
          c.jobs == 1 && c.db.row.status == RunningStatus(init.row.steps[k - 1].kind))
  }

  /** What makes step `k` runnable: the approval for the first step, the pause and its
      confirmation for a flagged one. */
  function Lead(init: Sys, k: nat, o: Oracle): seq<Action>
    requires k < |init.row.steps|
  {
    (if k == 0 then [Approve(true)] else []) +
    (if init.row.steps[k].flagged then [Job(Early(init), o, Finishes), Confirm(k, true)] else [])
  }

  function LeadConfig(init: Sys, c: Config, k: nat, o: Oracle): Config
    requires k < |init.row.steps|
  {
    var d := if k == 0 then Act(c, Approve(true)) else c;
    if init.row.steps[k].flagged then Act(Act(d, Job(Early(init), o, Finishes)), Confirm(k, true)) else d
  }

  lemma LeadRuns(init: Sys, actions: seq<Action>, k: nat, o: Oracle)
    requires k < |init.row.steps|
    ensures Run(init, actions + Lead(init, k, o)) == LeadConfig(init, Run(init, actions), k, o)
  {
    hide Act;
    var first := if k == 0 then [Approve(true)] else [];
    if k == 0 {
      RunOneMore(init, actions, Approve(true));
    } else {
      assert actions + first == actions;
    }
    if init.row.steps[k].flagged {
      var job, confirm := Job(Early(init), o, Finishes), Confirm(k, true);
      RunOneMore(init, actions + first, job);
      RunOneMore(init, actions + first + [job], confirm);
      assert actions + first + [job] + [confirm] == actions + Lead(init, k, o);
    } else {
      assert actions + Lead(init, k, o) == actions + first;
    }
  }

  predicate Poised(c: Config, k: nat) {
    && c.jobs == 1 && k < |c.db.row.steps|
    && Prefixed(c.db.row.steps, k) && !c.db.row.steps[k].flagged
    && !Terminal(c.db.row.status)
  }

  lemma PauseEvents(row: Row, now: int, o: Oracle, k: nat)
    requires k < |row.steps| && Prefixed(row.steps, k) && row.steps[k].flagged
    requires !Terminal(row.status) && row.status != AwaitingConfirmation && !Expired(row, now)
    ensures AdvanceEvents(row, now, o) == [Paused(k)] && !Continues(row, now, o)
  {
    FirstPendingIs(row.steps, k);
  }

  lemma PausedAndConfirmed(c: Config, now: int, o: Oracle, k: nat)
    requires c.jobs == 1 && k < |c.db.row.steps| && Prefixed(c.db.row.steps, k) && c.db.row.steps[k].flagged
    requires !Terminal(c.db.row.status) && c.db.row.status != AwaitingConfirmation && !Expired(c.db.row, now)
    ensures var d := Act(Act(c, Job(now, o, Finishes)), Confirm(k, true));
            && Poised(d, k)
            && d.db.row == c.db.row.(status := AwaitingConfirmation,
                                     steps := c.db.row.steps[k := c.db.row.steps[k].(flagged := false)])
            && Act(c, Job(now, o, Finishes)).jobs == 0
  {
    PauseEvents(c.db.row, now, o, k);
    ReplayOne(c.db, Paused(k));
    var m := Act(c, Job(now, o, Finishes));
    assert m.db == Apply(c.db, Paused(k)) && m.jobs == 0;
    ReplayOne(m.db, Confirmed(k));
    assert EventsOf(m, Confirm(k, true)) == [Confirmed(k)];
  }

  /** After `Lead`, one job is queued and the next call runs step `k`. */
  lemma LeadPoises(init: Sys, c: Config, k: nat, ref: Option<SecretRef>, o: Oracle)
    requires Initial(init) && Mirrors(init, c, k, ref) && k < |init.row.steps|
    ensures var d := LeadConfig(init, c, k, o);
            && Poised(d, k) && FlagsFrom(init, d.db.row.steps, k + 1) && d.db.row.newRef == ref
            && SamePlan(init.row.steps, d.db.row.steps)
            && d.db.row.planPath == init.row.planPath && d.db.row.expiresAt == init.row.expiresAt
            && SameStatuses(d.db.row.steps, c.db.row.steps)
  {
    var e := if k == 0 then Act(c, Approve(true)) else c;
    if k == 0 {
      ApproveInitial(init);
    }
    assert e.jobs == 1 && e.db == c.db && !Terminal(e.db.row.status) && e.db.row.status != AwaitingConfirmation;
    if init.row.steps[k].flagged {
      PausedAndConfirmed(e, Early(init), o, k);
    }
  }

  lemma PoisedEvents(c: Config, now: int, o: Oracle, k: nat)
    requires Poised(c, k) && !Expired(c.db.row, now)
    requires c.db.row.steps[k].kind == Revoke ==> GateOpen(c.db.row.steps)
    ensures AdvanceEvents(c.db.row, now, o) == RunEvents(c.db.row, k, o)
    ensures Continues(c.db.row, now, o) <==> StepOk(c.db.row.steps[k], c.db.row, o.exec) && k + 1 < |c.db.row.steps|
  {
    FirstPendingIs(c.db.row.steps, k);
    if k + 1 < |c.db.row.steps| {
      assert c.db.row.steps[k + 1].status == Pending;
    }
  }

  function DoneRow(row: Row, k: nat, ref: Option<SecretRef>): Row
    requires k < |row.steps|
  {
    row.(status := if PendingAfter(row.steps, k) then RunningStatus(row.steps[k].kind) else Completed,
         steps := SetStep(row.steps, k, Done),
         newRef := if ref.Some? then ref else row.newRef)
  }

  lemma RecordedRow(row: Row, s: Sys, k: nat, ref: Option<SecretRef>)
    requires k < |row.steps| && s.row == row.(status := RunningStatus(row.steps[k].kind))
    ensures Replay(s, DoneEvents(row, k, ref)).row == DoneRow(row, k, ref)
  {
    if PendingAfter(row.steps, k) {
      assert DoneEvents(row, k, ref) == [StepDone(k, ref)];
      ReplayOne(s, StepDone(k, ref));
    } else {
      assert DoneEvents(row, k, ref) == [StepDone(k, ref), Finished(Completed)];
      ReplayTwo(s, StepDone(k, ref), Finished(Completed));
    }
  }

  /** The row after a step that succeeded. */
  lemma DoneState(s: Sys, k: nat, o: Oracle)
    requires !Terminal(s.row.status) && Due(s, k) && GatePasses(s, k)
    requires s.row.steps[k].flagged ==> s.row.status == AwaitingConfirmation
    requires StepOk(s.row.steps[k], s.row, o.exec)
    ensures Replay(s, RunEvents(s.row, k, o)).row == DoneRow(s.row, k, RefFrom(s.row.steps[k], s.row, o.exec))
  {
    hide Replay, Legal, DoneEvents;
    var first := StartEvents(s.row, k, o.exec);
    ReplayAppend(s, first, ResultEvents(s.row, k, o));
    StartLegal(s, [], k, o.exec);
    RecordedRow(s.row, Replay(s, first), k, RefFrom(s.row.steps[k], s.row, o.exec));
  }

  /** One job from a poised state, with connectors that let step `k` succeed. */
  lemma PoisedRuns(c: Config, now: int, o: Oracle, k: nat)
    requires Poised(c, k) && !Expired(c.db.row, now)
    requires c.db.row.steps[k].kind == Revoke ==> GateOpen(c.db.row.steps)
    requires StepOk(c.db.row.steps[k], c.db.row, o.exec)
    ensures var d := Act(c, Job(now, o, Finishes));
            && d.db.row == DoneRow(c.db.row, k, RefFrom(c.db.row.steps[k], c.db.row, o.exec))
            && d.jobs == (if k + 1 < |c.db.row.steps| then 1 else 0)
  {
    FirstPendingIs(c.db.row.steps, k);
    PoisedEvents(c, now, o, k);
    DoneState(c.db, k, o);
  }

  lemma DoneRowPrefixed(row: Row, k: nat, ref: Option<SecretRef>)
    requires k < |row.steps| && Prefixed(row.steps, k)
    ensures Prefixed(DoneRow(row, k, ref).steps, k + 1)
    ensures PendingAfter(row.steps, k) <==> k + 1 < |row.steps|
  {
    if k + 1 < |row.steps| {
      assert row.steps[k + 1].status == Pending;
    }
  }

  function NextRef(init: Sys, k: nat, ref: Option<SecretRef>, out: Outcome): Option<SecretRef>
    requires k < |init.row.steps|
  {
    var got := RefFrom(init.row.steps[k], init.row, out);
    if got.Some? then got else ref
  }

  lemma SameGate(a: seq<Step>, b: seq<Step>)
    requires SamePlan(a, b) && SameStatuses(a, b)
    ensures GateOpen(a) <==> GateOpen(b)
  {
  }

  lemma MirrorStep(init: Sys, d: Config, k: nat, ref: Option<SecretRef>, o: Oracle)
    requires k < |init.row.steps| && SamePlan(init.row.steps, d.db.row.steps)
    requires Poised(d, k) && FlagsFrom(init, d.db.row.steps, k + 1) && d.db.row.newRef == ref
    requires d.db.row.planPath == init.row.planPath && d.db.row.expiresAt == init.row.expiresAt
    requires d.db.row.steps[k].kind == Revoke ==> GateOpen(d.db.row.steps)
    requires StepOk(d.db.row.steps[k], d.db.row, o.exec)
    ensures Mirrors(init, Act(d, Job(Early(init), o, Finishes)), k + 1, NextRef(init, k, ref, o.exec))
  {
    PoisedRuns(d, Early(init), o, k);
    DoneRowPrefixed(d.db.row, k, RefFrom(d.db.row.steps[k], d.db.row, o.exec));
  }

  /** Extends a crash-free run that has done `k` steps by one more step. */
  lemma MirrorDone(init: Sys, actions: seq<Action>, k: nat, ref: Option<SecretRef>, o: Oracle)
    returns (more: seq<Action>)
    requires Initial(init) && CrashFreeRun(actions) && Mirrors(init, Run(init, actions), k, ref)
    requires k < |init.row.steps|
    requires var row := Run(init, actions).db.row;
             && (row.steps[k].kind == Revoke ==> GateOpen(row.steps))
             && StepOk(row.steps[k], row, o.exec)
    ensures CrashFreeRun(more) && Mirrors(init, Run(init, more), k + 1, NextRef(init, k, ref, o.exec))
  {
    hide Act, LeadConfig, Run;
    var c := Run(init, actions);
    var d, job := LeadConfig(init, c, k, o), Job(Early(init), o, Finishes);
    more := actions + Lead(init, k, o) + [job];
    LeadRuns(init, actions, k, o);
    RunOneMore(init, actions + Lead(init, k, o), job);
    LeadPoises(init, c, k, ref, o);
    SameGate(c.db.row.steps, d.db.row.steps);
    MirrorStep(init, d, k, ref, o);
  }

  /** The crash-free run that mirrors a failure-free log up to `p`. */
  lemma {:induction false} MirrorLog(init: Sys, log: seq<Event>, p: nat) returns (more: seq<Action>)
    requires Initial(init) && LegalLog(init, log) && p <= |log| && NoFailure(log, p)
    ensures CrashFreeRun(more)
    ensures Mirrors(init, Run(init, more), FirstPending(At(init, log, p).row.steps), At(init, log, p).row.newRef)
    decreases p
  {
    hide Run, Legal;
    if p == 0 {
      more := [];
      MirrorNothing(init);
      assert log[..0] == [];
    } else {
      more := MirrorLog(init, log, p - 1);
      LogStep(init, log, p - 1);
      PrefixedUntilFailure(init, log, p - 1);
      var s, e := At(init, log, p - 1), log[p - 1];
      if e.StepDone? {
        more := MirrorEvent(init, more, s, log[..p - 1], e);
      } else {
        QuietEvent(s, log[..p - 1], e);
      }
    }
  }

  lemma MirrorNothing(init: Sys)
    requires Initial(init)
    ensures Mirrors(init, Run(init, []), FirstPending(init.row.steps), init.row.newRef)
  {
    FirstPendingIs(init.row.steps, 0);
  }

  /** Without a failure, only a `.done` record changes step statuses or the stored reference. */
  lemma QuietEvent(s: Sys, hist: seq<Event>, e: Event)
    requires Legal(s, hist, e) && !Failure(e) && !e.StepDone?
    requires NoFailure(hist, |hist|) && s.row.status != RollingBack
    ensures FirstPending(Apply(s, e).row.steps) == FirstPending(s.row.steps)
    ensures Apply(s, e).row.newRef == s.row.newRef
  {
    FirstPendingIs(Apply(s, e).row.steps, FirstPending(s.row.steps));
  }

  lemma DoneEventFacts(s: Sys, hist: seq<Event>, e: Event)
    requires Legal(s, hist, e) && e.StepDone? && Prefixed(s.row.steps, FirstPending(s.row.steps))
    ensures e.i == FirstPending(s.row.steps) && e.i < |s.row.steps| && LastExecuted(hist, e.i)
    ensures FirstPending(Apply(s, e).row.steps) == e.i + 1
    ensures s.row.steps[e.i].kind == Revoke ==> GateOpen(s.row.steps)
    ensures var out := hist[|hist| - 1].out;
            && StepOk(s.row.steps[e.i], s.row, out)
            && Apply(s, e).row.newRef ==
               (var got := RefFrom(s.row.steps[e.i], s.row, out); if got.Some? then got else s.row.newRef)
  {
    FirstPendingIs(Apply(s, e).row.steps, e.i + 1);
  }

  lemma MirrorEvent(init: Sys, actions: seq<Action>, s: Sys, hist: seq<Event>, e: Event)
    returns (more: seq<Action>)
    requires Initial(init) && CrashFreeRun(actions) && SamePlan(init.row.steps, s.row.steps)
    requires s.row.planPath == init.row.planPath
    requires Prefixed(s.row.steps, FirstPending(s.row.steps))
    requires Mirrors(init, Run(init, actions), FirstPending(s.row.steps), s.row.newRef)
    requires Legal(s, hist, e) && e.StepDone?
    ensures CrashFreeRun(more)
    ensures Mirrors(init, Run(init, more), FirstPending(Apply(s, e).row.steps), Apply(s, e).row.newRef)
  {
    hide Run, Legal, Apply, Act, FirstPending, Replay;
    DoneEventFacts(s, hist, e);
    var c := Run(init, actions);
    SameGate(s.row.steps, c.db.row.steps);
    more := MirrorDone(init, actions, e.i, s.row.newRef, Oracle(hist[|hist| - 1].out, {}));
  }

  // ---- failures ----

  lemma {:induction false} DoneDescendingSame(a: seq<Step>, b: seq<Step>, n: nat)
    requires SameStatuses(a, b) && n <= |a|
    ensures DoneDescending(a, n) == DoneDescending(b, n)
  {
    if n > 0 {
      DoneDescendingSame(a, b, n - 1);
    }
  }

  predicate SameForRollback(a: Row, b: Row) {
    SamePlan(a.steps, b.steps) && SameStatuses(a.steps, b.steps) && a.newRef == b.newRef
  }

  lemma {:induction false} UndoEventsSame(a: Row, b: Row, todo: seq<nat>, fails: set<nat>)
    requires SameForRollback(a, b) && InPlan(a, todo)
    ensures InPlan(b, todo) && UndoEvents(a, todo, fails) == UndoEvents(b, todo, fails)
    decreases |todo|
  {
    if todo != [] {
      UndoEventsSame(a, b, todo[..|todo| - 1], fails);
    }
  }

  lemma RollbackEventsSame(a: Row, b: Row, fails: set<nat>)
    requires SameForRollback(a, b)
    ensures RollbackEvents(a, fails) == RollbackEvents(b, fails)
  {
    DoneDescendingSame(a.steps, b.steps, |a.steps|);
    var todo := DoneDescending(a.steps, |a.steps|);
    UndoEventsSame(a, b, todo, fails);
    VerdictSame(a, b, todo, fails);
  }

  lemma VerdictSame(a: Row, b: Row, todo: seq<nat>, fails: set<nat>)
    requires SameForRollback(a, b) && InPlan(a, todo) && InPlan(b, todo)
    ensures RollbackVerdict(a, todo, fails) == RollbackVerdict(b, todo, fails)
  {
    assert forall k :: 0 <= k < |todo| ==>
      UndoOk(a.steps[todo[k]], a, todo[k], fails) == UndoOk(b.steps[todo[k]], b, todo[k], fails);
  }

  /** The same events take equal status vectors to equal status vectors. */
  lemma {:induction false} StatusesFollow(s: Sys, t: Sys, events: seq<Event>)
    requires SameStatuses(s.row.steps, t.row.steps)
    ensures SameStatuses(Replay(s, events).row.steps, Replay(t, events).row.steps)
    decreases |events|
  {
    if events != [] {
      StatusesFollow(s, t, events[..|events| - 1]);
      StatusesFollowOne(Replay(s, events[..|events| - 1]), Replay(t, events[..|events| - 1]), events[|events| - 1]);
    }
  }

  lemma StatusesFollowOne(s: Sys, t: Sys, e: Event)
    requires SameStatuses(s.row.steps, t.row.steps)
    ensures SameStatuses(Apply(s, e).row.steps, Apply(t, e).row.steps)
  {
  }

  lemma AtSplit(init: Sys, log: seq<Event>, p: nat, q: nat)
    requires p <= q <= |log|
    ensures At(init, log, q) == Replay(At(init, log, p), log[p..q])
  {
    assert log[..q] == log[..p] + log[p..q];
    ReplayAppend(init, log[..p], log[p..q]);
  }

  /** In a clean run the log ends with the whole rollback of the failed step. */
  lemma {:induction false} CleanTail(init: Sys, actions: seq<Action>, p: nat) returns (fails: set<nat>)
    requires CleanRun(init, actions) && p < |Run(init, actions).log| && Run(init, actions).log[p].StepFailed?
    ensures var log := Run(init, actions).log;
            log[p..] == [log[p]] + RollbackEvents(At(init, log, p).row, fails)
    decreases |actions|
  {
    if actions == [] {
      fails := {};
    } else {
      hide Run;
      RunLast(init, actions);
      var before, a := actions[..|actions| - 1], actions[|actions| - 1];
      var c := Run(init, before);
      if p < |c.log| {
        CleanOrRolledUp(init, before);
        NothingMore(c, a, p);
        fails := CleanTail(init, before, p);
      } else {
        RunLegal(init, before);
        fails := CleanTailAct(init, c, a, p);
      }
    }
  }

  lemma NothingMore(c: Config, a: Action, p: nat)
    requires p < |c.log| && Failure(c.log[p]) && (NoFailure(c.log, |c.log|) || RolledUp(c.db.row.status))
    ensures Act(c, a).log == c.log
  {
    assert EventsOf(c, a) == [];
  }

  lemma CleanTailAct(init: Sys, c: Config, a: Action, p: nat) returns (fails: set<nat>)
    requires c.db == Replay(init, c.log) && CleanAct(c, a)
    requires |c.log| <= p < |Act(c, a).log| && Act(c, a).log[p].StepFailed?
    ensures var log := Act(c, a).log;
            log[p..] == [log[p]] + RollbackEvents(At(init, log, p).row, fails)
  {
    hide EventsOf, AdvanceEvents, JobsAfter, RollbackEvents, Replay, CleanAct;
    var k := p - |c.log|;
    assert EventsOf(c, a)[k] == Act(c, a).log[p];
    FailingAct(c, a, k);
    FailureTail(c.db, a.now, a.o, k);
    TailRow(init, c, a, k);
    fails := a.o.undoFails;
    assert Act(c, a).log[p..] == EventsOf(c, a)[k..];
  }

  lemma FailingAct(c: Config, a: Action, k: nat)
    requires CleanAct(c, a) && k < |EventsOf(c, a)| && EventsOf(c, a)[k].StepFailed?
    ensures a.Job? && EventsOf(c, a) == AdvanceEvents(c.db.row, a.now, a.o)
  {
    hide AdvanceEvents;
    assert HandlesFailure(EventsOf(c, a));
  }

  lemma TailRow(init: Sys, c: Config, a: Action, k: nat)
    requires c.db == Replay(init, c.log) && a.Job? && k < |EventsOf(c, a)| && EventsOf(c, a)[k].StepFailed?
    requires EventsOf(c, a)[k].i < |c.db.row.steps|
    requires EventsOf(c, a)[..k] == StartEvents(c.db.row, EventsOf(c, a)[k].i, a.o.exec)
    ensures RollbackEvents(At(init, Act(c, a).log, |c.log| + k).row, a.o.undoFails) ==
            RollbackEvents(c.db.row, a.o.undoFails)
  {
    hide RollbackEvents, EventsOf, JobsAfter, Replay, Apply, StartEvents;
    var events := EventsOf(c, a);
    assert Act(c, a).log[..|c.log| + k] == c.log + events[..k];
    ReplayAppend(init, c.log, events[..k]);
    StartKeeps(c.db, events[k].i, a.o.exec);
    RollbackEventsSame(c.db.row, At(init, Act(c, a).log, |c.log| + k).row, a.o.undoFails);
  }

  /** Extends a crash-free run that has done `k` steps by the failure of the next one. */
  lemma MirrorFail(init: Sys, actions: seq<Action>, k: nat, ref: Option<SecretRef>, o: Oracle)
    returns (more: seq<Action>, q: nat)
    requires Initial(init) && CrashFreeRun(actions) && Mirrors(init, Run(init, actions), k, ref)
    requires k < |init.row.steps|
    requires var row := Run(init, actions).db.row;
             && (row.steps[k].kind == Revoke ==> GateOpen(row.steps))
             && !StepOk(row.steps[k], row, o.exec)
    ensures CrashFreeRun(more)
    ensures var log := Run(init, more).log;
            && q <= |log|
            && log[q..] == [StepFailed(k)] + RollbackEvents(Run(init, actions).db.row, o.undoFails)
            && SameStatuses(At(init, log, q).row.steps, Run(init, actions).db.row.steps)
  {
    hide Act, LeadConfig, Run, Apply, Legal, Replay, RollbackEvents;
    var c := Run(init, actions);
    var d, job := LeadConfig(init, c, k, o), Job(Early(init), o, Finishes);
    more := actions + Lead(init, k, o) + [job];
    LeadRuns(init, actions, k, o);
    RunOneMore(init, actions + Lead(init, k, o), job);
    LeadPoises(init, c, k, ref, o);
    SameGate(c.db.row.steps, d.db.row.steps);
    RunLegal(init, actions + Lead(init, k, o));
    q := FailedJob(init, d, k, o);
    RollbackEventsSame(c.db.row, d.db.row, o.undoFails);
  }

  lemma FailedJob(init: Sys, d: Config, k: nat, o: Oracle) returns (q: nat)
    requires d.db == Replay(init, d.log) && Poised(d, k) && !Expired(d.db.row, Early(init))
    requires d.db.row.steps[k].kind == Revoke ==> GateOpen(d.db.row.steps)
    requires !StepOk(d.db.row.steps[k], d.db.row, o.exec)
    ensures var log := Act(d, Job(Early(init), o, Finishes)).log;
            && q <= |log|
            && log[q..] == [StepFailed(k)] + RollbackEvents(d.db.row, o.undoFails)
            && At(init, log, q).row.steps == d.db.row.steps
  {
    hide Apply, Replay, RollbackEvents, AdvanceEvents, Continues, StartEvents;
    var first := StartEvents(d.db.row, k, o.exec);
    PoisedEvents(d, Early(init), o, k);
    q := |d.log| + |first|;
    var log := Act(d, Job(Early(init), o, Finishes)).log;
    assert log == d.log + (first + ([StepFailed(k)] + RollbackEvents(d.db.row, o.undoFails)));
    assert log[..q] == d.log + first;
    ReplayAppend(init, d.log, first);
    StartKeeps(d.db, k, o.exec);
  }

  lemma FailEventFacts(s: Sys, hist: seq<Event>, e: Event)
    requires Legal(s, hist, e) && e.StepFailed?
    ensures e.i == FirstPending(s.row.steps) && e.i < |s.row.steps| && LastExecuted(hist, e.i)
    ensures s.row.steps[e.i].kind == Revoke ==> GateOpen(s.row.steps)
    ensures !StepOk(s.row.steps[e.i], s.row, hist[|hist| - 1].out)
  {
  }

  lemma FirstFailure(log: seq<Event>, p: nat) returns (f: nat)
    requires p <= |log| && !NoFailure(log, p)
    ensures f < p && Failure(log[f]) && NoFailure(log, f)
  {
    f := 0;
    while !Failure(log[f])
      invariant f < p && NoFailure(log, f)
      invariant exists q :: f <= q < p && Failure(log[q])
      decreases p - f
    {
      f := f + 1;
    }
  }

  lemma AfterStepFailed(init: Sys, actions: seq<Action>, f: nat, p: nat) returns (more: seq<Action>, q: nat)
    requires Initial(init) && CleanRun(init, actions)
    requires f < p <= |Run(init, actions).log| && NoFailure(Run(init, actions).log, f)
    requires Run(init, actions).log[f].StepFailed?
    ensures CrashFreeRun(more) && q <= |Run(init, more).log|
    ensures SameStatuses(At(init, Run(init, actions).log, p).row.steps, At(init, Run(init, more).log, q).row.steps)
  {
    hide Run, Legal, Apply, Act, CleanRun, Replay, RollbackEvents, FirstPending;
    var log := Run(init, actions).log;
    RunLegal(init, actions);
    var s := At(init, log, f);
    LogStep(init, log, f);
    FailEventFacts(s, log[..f], log[f]);
    PrefixedUntilFailure(init, log, f);
    var fails := CleanTail(init, actions, f);
    var mirror := MirrorLog(init, log, f);
    var row := Run(init, mirror).db.row;
    SameGate(s.row.steps, row.steps);
    var r;
    more, r := MirrorFail(init, mirror, log[f].i, s.row.newRef, Oracle(log[f - 1].out, fails));
    RollbackEventsSame(s.row, row, fails);
    var log' := Run(init, more).log;
    q := r + (p - f);
    assert log'[r..] == log[f..];
    assert log'[r..q] == log'[r..][..p - f] && log[f..p] == log[f..][..p - f];
    AtSplit(init, log, f, p);
    AtSplit(init, log', r, q);
    StatusesFollow(s, At(init, log', r), log[f..p]);
  }

  lemma AfterSimulated(init: Sys, actions: seq<Action>, f: nat, p: nat) returns (more: seq<Action>, q: nat)
    requires Initial(init) && f < p <= |Run(init, actions).log| && Run(init, actions).log[f].Simulated?
    ensures CrashFreeRun(more) && q <= |Run(init, more).log|
    ensures SameStatuses(At(init, Run(init, actions).log, p).row.steps, At(init, Run(init, more).log, q).row.steps)
  {
    hide Run, Replay, Act, Legal;
    var log := Run(init, actions).log;
    RunLegal(init, actions);
    LogStep(init, log, f);
    SimulatedFacts(init, log, f);
    TerminalIsLast(init, actions, f + 1);
    more, q := [SimulateFailure], 1;
    SimulatedAlone(init);
    StatusesFollowOne(At(init, log, f), init, Simulated);
  }

  lemma SimulatedFacts(init: Sys, log: seq<Event>, f: nat)
    requires Initial(init) && LegalLog(init, log) && f < |log|
    requires Legal(At(init, log, f), log[..f], Simulated)
    ensures SameStatuses(At(init, log, f).row.steps, init.row.steps)
    ensures Terminal(Apply(At(init, log, f), Simulated).row.status)
  {
    LegalPrefix(init, [], log, f);
    UntouchedUntilStarted(init, log[..f]);
  }

  lemma SimulatedAlone(init: Sys)
    requires Initial(init)
    ensures var log := Run(init, [SimulateFailure]).log;
            |log| == 1 && At(init, log, 1) == Apply(init, Simulated)
  {
    RunLast(init, [SimulateFailure]);
    assert [SimulateFailure][..0] == [];
    ReplayOne(init, Simulated);
    assert [] + [Simulated] == [Simulated] && [Simulated][..1] == [Simulated];
  }

  /** Crash recovery: every vector of step statuses that a run commits, with crashes
      anywhere outside failure handling, some crash-free run commits as well. */
  lemma CrashesAddNoVectors(init: Sys, actions: seq<Action>, p: nat) returns (more: seq<Action>, q: nat)
    requires Initial(init) && CleanRun(init, actions) && p <= |Run(init, actions).log|
    ensures CrashFreeRun(more) && q <= |Run(init, more).log|
    ensures SameStatuses(At(init, Run(init, actions).log, p).row.steps, At(init, Run(init, more).log, q).row.steps)
  {
    hide Run, Legal, Apply, CleanRun;
    var log := Run(init, actions).log;
    RunLegal(init, actions);
    if NoFailure(log, p) {
      more := MirrorLog(init, log, p);
      PrefixedUntilFailure(init, log, p);
      RunLegal(init, more);
      q := |Run(init, more).log|;
      assert Run(init, more).log[..q] == Run(init, more).log;
    } else {
      var f := FirstFailure(log, p);
      if log[f].StepFailed? {
        more, q := AfterStepFailed(init, actions, f, p);
      } else {
        more, q := AfterSimulated(init, actions, f, p);
      }
    }
  }
}
