/** Which vectors of step statuses need a crash in failure handling. */
module Vectors {
  import opened RotationTypes
  import opened EngineSpec
  import opened Machine
  import opened Safety
  import opened Recovery
  import opened CrashFree
  import Rollback

  predicate NoDoneAboveFailed(steps: seq<Step>) {
    forall i, j :: 0 <= i < j < |steps| && steps[i].status == StepStatus.Failed ==> steps[j].status != Done
  }

  lemma FailureKeepsOrder(s: Sys, hist: seq<Event>, e: Event)
    requires Legal(s, hist, e) && e.StepFailed? && Prefixed(s.row.steps, FirstPending(s.row.steps))
    ensures NoDoneAboveFailed(Apply(s, e).row.steps)
  {
  }

  lemma RollbackKeepsOrder(s: Sys, hist: seq<Event>, e: Event)
    requires Legal(s, hist, e) && InRollback(e) && NoDoneAboveFailed(s.row.steps)
    requires e.UndoStored? ==> HighestDone(s.row.steps, e.i)
    ensures NoDoneAboveFailed(Apply(s, e).row.steps)
  {
  }

  lemma UndoStoredHighest(init: Sys, log: seq<Event>, p: nat)
    requires LegalLog(init, log) && p < |log| && log[p].UndoStored?
    ensures HighestDone(At(init, log, p).row.steps, log[p].i)
  {
    LogStep(init, log, p);
    LogStep(init, log, p - 1);
  }

  lemma SimulatedKeepsOrder(s: Sys)
    requires forall i :: 0 <= i < |s.row.steps| ==> s.row.steps[i].status == Pending
    ensures NoDoneAboveFailed(Apply(s, Simulated).row.steps)
  {
  }

  lemma InTail(log: seq<Event>, row: Row, fails: set<nat>, f: nat, p: nat)
    requires f < p < |log| && log[f..] == [log[f]] + RollbackEvents(row, fails)
    ensures InRollback(log[p])
  {
    hide RollbackEvents, InRollback;
    RollbackKinds(row, fails);
    assert log[p] == log[f..][p - f] == RollbackEvents(row, fails)[p - f - 1];
  }

  lemma {:induction false} OrderedAfter(init: Sys, log: seq<Event>, row: Row, fails: set<nat>, f: nat, p: nat)
    requires Initial(init) && LegalLog(init, log) && f < p <= |log| && NoFailure(log, f) && log[f].StepFailed?
    requires log[f..] == [log[f]] + RollbackEvents(row, fails)
    ensures NoDoneAboveFailed(At(init, log, p).row.steps)
    decreases p
  {
    hide Legal, Apply, RollbackEvents, FirstPending, NoDoneAboveFailed;
    LogStep(init, log, p - 1);
    if p == f + 1 {
      PrefixedUntilFailure(init, log, f);
      FailureKeepsOrder(At(init, log, f), log[..f], log[f]);
    } else {
      OrderedAfter(init, log, row, fails, f, p - 1);
      InTail(log, row, fails, f, p - 1);
      if log[p - 1].UndoStored? {
        UndoStoredHighest(init, log, p - 1);
      }
      RollbackKeepsOrder(At(init, log, p - 1), log[..p - 1], log[p - 1]);
    }
  }

  lemma PrefixedIsOrdered(steps: seq<Step>, k: nat)
    requires Prefixed(steps, k)
    ensures NoDoneAboveFailed(steps)
  {
  }

  /** Without a crash in failure handling, no commit shows a done step above a failed one. */
  lemma CleanRunsAreOrdered(init: Sys, actions: seq<Action>, p: nat)
    requires Initial(init) && CleanRun(init, actions) && p <= |Run(init, actions).log|
    ensures NoDoneAboveFailed(At(init, Run(init, actions).log, p).row.steps)
  {
    hide Run, Legal, Apply, CleanRun, NoDoneAboveFailed, RollbackEvents, FirstPending;
    var log := Run(init, actions).log;
    RunLegal(init, actions);
    if NoFailure(log, p) {
      PrefixedUntilFailure(init, log, p);
      PrefixedIsOrdered(At(init, log, p).row.steps, FirstPending(At(init, log, p).row.steps));
    } else {
      var f := FirstFailure(log, p);
      if log[f].StepFailed? {
        var fails := CleanTail(init, actions, f);
        OrderedAfter(init, log, At(init, log, f).row, fails, f, p);
      } else {
        OrderedAfterSimulation(init, actions, f, p);
      }
    }
  }

  lemma OrderedAfterSimulation(init: Sys, actions: seq<Action>, f: nat, p: nat)
    requires Initial(init) && f < p <= |Run(init, actions).log| && Run(init, actions).log[f] == Simulated
    ensures NoDoneAboveFailed(At(init, Run(init, actions).log, p).row.steps)
  {
    hide Run, Legal, Apply, NoDoneAboveFailed;
    var log := Run(init, actions).log;
    RunLegal(init, actions);
    LogStep(init, log, f);
    SimulatedFacts(init, log, f);
    TerminalIsLast(init, actions, f + 1);
    SimulatedKeepsOrder(At(init, log, f));
  }

  /** The vector that a crash in failure handling leads to, failed then done, is committed
      by no crash-free run: the hypothesis of CrashesAddNoVectors is needed. */
  lemma CrashInHandlingAddsVector(init: Sys, now: int, bad: Oracle, good: Oracle, more: seq<Action>, q: nat)
    requires Initial(init) && |init.row.steps| == 2 && !init.row.steps[0].flagged && !init.row.steps[1].flagged
    requires init.row.steps[0].kind == Provision && init.row.steps[1].kind == Distribute
    requires !Expired(init.row, now) && bad.exec.create == None
    requires CrashFreeRun(more) && q <= |Run(init, more).log|
    ensures var actions := [Approve(true), Job(now, bad, Crashes(3, 1)), Job(now, good, Finishes)];
            !SameStatuses(At(init, Run(init, more).log, q).row.steps, Run(init, actions).db.row.steps)
  {
    hide Run, CleanRun;
    CrashInHandlingCompletes(init, now, bad, good);
    CrashFreeIsClean(init, more);
    CleanRunsAreOrdered(init, more, q);
  }

  // ---- an exact description ----

  /** No verify step comes after one of the first `k` steps that is a revoke. */
  predicate GatesOpen(steps: seq<Step>, k: nat) {
    forall r, v :: 0 <= r < k && r < |steps| && 0 <= v < |steps| ==>
      steps[r].kind == Revoke && steps[v].kind == Verify ==> v < r
  }

  /** One of the first `k` steps has stored a reference. */
  predicate HasRef(row: Row, k: nat) {
    row.planPath.Some? && exists j :: 0 <= j < k && j < |row.steps| && row.steps[j].kind == Provision
  }

  /** Without a reference, distribute and verify steps call no connector. */
  predicate CanFail(row: Row, k: nat)
    requires k < |row.steps|
  {
    row.steps[k].kind == Provision || row.steps[k].kind == Revoke || HasRef(row, k)
  }

  predicate CanFailUndo(row: Row, i: nat)
    requires i < |row.steps|
  {
    row.steps[i].kind == Provision && row.steps[i].undo == DeleteNewKey && row.planPath.Some?
  }

  predicate DoneThenPending(w: seq<StepStatus>, k: nat) {
    k <= |w| && forall j :: 0 <= j < |w| ==> w[j] == if j < k then Done else Pending
  }

  predicate Undoable(row: Row, j: nat, status: StepStatus)
    requires j < |row.steps|
  {
    status == Compensated || (status == StepStatus.Failed && CanFailUndo(row, j))
  }

  /** Step `k` failed, the steps from `a` up to it are undone, the lower ones not yet. */
  predicate UndoneFrom(row: Row, w: seq<StepStatus>, a: nat, k: nat) {
    && a <= k < |w| == |row.steps|
    && (forall j :: 0 <= j < a ==> w[j] == Done)
    && (forall j :: a <= j < k ==> Undoable(row, j, w[j]))
    && w[k] == StepStatus.Failed
    && (forall j :: k < j < |w| ==> w[j] == Pending)
  }

  predicate Simulation(w: seq<StepStatus>) {
    forall j :: 0 <= j < |w| ==>
      w[j] == if j <= 1 then Compensated else if j == 2 then Done else if j == 3 then StepStatus.Failed else Pending
  }

  /** The vectors of a plan: steps done in order, a failure and its rollback from the top, or
      the simulated failure. */
  predicate Reachable(row: Row, w: seq<StepStatus>) {
    && |w| == |row.steps|
    && (|| (exists k :: 0 <= k <= |w| && DoneThenPending(w, k) && GatesOpen(row.steps, k))
        || (exists k :: 0 <= k < |w| && FailedAt(row, w, k))
        || Simulation(w))
  }

  predicate FailedAt(row: Row, w: seq<StepStatus>, k: nat)
    requires k < |row.steps|
  {
    && GatesOpen(row.steps, k + 1) && CanFail(row, k)
    && exists a :: 0 <= a <= k && UndoneFrom(row, w, a, k)
  }

  predicate Shows(steps: seq<Step>, w: seq<StepStatus>) {
    |steps| == |w| && forall j :: 0 <= j < |w| ==> steps[j].status == w[j]
  }

  function Statuses(steps: seq<Step>): (w: seq<StepStatus>)
    ensures Shows(steps, w)
  {
    seq(|steps|, j requires 0 <= j < |steps| => steps[j].status)
  }

  // ---- every commit of a clean run is one of them ----

  lemma ExecutedRevokeIsLate(init: Sys, actions: seq<Action>, p: nat, r: nat, v: nat)
    requires Initial(init) && p < |Run(init, actions).log| && IsExecuted(Run(init, actions).log[p], r)
    requires r < |init.row.steps| && v < |init.row.steps|
    requires init.row.steps[r].kind == Revoke && init.row.steps[v].kind == Verify
    ensures v < r
  {
    hide Run;
    if r < v {
      MisorderedNeverRuns(init, actions, p, r, v);
    }
  }

  lemma DoneGates(init: Sys, actions: seq<Action>, p: nat, k: nat)
    requires Initial(init) && p <= |Run(init, actions).log| && NotSimulated(Run(init, actions).log, p)
    requires k <= |init.row.steps|
    requires forall j :: 0 <= j < k ==> At(init, Run(init, actions).log, p).row.steps[j].status == Done
    ensures GatesOpen(init.row.steps, k)
  {
    hide Run, SucceededAt;
    var log, steps := Run(init, actions).log, init.row.steps;
    RunLegal(init, actions);
    forall r, v | 0 <= r < k && r < |steps| && 0 <= v < |steps| && steps[r].kind == Revoke && steps[v].kind == Verify
      ensures v < r
    {
      DoneHasRecord(init, log, p, r);
      var q :| 0 < q < p <= |log| && SucceededAt(init, log, q, r);
      assert IsExecuted(log[q - 1], r) by {
        Record(init, log, q, r);
      }
      ExecutedRevokeIsLate(init, actions, q - 1, r, v);
    }
  }

  lemma Record(init: Sys, log: seq<Event>, q: nat, i: nat)
    requires 0 < q < |log| && SucceededAt(init, log, q, i)
    ensures IsExecuted(log[q - 1], i)
  {
  }

  lemma RefStep(s: Sys, hist: seq<Event>, e: Event)
    requires Legal(s, hist, e) && (s.row.newRef.Some? ==> HasPastRef(s))
    ensures Apply(s, e).row.newRef.Some? ==> HasPastRef(Apply(s, e))
  {
    var t := Apply(s, e);
    if s.row.newRef.Some? {
      var j :| 0 <= j < |s.row.steps| && s.row.steps[j].kind == Provision && s.row.steps[j].status != Pending;
      assert t.row.steps[j].kind == Provision && t.row.steps[j].status != Pending;
    } else if t.row.newRef.Some? {
      assert t.row.steps[e.i].kind == Provision && t.row.steps[e.i].status != Pending;
    }
  }

  ghost predicate HasPastRef(s: Sys) {
    && s.row.planPath.Some?
    && exists j :: 0 <= j < |s.row.steps| && s.row.steps[j].kind == Provision && s.row.steps[j].status != Pending
  }

  lemma {:induction false} RefAt(init: Sys, log: seq<Event>, p: nat)
    requires Initial(init) && LegalLog(init, log) && p <= |log|
    ensures At(init, log, p).row.newRef.Some? ==> HasPastRef(At(init, log, p))
    decreases p
  {
    hide Legal, Apply, HasPastRef;
    if p > 0 {
      RefAt(init, log, p - 1);
      LogStep(init, log, p - 1);
      RefStep(At(init, log, p - 1), log[..p - 1], log[p - 1]);
    }
  }

  /** Where the first failure is, its step could run and could fail. */
  lemma FailureIsPossible(init: Sys, actions: seq<Action>, f: nat)
    requires Initial(init) && f < |Run(init, actions).log| && NoFailure(Run(init, actions).log, f)
    requires Run(init, actions).log[f].StepFailed?
    ensures var k := Run(init, actions).log[f].i;
            k < |init.row.steps| && GatesOpen(init.row.steps, k + 1) && CanFail(init.row, k)
  {
    hide Run, Legal, Apply, HasPastRef, FirstPending;
    var log := Run(init, actions).log;
    var s, k := At(init, log, f), log[f].i;
    RunLegal(init, actions);
    LogStep(init, log, f);
    FailEventFacts(s, log[..f], log[f]);
    PrefixedUntilFailure(init, log, f);
    DoneGates(init, actions, f, k);
    assert IsExecuted(log[f - 1], k);
    forall v | 0 <= v < |init.row.steps| && init.row.steps[k].kind == Revoke && init.row.steps[v].kind == Verify
      ensures v < k
    {
      ExecutedRevokeIsLate(init, actions, f - 1, k, v);
    }
    assert SamePlan(init.row.steps, s.row.steps);
    RefAt(init, log, f);
    FailedHasRef(init, s, k, log[f - 1].out);
  }

  lemma FailedHasRef(init: Sys, s: Sys, k: nat, out: Outcome)
    requires Prefixed(s.row.steps, k) && k < |s.row.steps| && SamePlan(init.row.steps, s.row.steps)
    requires s.row.planPath == init.row.planPath && (s.row.newRef.Some? ==> HasPastRef(s))
    requires !StepOk(s.row.steps[k], s.row, out)
    ensures CanFail(init.row, k)
  {
    if s.row.newRef.Some? {
      var j :| 0 <= j < |s.row.steps| && s.row.steps[j].kind == Provision && s.row.steps[j].status != Pending;
      assert j < k && init.row.steps[j].kind == Provision;
    }
  }

  lemma FailureShows(init: Sys, s: Sys, hist: seq<Event>, e: Event)
    requires Legal(s, hist, e) && e.StepFailed? && Prefixed(s.row.steps, FirstPending(s.row.steps))
    requires |init.row.steps| == |s.row.steps|
    ensures UndoneFrom(init.row, Statuses(Apply(s, e).row.steps), e.i, e.i)
  {
  }

  lemma RollbackShows(init: Sys, s: Sys, hist: seq<Event>, e: Event, a: nat, k: nat) returns (b: nat)
    requires Legal(s, hist, e) && InRollback(e) && SamePlan(init.row.steps, s.row.steps)
    requires UndoneFrom(init.row, Statuses(s.row.steps), a, k)
    requires e.UndoStored? ==> HighestDone(s.row.steps, e.i) && (!e.ok ==> CanFailUndo(init.row, e.i))
    ensures UndoneFrom(init.row, Statuses(Apply(s, e).row.steps), b, k)
  {
    b := if e.UndoStored? then e.i else a;
    if e.UndoStored? {
      TopOfDone(init.row, s.row.steps, a, k, e.i);
    }
  }

  lemma TopOfDone(row: Row, steps: seq<Step>, a: nat, k: nat, i: nat)
    requires UndoneFrom(row, Statuses(steps), a, k) && HighestDone(steps, i)
    ensures i + 1 == a
  {
    var w := Statuses(steps);
    assert w[i] == Done;
    assert a > 0 ==> w[a - 1] == Done;
    assert forall j :: i < j < |w| ==> w[j] != Done;
  }

  lemma UndoStoredFacts(init: Sys, log: seq<Event>, p: nat)
    requires Initial(init) && LegalLog(init, log) && p < |log| && log[p].UndoStored?
    ensures log[p].i < |init.row.steps| && HighestDone(At(init, log, p).row.steps, log[p].i)
    ensures !log[p].ok ==> CanFailUndo(init.row, log[p].i)
  {
    hide Apply, At, HasPastRef;
    UndoStoredHighest(init, log, p);
    StoredAfterRan(init, log, p);
    RefAt(init, log, p - 1);
    LogStep(init, log, p);
    LogStep(init, log, p - 1);
    UndoRanFacts(init, At(init, log, p - 1), log[..p - 1], log[p - 1], log[..p], log[p], At(init, log, p)) by {
      SamePlanAt(init, log, p - 1);
    }
    SamePlanAt(init, log, p);
  }

  lemma StoredAfterRan(init: Sys, log: seq<Event>, p: nat)
    requires LegalLog(init, log) && p < |log| && log[p].UndoStored?
    ensures p > 0
  {
    LogStep(init, log, p);
  }

  lemma SamePlanAt(init: Sys, log: seq<Event>, p: nat)
    requires p <= |log|
    ensures SamePlan(init.row.steps, At(init, log, p).row.steps)
    ensures At(init, log, p).row.planPath == init.row.planPath
  {
  }

  lemma UndoRanFacts(init: Sys, s: Sys, hist: seq<Event>, ran: Event, hist': seq<Event>, e: Event, t: Sys)
    requires Legal(s, hist, ran) && Legal(t, hist', e) && e.UndoStored?
    requires hist' != [] && hist'[|hist'| - 1] == ran
    requires SamePlan(init.row.steps, s.row.steps) && s.row.planPath == init.row.planPath
    requires s.row.newRef.Some? ==> HasPastRef(s)
    ensures e.i < |init.row.steps| && (!e.ok ==> CanFailUndo(init.row, e.i))
  {
    assert ran == UndoRan(e.i, e.ok);
  }

  lemma {:induction false} RollbackShape(init: Sys, log: seq<Event>, row: Row, fails: set<nat>, f: nat, p: nat)
    returns (a: nat)
    requires Initial(init) && LegalLog(init, log) && f < p <= |log| && NoFailure(log, f) && log[f].StepFailed?
    requires log[f..] == [log[f]] + RollbackEvents(row, fails)
    ensures UndoneFrom(init.row, Statuses(At(init, log, p).row.steps), a, log[f].i)
    decreases p
  {
    hide Legal, Apply, RollbackEvents, FirstPending, UndoneFrom, InRollback, HighestDone, Statuses;
    LogStep(init, log, p - 1);
    SamePlanAt(init, log, p - 1);
    if p == f + 1 {
      a := log[f].i;
      PrefixedUntilFailure(init, log, f);
      FailureShows(init, At(init, log, f), log[..f], log[f]);
    } else {
      a := RollbackShape(init, log, row, fails, f, p - 1);
      InTail(log, row, fails, f, p - 1);
      if log[p - 1].UndoStored? {
        UndoStoredFacts(init, log, p - 1);
      }
      hide CanFailUndo, At;
      a := RollbackShows(init, At(init, log, p - 1), log[..p - 1], log[p - 1], a, log[f].i);
    }
  }

  lemma SimulationShows(s: Sys)
    requires forall i :: 0 <= i < |s.row.steps| ==> s.row.steps[i].status == Pending
    ensures Simulation(Statuses(Apply(s, Simulated).row.steps))
  {
  }

  lemma PrefixReachable(init: Sys, steps: seq<Step>, k: nat)
    requires Prefixed(steps, k) && |steps| == |init.row.steps| && GatesOpen(init.row.steps, k)
    ensures Reachable(init.row, Statuses(steps))
  {
    hide GatesOpen;
    assert DoneThenPending(Statuses(steps), k);
  }

  lemma FailureReachable(row: Row, w: seq<StepStatus>, a: nat, k: nat)
    requires k < |row.steps| && GatesOpen(row.steps, k + 1) && CanFail(row, k) && UndoneFrom(row, w, a, k)
    ensures Reachable(row, w)
  {
    hide GatesOpen;
    assert a <= k < |w| == |row.steps|;
    hide UndoneFrom;
    assert FailedAt(row, w, k);
  }

  /** What a clean run commits is described. */
  lemma CleanIsReachable(init: Sys, actions: seq<Action>, p: nat)
    requires Initial(init) && CleanRun(init, actions) && p <= |Run(init, actions).log|
    ensures Reachable(init.row, Statuses(At(init, Run(init, actions).log, p).row.steps))
  {
    hide Run, Legal, Apply, CleanRun, RollbackEvents, FirstPending, Reachable, GatesOpen, CanFail, UndoneFrom, Statuses;
    var log := Run(init, actions).log;
    RunLegal(init, actions);
    SamePlanAt(init, log, p);
    if NoFailure(log, p) {
      var k := FirstPending(At(init, log, p).row.steps);
      PrefixedUntilFailure(init, log, p);
      DoneGates(init, actions, p, k);
      PrefixReachable(init, At(init, log, p).row.steps, k);
    } else {
      var f := FirstFailure(log, p);
      if log[f].StepFailed? {
        var fails := CleanTail(init, actions, f);
        var a := RollbackShape(init, log, At(init, log, f).row, fails, f, p);
        FailureIsPossible(init, actions, f);
        FailureReachable(init.row, Statuses(At(init, log, p).row.steps), a, log[f].i);
      } else {
        SimulatedReachable(init, actions, f, p);
      }
    }
  }

  lemma SimulatedReachable(init: Sys, actions: seq<Action>, f: nat, p: nat)
    requires Initial(init) && f < p <= |Run(init, actions).log| && Run(init, actions).log[f] == Simulated
    ensures Reachable(init.row, Statuses(At(init, Run(init, actions).log, p).row.steps))
  {
    hide Run, Legal, Apply;
    var log := Run(init, actions).log;
    RunLegal(init, actions);
    LogStep(init, log, f);
    SimulatedFacts(init, log, f);
    TerminalIsLast(init, actions, f + 1);
    SamePlanAt(init, log, p);
    SimulationShows(At(init, log, f));
  }

  // ---- each of them is committed by some crash-free run ----

  // Every connector call succeeds, and every one raises.
  const GOOD := Outcome(Some(0), true, Passed, true, true)
  const BAD := Outcome(None, false, Raised, false, false)

  lemma NextStepRuns(init: Sys, row: Row, k: nat)
    requires k < |init.row.steps| && GatesOpen(init.row.steps, k + 1)
    requires Prefixed(row.steps, k) && SamePlan(init.row.steps, row.steps)
    ensures row.steps[k].kind == Revoke ==> GateOpen(row.steps)
    ensures StepOk(row.steps[k], row, GOOD)
  {
  }

  lemma HasRefMore(row: Row, k: nat)
    requires k < |row.steps|
    ensures HasRef(row, k + 1) <==> HasRef(row, k) || (row.planPath.Some? && row.steps[k].kind == Provision)
  {
  }

  lemma FewerGates(steps: seq<Step>, k: nat, less: nat)
    requires GatesOpen(steps, k) && less <= k
    ensures GatesOpen(steps, less)
  {
  }

  lemma {:induction false} ReachPrefix(init: Sys, k: nat) returns (actions: seq<Action>, ref: Option<SecretRef>)
    requires Initial(init) && k <= |init.row.steps| && GatesOpen(init.row.steps, k)
    ensures CrashFreeRun(actions) && Mirrors(init, Run(init, actions), k, ref)
    ensures ref.Some? <==> HasRef(init.row, k)
  {
    hide Run, GatesOpen, HasRef, GOOD, StepOk;
    if k == 0 {
      actions, ref := [], None;
      MirrorStart(init);
    } else {
      FewerGates(init.row.steps, k, k - 1);
      actions, ref := ReachPrefix(init, k - 1);
      NextStepRuns(init, Run(init, actions).db.row, k - 1);
      HasRefMore(init.row, k - 1);
      actions := MirrorDone(init, actions, k - 1, ref, Oracle(GOOD, {}));
      GoodRef(init, k - 1, ref);
      ref := NextRef(init, k - 1, ref, GOOD);
    }
  }

  lemma MirrorStart(init: Sys)
    requires Initial(init)
    ensures Mirrors(init, Run(init, []), 0, None) && !HasRef(init.row, 0)
  {
    MirrorNothing(init);
    FirstPendingIs(init.row.steps, 0) by {
      StartsPending(init);
    }
  }

  lemma StartsPending(init: Sys)
    requires Initial(init)
    ensures |init.row.steps| > 0 ==> init.row.steps[0].status == Pending
  {
  }

  lemma GoodRef(init: Sys, k: nat, ref: Option<SecretRef>)
    requires k < |init.row.steps|
    ensures NextRef(init, k, ref, GOOD).Some? <==>
            ref.Some? || (init.row.planPath.Some? && init.row.steps[k].kind == Provision)
  {
  }

  lemma PrefixShown(init: Sys, w: seq<StepStatus>, k: nat) returns (actions: seq<Action>, q: nat)
    requires Initial(init) && |w| == |init.row.steps| && DoneThenPending(w, k) && GatesOpen(init.row.steps, k)
    ensures CrashFreeRun(actions) && q <= |Run(init, actions).log|
    ensures Shows(At(init, Run(init, actions).log, q).row.steps, w)
  {
    hide Run, GatesOpen;
    var ref;
    actions, ref := ReachPrefix(init, k);
    RunLegal(init, actions);
    q := |Run(init, actions).log|;
    assert Run(init, actions).log[..q] == Run(init, actions).log;
  }

  // ---- the rollback, up to any of its compensations ----

  // k - 1, k - 2, ..., 0.
  function Down(k: nat): (r: seq<nat>)
    ensures |r| == k && forall x :: 0 <= x < k ==> r[x] == k - 1 - x
  {
    if k == 0 then [] else [k - 1] + Down(k - 1)
  }

  function DoneFirst(steps: seq<Step>, n: nat): seq<nat>
    requires n <= |steps|
  {
    DoneDescending(steps, n)
  }

  lemma DescendStep(steps: seq<Step>, n: nat)
    requires n <= |steps|
    ensures n == 0 ==> DoneFirst(steps, n) == []
    ensures n > 0 ==>
              DoneFirst(steps, n) == (if steps[n - 1].status == Done then [n - 1] else []) + DoneFirst(steps, n - 1)
  {
  }

  lemma {:induction false} Descending(steps: seq<Step>, n: nat, k: nat)
    requires k <= n <= |steps| && forall j :: 0 <= j < n ==> (steps[j].status == Done <==> j < k)
    ensures DoneFirst(steps, n) == Down(k)
  {
    DescendStep(steps, n);
    hide DoneFirst;
    if n > k {
      Descending(steps, n - 1, k);
    } else if n > 0 {
      Descending(steps, n - 1, k - 1);
    }
  }

  lemma {:induction false} UndoEventsPrefix(row: Row, todo: seq<nat>, fails: set<nat>, m: nat)
    requires InPlan(row, todo) && m <= |todo|
    ensures |UndoEvents(row, todo, fails)| == 2 * |todo|
    ensures UndoEvents(row, todo, fails)[..2 * m] == UndoEvents(row, todo[..m], fails)
    decreases |todo|
  {
    if m == |todo| {
      assert todo[..m] == todo;
      if todo != [] {
        UndoEventsPrefix(row, todo[..|todo| - 1], fails, 0);
      }
    } else {
      UndoEventsPrefix(row, todo[..|todo| - 1], fails, m);
      assert todo[..|todo| - 1][..m] == todo[..m];
    }
  }

  /** The state of a rollback after `m` compensations. */
  lemma RollbackUpTo(s: Sys, k: nat, fails: set<nat>, m: nat)
    requires k < |s.row.steps| && Prefixed(s.row.steps, k) && m <= k
    ensures var events := [StepFailed(k)] + RollbackEvents(s.row, fails);
            && 2 + 2 * m <= |events|
            && var after := Replay(s, events[..2 + 2 * m]).row.steps;
               && |after| == |s.row.steps| && after[k].status == StepStatus.Failed
               && (forall j :: 0 <= j < k - m ==> after[j].status == Done)
               && (forall j :: k - m <= j < k ==> after[j].status == UndoneStatus(s.row, j, fails))
               && (forall j :: k < j < |after| ==> after[j].status == Pending)
  {
    hide Replay, UndoEvents, RollbackEvents, Apply, RollingFrom, UndoneStatus, UndoneSteps, DoneDescending, Down;
    var todo := Down(k);
    Descending(s.row.steps, |s.row.steps|, k);
    var s2 := Apply(Apply(s, StepFailed(k)), RollbackStarted);
    var undo, part := UndoEvents(s.row, todo, fails), todo[..m];
    UndoEventsPrefix(s.row, todo, fails, m);
    RollbackPrefix(s, k, fails, todo, m);
    Rollback.RollbackBegins(s, k);
    UndoState(s.row, s2, part, fails);
    UndoneUpTo(s.row, s2.row.steps, Replay(s2, UndoEvents(s.row, part, fails)).row.steps, part, fails, k, m);
  }

  lemma RollbackPrefix(s: Sys, k: nat, fails: set<nat>, todo: seq<nat>, m: nat)
    requires todo == DoneDescending(s.row.steps, |s.row.steps|) && m <= |todo|
    requires |UndoEvents(s.row, todo, fails)| == 2 * |todo|
    requires UndoEvents(s.row, todo, fails)[..2 * m] == UndoEvents(s.row, todo[..m], fails)
    ensures var events := [StepFailed(k)] + RollbackEvents(s.row, fails);
            && 2 + 2 * m <= |events|
            && Replay(s, events[..2 + 2 * m]) ==
               Replay(Apply(Apply(s, StepFailed(k)), RollbackStarted), UndoEvents(s.row, todo[..m], fails))
  {
    hide Replay, UndoEvents, RollbackVerdict, Apply, DoneDescending;
    var events := [StepFailed(k)] + RollbackEvents(s.row, fails);
    assert events[..2 + 2 * m] == [StepFailed(k), RollbackStarted] + UndoEvents(s.row, todo[..m], fails);
    ReplayAppend(s, [StepFailed(k), RollbackStarted], UndoEvents(s.row, todo[..m], fails));
    ReplayTwo(s, StepFailed(k), RollbackStarted);
  }

  lemma UndoneUpTo(row: Row, before: seq<Step>, after: seq<Step>, part: seq<nat>, fails: set<nat>, k: nat, m: nat)
    requires InPlan(row, part) && UndoneSteps(row, before, after, part, fails)
    requires m <= k < |row.steps| && |part| == m && forall x :: 0 <= x < m ==> part[x] == k - 1 - x
    ensures forall j :: k - m <= j < k ==> after[j].status == UndoneStatus(row, j, fails)
    ensures forall j :: 0 <= j < |after| && !(k - m <= j < k) ==> after[j] == before[j]
  {
    hide UndoneStatus;
    forall j | k - m <= j < k
      ensures after[j].status == UndoneStatus(row, j, fails)
    {
      assert part[k - 1 - j] == j;
    }
  }

  function FailedBelow(w: seq<StepStatus>, k: nat): set<nat> {
    set j: nat | j < k && j < |w| && w[j] == StepStatus.Failed
  }

  lemma UndoneAsShown(init: Sys, row: Row, w: seq<StepStatus>, a: nat, k: nat, j: nat)
    requires UndoneFrom(init.row, w, a, k) && a <= j < k && |row.steps| == |w|
    requires SamePlan(init.row.steps, row.steps) && (row.newRef.Some? <==> HasRef(init.row, k))
    ensures UndoneStatus(row, j, FailedBelow(w, k)) == w[j]
  {
    assert Undoable(init.row, j, w[j]);
    if w[j] == StepStatus.Failed {
      assert HasRef(init.row, k);
    }
  }

  lemma FailsHere(init: Sys, row: Row, k: nat)
    requires k < |row.steps| && SamePlan(init.row.steps, row.steps)
    requires (row.newRef.Some? <==> HasRef(init.row, k)) && CanFail(init.row, k)
    ensures !StepOk(row.steps[k], row, BAD)
  {
  }

  lemma FailureShown(init: Sys, w: seq<StepStatus>, a: nat, k: nat) returns (actions: seq<Action>, q: nat)
    requires Initial(init) && UndoneFrom(init.row, w, a, k)
    requires GatesOpen(init.row.steps, k + 1) && CanFail(init.row, k)
    ensures CrashFreeRun(actions) && q <= |Run(init, actions).log|
    ensures Shows(At(init, Run(init, actions).log, q).row.steps, w)
  {
    hide Run, GatesOpen, CanFail, HasRef, BAD, GOOD, StepOk, RollbackEvents, Replay, UndoneStatus;
    FewerGates(init.row.steps, k + 1, k);
    var before, ref := ReachPrefix(init, k);
    var row, fails := Run(init, before).db.row, FailedBelow(w, k);
    NextStepRuns(init, row, k);
    FailsHere(init, row, k);
    var r;
    actions, r := MirrorFail(init, before, k, ref, Oracle(BAD, fails));
    var log := Run(init, actions).log;
    RollbackUpTo(Run(init, before).db, k, fails, k - a);
    q := r + (2 + 2 * (k - a));
    assert log[r..q] == log[r..][..q - r];
    AtSplit(init, log, r, q);
    StatusesFollow(At(init, log, r), Run(init, before).db, log[r..q]);
    forall j | a <= j < k
      ensures UndoneStatus(row, j, fails) == w[j]
    {
      UndoneAsShown(init, row, w, a, k, j);
    }
  }

  lemma SimulationShown(init: Sys, w: seq<StepStatus>)
    requires Initial(init) && |w| == |init.row.steps| && Simulation(w)
    ensures var log := Run(init, [SimulateFailure]).log;
            |log| == 1 && Shows(At(init, log, 1).row.steps, w)
  {
    SimulatedAlone(init);
  }

  ghost predicate ShownCrashFree(init: Sys, w: seq<StepStatus>) {
    exists actions, q :: CrashFreeRun(actions) && ShownAt(init, actions, q, w)
  }

  ghost predicate ShownClean(init: Sys, w: seq<StepStatus>) {
    exists actions, q :: CleanRun(init, actions) && ShownAt(init, actions, q, w)
  }

  ghost predicate ShownAt(init: Sys, actions: seq<Action>, q: nat, w: seq<StepStatus>) {
    q <= |Run(init, actions).log| && Shows(At(init, Run(init, actions).log, q).row.steps, w)
  }

  lemma ReachableIsShown(init: Sys, w: seq<StepStatus>)
    requires Initial(init) && Reachable(init.row, w)
    ensures ShownCrashFree(init, w)
  {
    hide Run, GatesOpen, DoneThenPending, FailedAt, Simulation, Shows;
    if k :| 0 <= k <= |w| && DoneThenPending(w, k) && GatesOpen(init.row.steps, k) {
      var actions, q := PrefixShown(init, w, k);
      assert ShownAt(init, actions, q, w);
    } else if k :| 0 <= k < |w| && FailedAt(init.row, w, k) {
      var a := FailedFrom(init.row, w, k);
      var actions, q := FailureShown(init, w, a, k);
      assert ShownAt(init, actions, q, w);
    } else {
      SimulationShown(init, w);
      assert CrashFreeRun([SimulateFailure]);
      assert ShownAt(init, [SimulateFailure], 1, w);
    }
  }

  lemma FailedFrom(row: Row, w: seq<StepStatus>, k: nat) returns (a: nat)
    requires k < |row.steps| && FailedAt(row, w, k)
    ensures UndoneFrom(row, w, a, k) && GatesOpen(row.steps, k + 1) && CanFail(row, k)
  {
    hide UndoneFrom, GatesOpen, CanFail;
    a :| 0 <= a <= k && UndoneFrom(row, w, a, k);
  }

  lemma ShownIsReachable(init: Sys, actions: seq<Action>, q: nat, w: seq<StepStatus>)
    requires Initial(init) && CleanRun(init, actions) && ShownAt(init, actions, q, w)
    ensures Reachable(init.row, w)
  {
    hide Run, CleanRun, Reachable;
    CleanIsReachable(init, actions, q);
    assert Statuses(At(init, Run(init, actions).log, q).row.steps) == w;
  }

  /** The vectors of step statuses that crash-free runs commit, and likewise those that runs
      without a crash in failure handling commit, are exactly the reachable ones. */
  lemma VectorsExactly(init: Sys, w: seq<StepStatus>)
    requires Initial(init)
    ensures ShownCrashFree(init, w) <==> Reachable(init.row, w)
    ensures ShownClean(init, w) <==> Reachable(init.row, w)
  {
    hide Run, CleanRun, Reachable, ShownAt, CrashFreeRun;
    if Reachable(init.row, w) {
      ReachableIsShown(init, w);
      var actions, q :| CrashFreeRun(actions) && ShownAt(init, actions, q, w);
      CrashFreeIsClean(init, actions);
    }
    if ShownClean(init, w) {
      var actions, q :| CleanRun(init, actions) && ShownAt(init, actions, q, w);
      ShownIsReachable(init, actions, q, w);
    }
    if ShownCrashFree(init, w) {
      var actions, q :| CrashFreeRun(actions) && ShownAt(init, actions, q, w);
      CrashFreeIsClean(init, actions);
      ShownIsReachable(init, actions, q, w);
    }
  }
}
