/** Properties of every run: any plan, any connector answers, duplicate jobs, crashes
    after any durable effect. */
module Safety {
  import opened RotationTypes
  import opened EngineSpec
  import opened Machine

  predicate Failure(e: Event) {
    e.StepFailed? || e.Simulated?
  }

  predicate IsStepDone(e: Event, i: nat) {
    e.StepDone? && e.i == i
  }

  predicate IsExecuted(e: Event, i: nat) {
    e.Executed? && e.i == i
  }

  // ---- statuses ----

  /** The status that a started step puts the rotation in. */
  lemma StartedStatus(init: Sys, actions: seq<Action>, p: nat)
    requires p < |Run(init, actions).log| && Run(init, actions).log[p].Started?
    requires Run(init, actions).log[p].i < |init.row.steps|
    ensures var kind := init.row.steps[Run(init, actions).log[p].i].kind;
            var status := At(init, Run(init, actions).log, p + 1).row.status;
            && (kind == Provision <==> status == Provisioning) && (kind == Distribute <==> status == Distributing)
            && (kind == Verify <==> status == Verifying) && (kind == Revoke <==> status == Revoking)
  {
    hide Run, Legal;
    var log := Run(init, actions).log;
    RunLegal(init, actions);
    LogStep(init, log, p);
    assert SamePlan(init.row.steps, At(init, log, p).row.steps);
  }

  /** After a commit that makes the rotation terminal, no durable effect follows. */
  lemma TerminalIsLast(init: Sys, actions: seq<Action>, p: nat)
    requires p <= |Run(init, actions).log| && Terminal(At(init, Run(init, actions).log, p).row.status)
    ensures p == |Run(init, actions).log|
  {
    RunLegal(init, actions);
    if p < |Run(init, actions).log| {
      LogStep(init, Run(init, actions).log, p);
    }
  }

  // ---- one step over time ----

  lemma {:induction false} SettledStays(init: Sys, log: seq<Event>, q: nat, p: nat, i: nat)
    requires LegalLog(init, log) && q <= p <= |log| && i < |init.row.steps|
    requires At(init, log, q).row.steps[i].status != Pending
    ensures At(init, log, p).row.steps[i].status != Pending
    decreases p
  {
    hide Legal, Apply;
    if q < p {
      SettledStays(init, log, q, p - 1, i);
      LogStep(init, log, p - 1);
      SettledStep(At(init, log, p - 1), log[..p - 1], log[p - 1], i);
    }
  }

  lemma SettledStep(s: Sys, hist: seq<Event>, e: Event, i: nat)
    requires Legal(s, hist, e) && i < |s.row.steps| && s.row.steps[i].status != Pending
    ensures Apply(s, e).row.steps[i].status != Pending
  {
  }

  /** Each step has at most one `.done` record, and never executes after it. */
  lemma DoneOnceThenNeverRuns(init: Sys, actions: seq<Action>, q: nat, p: nat, i: nat)
    requires q < p < |Run(init, actions).log| && i < |init.row.steps|
    requires IsStepDone(Run(init, actions).log[q], i)
    ensures !IsStepDone(Run(init, actions).log[p], i)
    ensures !IsExecuted(Run(init, actions).log[p], i)
  {
    var log := Run(init, actions).log;
    RunLegal(init, actions);
    LogStep(init, log, q);
    SettledStays(init, log, q + 1, p, i);
    LogStep(init, log, p);
  }

  /** Before `p`, step `i` executed, its connector calls succeeded and its result was committed. */
  ghost predicate SucceededBefore(init: Sys, log: seq<Event>, p: nat, i: nat) {
    exists q :: 0 < q < p <= |log| && SucceededAt(init, log, q, i)
  }

  predicate SucceededAt(init: Sys, log: seq<Event>, q: nat, i: nat)
    requires 0 < q < |log|
  {
    && IsStepDone(log[q], i) && IsExecuted(log[q - 1], i)
    && var s := At(init, log, q - 1);
       i < |s.row.steps| && StepOk(s.row.steps[i], s.row, log[q - 1].out)
  }

  lemma DoneSucceeded(init: Sys, log: seq<Event>, q: nat, i: nat)
    requires LegalLog(init, log) && q < |log| && IsStepDone(log[q], i)
    ensures q > 0 && SucceededAt(init, log, q, i)
  {
    LogStep(init, log, q);
    LogStep(init, log, q - 1);
    assert log[..q][|log[..q]| - 1] == log[q - 1];
  }

  // ---- what a recorded result means for the connector calls ----

  /** Step `i` is recorded done at `q`, right after an execution whose calls all answered as
      they should: a created key and, with a plan, a kept write; a kept write and a positive
      verification, if there is a reference; both revoking calls. */
  predicate AnsweredAt(init: Sys, log: seq<Event>, q: nat, i: nat)
    requires 0 < q < |log|
  {
    && IsStepDone(log[q], i) && IsExecuted(log[q - 1], i)
    && var row, out := At(init, log, q - 1).row, log[q - 1].out;
       && i < |row.steps|
       && match row.steps[i].kind
          case Provision => out.create != None && (row.planPath == None || out.writeOk)
          case Distribute => row.newRef == None || out.writeOk
          case Verify => row.newRef == None || out.verify == Passed
          case Revoke => out.disableOk && out.deleteOk
  }

  ghost predicate AnsweredBefore(init: Sys, log: seq<Event>, p: nat, i: nat) {
    exists q :: 0 < q < p <= |log| && AnsweredAt(init, log, q, i)
  }

  lemma ResultStep(s: Sys, hist: seq<Event>, e: Event)
    requires Legal(s, hist, e) && (e.StepDone? || e.StepFailed?)
    ensures hist != [] && IsExecuted(hist[|hist| - 1], e.i) && e.i < |s.row.steps|
    ensures var row, out := s.row, hist[|hist| - 1].out;
            e.StepDone? <==>
            match row.steps[e.i].kind
            case Provision => out.create != None && (row.planPath == None || out.writeOk)
            case Distribute => row.newRef == None || out.writeOk
            case Verify => row.newRef == None || out.verify == Passed
            case Revoke => out.disableOk && out.deleteOk
  {
  }

  lemma ExecutionKeepsRow(s: Sys, e: Event)
    requires e.Executed?
    ensures Apply(s, e).row == s.row
  {
  }

  /** A result is recorded right after an execution, and as done exactly if all calls of that
      execution answered as they should. */
  lemma RecordedAsAnswered(init: Sys, actions: seq<Action>, q: nat)
    requires q < |Run(init, actions).log|
    requires Run(init, actions).log[q].StepDone? || Run(init, actions).log[q].StepFailed?
    ensures var log := Run(init, actions).log;
            && q > 0 && IsExecuted(log[q - 1], log[q].i)
            && (log[q].StepDone? <==> AnsweredThere(init, log, q))
  {
    hide Run;
    RunLegal(init, actions);
    RecordedThere(init, Run(init, actions).log, q);
  }

  /** The calls of the execution before `q` all answered as they should. */
  predicate AnsweredThere(init: Sys, log: seq<Event>, q: nat)
    requires 0 < q < |log| && log[q - 1].Executed?
  {
    var row, i, out := At(init, log, q - 1).row, log[q - 1].i, log[q - 1].out;
    && i < |row.steps|
    && (row.steps[i].kind == Provision ==> out.create != None && (row.planPath == None || out.writeOk))
    && (row.steps[i].kind == Distribute ==> row.newRef == None || out.writeOk)
    && (row.steps[i].kind == Verify ==> row.newRef == None || out.verify == Passed)
    && (row.steps[i].kind == Revoke ==> out.disableOk && out.deleteOk)
  }

  lemma RecordedThere(init: Sys, log: seq<Event>, q: nat)
    requires LegalLog(init, log) && q < |log| && (log[q].StepDone? || log[q].StepFailed?)
    ensures q > 0 && IsExecuted(log[q - 1], log[q].i)
    ensures log[q].StepDone? <==> AnsweredThere(init, log, q)
    ensures log[q].StepDone? <==> AnsweredAt(init, log, q, log[q].i)
  {
    hide Legal, Apply, StepOk;
    LogStep(init, log, q);
    ResultStep(At(init, log, q), log[..q], log[q]);
    assert log[..q][q - 1] == log[q - 1];
    LogStep(init, log, q - 1);
    ExecutionKeepsRow(At(init, log, q - 1), log[q - 1]);
  }

  /** A verify step with a reference whose check was refused or raised is never recorded done. */
  lemma RefusedIsNeverDone(init: Sys, actions: seq<Action>, q: nat)
    requires 0 < q < |Run(init, actions).log| && Run(init, actions).log[q - 1].Executed?
    requires var log := Run(init, actions).log;
             var row, i := At(init, log, q - 1).row, log[q - 1].i;
             i < |row.steps| && row.steps[i].kind == Verify && row.newRef != None && log[q - 1].out.verify != Passed
    ensures !Run(init, actions).log[q].StepDone?
  {
    hide Run;
    if Run(init, actions).log[q].StepDone? {
      RecordedAsAnswered(init, actions, q);
    }
  }

  // ---- what a done step has behind it ----

  predicate NotSimulated(log: seq<Event>, p: nat)
    requires p <= |log|
  {
    forall q :: 0 <= q < p ==> !log[q].Simulated?
  }

  /** A step is done only through a committed, successful execution, or because the demo
      simulated it. */
  lemma {:induction false} DoneHasRecord(init: Sys, log: seq<Event>, p: nat, i: nat)
    requires Initial(init) && LegalLog(init, log) && p <= |log| && i < |init.row.steps|
    requires NotSimulated(log, p) && At(init, log, p).row.steps[i].status == Done
    ensures SucceededBefore(init, log, p, i) && AnsweredBefore(init, log, p, i)
    decreases p
  {
    hide Legal, Apply, SucceededAt, AnsweredAt, AnsweredThere;
    if p > 0 {
      LogStep(init, log, p - 1);
      if At(init, log, p - 1).row.steps[i].status == Done {
        DoneHasRecord(init, log, p - 1, i);
        var q :| 0 < q < p - 1 <= |log| && SucceededAt(init, log, q, i);
        var r :| 0 < r < p - 1 <= |log| && AnsweredAt(init, log, r, i);
      } else {
        BecomesDone(At(init, log, p - 1), log[..p - 1], log[p - 1], i);
        DoneSucceeded(init, log, p - 1, i);
        RecordedThere(init, log, p - 1);
      }
    }
  }

  lemma BecomesDone(s: Sys, hist: seq<Event>, e: Event, i: nat)
    requires Legal(s, hist, e) && i < |s.row.steps| && !e.Simulated?
    requires s.row.steps[i].status != Done && Apply(s, e).row.steps[i].status == Done
    ensures IsStepDone(e, i)
  {
  }

  /** A simulated failure is the last effect of its run. */
  lemma NoSimulationBefore(init: Sys, log: seq<Event>, p: nat)
    requires LegalLog(init, log) && p < |log|
    ensures NotSimulated(log, p)
  {
    hide Legal, Apply;
    forall q | 0 <= q < p
      ensures !log[q].Simulated?
    {
      LogStep(init, log, q);
      LogStep(init, log, q + 1);
      SimulationEnds(At(init, log, q), log[q], log[..q + 1], log[q + 1]);
    }
  }

  lemma SimulationEnds(s: Sys, e: Event, hist: seq<Event>, next: Event)
    requires Legal(Apply(s, e), hist, next)
    ensures !e.Simulated?
  {
  }

  /** Verify before revoke, on one log: a revoke step executes only when every verify step
      is done, and each of them has a committed success before it. */
  lemma RevokeNeedsVerifies(init: Sys, log: seq<Event>, p: nat, v: nat)
    requires Initial(init) && LegalLog(init, log) && p < |log| && v < |init.row.steps|
    requires log[p].Executed? && log[p].i < |init.row.steps| && init.row.steps[log[p].i].kind == Revoke
    requires init.row.steps[v].kind == Verify
    ensures At(init, log, p).row.steps[v].status == Done
    ensures SucceededBefore(init, log, p, v) && PassedBefore(init, log, p, v)
  {
    LogStep(init, log, p);
    var s := At(init, log, p);
    assert s.row.steps[v].kind == Verify && GateOpen(s.row.steps);
    NoSimulationBefore(init, log, p);
    DoneHasRecord(init, log, p, v);
    PassedIfAnswered(init, log, p, v);
  }

  /** Before `p` the verify step was recorded done after an execution in which the store
      answered that the new credential is good, or there was none to check. */
  ghost predicate PassedBefore(init: Sys, log: seq<Event>, p: nat, v: nat) {
    exists q :: 0 < q < p <= |log| && PassedAt(init, log, q, v)
  }

  predicate PassedAt(init: Sys, log: seq<Event>, q: nat, v: nat)
    requires 0 < q < |log|
  {
    && log[q].StepDone? && log[q].i == v && log[q - 1].Executed? && log[q - 1].i == v
    && (log[q - 1].out.verify == Passed || At(init, log, q - 1).row.newRef == None)
  }

  lemma PassedIfAnswered(init: Sys, log: seq<Event>, p: nat, v: nat)
    requires AnsweredBefore(init, log, p, v) && v < |init.row.steps| && init.row.steps[v].kind == Verify
    ensures PassedBefore(init, log, p, v)
  {
    var q :| 0 < q < p <= |log| && AnsweredAt(init, log, q, v);
    assert SamePlan(init.row.steps, At(init, log, q - 1).row.steps);
    assert PassedAt(init, log, q, v);
  }

  /** Verify before revoke: whenever a revoke step executes, every verify step is done,
      and each of them has executed, succeeded and been committed earlier in the run. */
  lemma VerifyBeforeRevoke(init: Sys, actions: seq<Action>, p: nat, v: nat)
    requires Initial(init) && p < |Run(init, actions).log| && v < |init.row.steps|
    requires Run(init, actions).log[p].Executed?
    requires Run(init, actions).log[p].i < |init.row.steps|
    requires init.row.steps[Run(init, actions).log[p].i].kind == Revoke
    requires init.row.steps[v].kind == Verify
    ensures At(init, Run(init, actions).log, p).row.steps[v].status == Done
    ensures SucceededBefore(init, Run(init, actions).log, p, v)
    ensures PassedBefore(init, Run(init, actions).log, p, v)
  {
    hide Run;
    RunLegal(init, actions);
    RevokeNeedsVerifies(init, Run(init, actions).log, p, v);
  }

  // ---- misordered plans ----

  /** Some verify step comes after the revoke step `i`. */
  predicate Misordered(steps: seq<Step>, i: nat, v: nat) {
    i < v < |steps| && steps[i].kind == Revoke && steps[v].kind == Verify
  }

  lemma {:induction false} MisorderedStaysPending(init: Sys, log: seq<Event>, p: nat, i: nat, v: nat)
    requires Initial(init) && LegalLog(init, log) && p <= |log|
    requires Misordered(init.row.steps, i, v) && !Terminal(At(init, log, p).row.status)
    ensures forall k :: i <= k < |init.row.steps| ==> At(init, log, p).row.steps[k].status == Pending
    decreases p
  {
    hide Legal, Apply, Misordered;
    if p > 0 {
      LogStep(init, log, p - 1);
      StillActive(At(init, log, p - 1), log[..p - 1], log[p - 1]);
      MisorderedStaysPending(init, log, p - 1, i, v);
      StaysPendingStep(At(init, log, p - 1), log[..p - 1], log[p - 1], i, v) by {
        assert SamePlan(init.row.steps, At(init, log, p - 1).row.steps);
        SameMisordered(init.row.steps, At(init, log, p - 1).row.steps, i, v);
      }
    }
  }

  lemma StillActive(s: Sys, hist: seq<Event>, e: Event)
    requires Legal(s, hist, e)
    ensures !Terminal(s.row.status)
  {
  }

  lemma SameMisordered(a: seq<Step>, b: seq<Step>, i: nat, v: nat)
    requires SamePlan(a, b) && Misordered(a, i, v)
    ensures Misordered(b, i, v)
  {
  }

  lemma StaysPendingStep(s: Sys, hist: seq<Event>, e: Event, i: nat, v: nat)
    requires Legal(s, hist, e) && Misordered(s.row.steps, i, v) && !Terminal(Apply(s, e).row.status)
    requires forall k :: i <= k < |s.row.steps| ==> s.row.steps[k].status == Pending
    ensures forall k :: i <= k < |s.row.steps| ==> Apply(s, e).row.steps[k].status == Pending
  {
  }

  /** A revoke step that a verify step follows never executes, nor does any later step,
      and the rotation never completes. */
  lemma MisorderedNeverRuns(init: Sys, actions: seq<Action>, p: nat, i: nat, v: nat)
    requires Initial(init) && Misordered(init.row.steps, i, v) && p < |Run(init, actions).log|
    ensures Run(init, actions).log[p].Executed? ==> Run(init, actions).log[p].i < i
    ensures Run(init, actions).log[p] != Finished(Completed)
  {
    var log := Run(init, actions).log;
    RunLegal(init, actions);
    LogStep(init, log, p);
    MisorderedStaysPending(init, log, p, i, v);
    MisorderedStep(At(init, log, p), log[..p], log[p], i, v);
  }

  lemma MisorderedStep(s: Sys, hist: seq<Event>, e: Event, i: nat, v: nat)
    requires Legal(s, hist, e) && Misordered(s.row.steps, i, v)
    requires forall k :: i <= k < |s.row.steps| ==> s.row.steps[k].status == Pending
    ensures e.Executed? ==> e.i < i
    ensures e != Finished(Completed)
  {
  }

  // ---- the prefix invariant ----

  predicate Prefixed(steps: seq<Step>, k: nat) {
    && k <= |steps|
    && (forall j :: 0 <= j < k ==> steps[j].status == Done)
    && (forall j :: k <= j < |steps| ==> steps[j].status == Pending)
  }

  predicate NoFailure(log: seq<Event>, p: nat)
    requires p <= |log|
  {
    forall q :: 0 <= q < p ==> !Failure(log[q])
  }

  lemma PrefixStep(s: Sys, hist: seq<Event>, e: Event)
    requires Legal(s, hist, e) && !Failure(e) && NoFailure(hist, |hist|)
    requires Prefixed(s.row.steps, FirstPending(s.row.steps)) && s.row.status != RollingBack
    ensures Prefixed(Apply(s, e).row.steps, FirstPending(Apply(s, e).row.steps))
    ensures Apply(s, e).row.status != RollingBack
  {
    var t := Apply(s, e);
    FirstPendingIs(t.row.steps, if e.StepDone? then e.i + 1 else FirstPending(s.row.steps));
  }

  lemma {:induction false} PrefixedUntilFailure(init: Sys, log: seq<Event>, p: nat)
    requires Initial(init) && LegalLog(init, log) && p <= |log| && NoFailure(log, p)
    ensures Prefixed(At(init, log, p).row.steps, FirstPending(At(init, log, p).row.steps))
    ensures At(init, log, p).row.status != RollingBack
    decreases p
  {
    if p == 0 {
      FirstPendingIs(init.row.steps, 0);
    } else {
      LogStep(init, log, p - 1);
      PrefixedUntilFailure(init, log, p - 1);
      PrefixStep(At(init, log, p - 1), log[..p - 1], log[p - 1]);
    }
  }

  /** Until the first failure the steps are done up to some index and pending from there
      on, at every commit of every run. */
  lemma PrefixInvariant(init: Sys, actions: seq<Action>, p: nat)
    requires Initial(init) && p <= |Run(init, actions).log| && NoFailure(Run(init, actions).log, p)
    ensures exists k :: Prefixed(At(init, Run(init, actions).log, p).row.steps, k)
  {
    RunLegal(init, actions);
    PrefixedUntilFailure(init, Run(init, actions).log, p);
  }

  /** Hence the engine's local test for the last step agrees with all steps being done. */
  lemma LocalTestIsGlobal(init: Sys, actions: seq<Action>, p: nat)
    requires Initial(init) && p < |Run(init, actions).log| && NoFailure(Run(init, actions).log, p)
    requires Run(init, actions).log[p].StepDone?
    ensures !PendingAfter(At(init, Run(init, actions).log, p).row.steps, Run(init, actions).log[p].i)
            <==> AllDone(At(init, Run(init, actions).log, p + 1).row.steps)
  {
    var log := Run(init, actions).log;
    RunLegal(init, actions);
    LogStep(init, log, p);
    PrefixedUntilFailure(init, log, p);
    LastStepTest(At(init, log, p), log[..p], log[p]);
  }

  lemma LastStepTest(s: Sys, hist: seq<Event>, e: Event)
    requires Legal(s, hist, e) && e.StepDone? && Prefixed(s.row.steps, FirstPending(s.row.steps))
    ensures !PendingAfter(s.row.steps, e.i) <==> AllDone(Apply(s, e).row.steps)
  {
    var t := Apply(s, e);
    if PendingAfter(s.row.steps, e.i) {
      var j :| e.i < j < |s.row.steps| && s.row.steps[j].status == Pending;
      assert t.row.steps[j].status == Pending;
    }
  }

  // ---- the pause ----

  predicate NoneExecuted(log: seq<Event>, q: nat, p: nat)
    requires q <= p <= |log|
  {
    forall r :: q <= r < p ==> !log[r].Executed?
  }

  /** The engine stopped on step `i` before `p` and has executed nothing since. */
  ghost predicate StoppedOn(log: seq<Event>, p: nat, i: nat)
    requires p <= |log|
  {
    exists q :: 0 <= q < p && (log[q] == Paused(i) || log[q] == Blocked(i)) && NoneExecuted(log, q, p)
  }

  ghost predicate PausedOn(log: seq<Event>, p: nat, i: nat)
    requires p <= |log|
  {
    exists q :: 0 <= q < p && log[q] == Paused(i) && NoneExecuted(log, q, p)
  }

  lemma {:induction false} AwaitingMeansStopped(init: Sys, log: seq<Event>, p: nat)
    requires Initial(init) && LegalLog(init, log) && p <= |log|
    requires At(init, log, p).row.status == AwaitingConfirmation
    ensures var steps := At(init, log, p).row.steps;
            var i := FirstPending(steps);
            i < |steps| && StoppedOn(log, p, i) && (steps[i].flagged ==> PausedOn(log, p, i))
    decreases p
  {
    hide Legal, Apply, FirstPending;
    if p > 0 {
      LogStep(init, log, p - 1);
      var s, t, e := At(init, log, p - 1), At(init, log, p), log[p - 1];
      AwaitingStep(s, log[..p - 1], e);
      var i := FirstPending(t.row.steps);
      if s.row.status == AwaitingConfirmation {
        AwaitingMeansStopped(init, log, p - 1);
        Extend(log, p - 1, i);
      }
      if e == Paused(i) || e == Blocked(i) {
        assert NoneExecuted(log, p - 1, p);
      }
    }
  }

  lemma AwaitingStep(s: Sys, hist: seq<Event>, e: Event)
    requires Legal(s, hist, e) && Apply(s, e).row.status == AwaitingConfirmation
    ensures var t, i := Apply(s, e), FirstPending(s.row.steps);
            && FirstPending(t.row.steps) == i && !e.Executed?
            && (i < |s.row.steps| && t.row.steps[i].flagged ==> s.row.steps[i].flagged)
            && (s.row.status == AwaitingConfirmation || (i < |s.row.steps| && (e == Paused(i) || e == Blocked(i))))
            && (e == Blocked(i) && s.row.status != AwaitingConfirmation ==> !t.row.steps[i].flagged)
  {
    FirstPendingIs(Apply(s, e).row.steps, FirstPending(s.row.steps));
  }

  lemma Extend(log: seq<Event>, p: nat, i: nat)
    requires p < |log| && !log[p].Executed?
    ensures StoppedOn(log, p, i) ==> StoppedOn(log, p + 1, i)
    ensures PausedOn(log, p, i) ==> PausedOn(log, p + 1, i)
  {
    if StoppedOn(log, p, i) {
      var q :| 0 <= q < p && (log[q] == Paused(i) || log[q] == Blocked(i)) && NoneExecuted(log, q, p);
      assert NoneExecuted(log, q, p + 1);
    }
    if PausedOn(log, p, i) {
      var q :| 0 <= q < p && log[q] == Paused(i) && NoneExecuted(log, q, p);
      assert NoneExecuted(log, q, p + 1);
    }
  }

  /** Whenever the status is awaiting_confirmation, the engine last stopped on the step
      that is due now and has executed nothing since. */
  lemma PauseInvariant(init: Sys, actions: seq<Action>)
    requires Initial(init) && Run(init, actions).db.row.status == AwaitingConfirmation
    ensures var c := Run(init, actions);
            FirstPending(c.db.row.steps) < |c.db.row.steps|
            && StoppedOn(c.log, |c.log|, FirstPending(c.db.row.steps))
  {
    var c := Run(init, actions);
    RunLegal(init, actions);
    assert c.log[..|c.log|] == c.log;
    AwaitingMeansStopped(init, c.log, |c.log|);
  }

  /** A step whose flag is still set executes only after an earlier pause on exactly
      that step, with no execution in between. */
  lemma FlaggedRunsOnlyAfterPause(init: Sys, actions: seq<Action>, p: nat)
    requires Initial(init) && p < |Run(init, actions).log|
    requires Run(init, actions).log[p].Executed? && Run(init, actions).log[p].i < |init.row.steps|
    requires At(init, Run(init, actions).log, p).row.steps[Run(init, actions).log[p].i].flagged
    ensures PausedOn(Run(init, actions).log, p, Run(init, actions).log[p].i)
  {
    var log := Run(init, actions).log;
    var i := log[p].i;
    RunLegal(init, actions);
    LogStep(init, log, p);
    assert p > 0 && log[p - 1] == Started(i);
    LogStep(init, log, p - 1);
    AwaitingMeansStopped(init, log, p - 1);
    Extend(log, p - 1, i);
  }
}
