/** When a rotation can still change, and what it means for its secret that it cannot. */
module Liveness {
  import opened RotationTypes
  import opened EngineSpec
  import opened Machine
  import opened Recovery
  import opened CrashFree
  import opened Confirmation
  import opened Expiry
  import opened Progress
  import opened Registry

  /** The API waits for the user, or a job is outstanding and the engine has work for it. */
  predicate Live(c: Config) {
    var row := c.db.row;
    && !Terminal(row.status)
    && (row.status in {PendingApproval, AwaitingConfirmation}
        || (c.jobs > 0 && |row.steps| > 0 && (FirstPending(row.steps) < |row.steps| || AllDone(row.steps))))
  }

  lemma WorkForJob(row: Row, now: int, o: Oracle)
    requires !Terminal(row.status) && row.status != PendingApproval
    ensures AdvanceEvents(row, now, o) != [] <==>
            |row.steps| > 0 && (FirstPending(row.steps) < |row.steps| || AllDone(row.steps))
  {
    hide RollbackEvents;
  }

  lemma StuckActs(c: Config, a: Action)
    requires !Live(c)
    ensures EventsOf(c, a) == [] && !Live(Act(c, a))
    ensures Act(c, a).db == c.db && Act(c, a).log == c.log
  {
    hide AdvanceEvents, FirstPending, AllDone, Continues;
    if a.Job? && c.jobs > 0 {
      if Terminal(c.db.row.status) {
        TerminalAbsorbs(c, a);
      } else {
        WorkForJob(c.db.row, a.now, a.o);
      }
    }
  }

  lemma LiveActs(c: Config) returns (a: Action)
    requires Live(c)
    ensures EventsOf(c, a) != []
  {
    hide AdvanceEvents, FirstPending, AllDone;
    if c.db.row.status in {PendingApproval, AwaitingConfirmation} {
      a := Reject;
    } else {
      a := Job(0, FAILING, Finishes);
      WorkForJob(c.db.row, 0, FAILING);
    }
  }

  lemma RunLonger(init: Sys, actions: seq<Action>, more: seq<Action>)
    requires more != []
    ensures Run(init, actions + more) == Act(Run(init, actions + more[..|more| - 1]), more[|more| - 1])
  {
    hide Act;
    RunLast(init, actions + more);
    assert (actions + more)[..|actions + more| - 1] == actions + more[..|more| - 1];
  }

  lemma {:induction false} StuckForever(init: Sys, actions: seq<Action>, more: seq<Action>)
    requires !Live(Run(init, actions))
    ensures !Live(Run(init, actions + more))
    ensures Run(init, actions + more).db == Run(init, actions).db
    ensures Run(init, actions + more).log == Run(init, actions).log
    decreases |more|
  {
    hide Run, Act, Live;
    if more == [] {
      assert actions + more == actions;
    } else {
      StuckForever(init, actions, more[..|more| - 1]);
      RunLonger(init, actions, more);
      StuckActs(Run(init, actions + more[..|more| - 1]), more[|more| - 1]);
    }
  }

  /** Some continuation of a run has another durable effect if and only if the rotation is
      live. Without an outstanding job, only pending_approval and awaiting_confirmation are. */
  lemma ChangesIff(init: Sys, actions: seq<Action>)
    ensures (exists more :: Run(init, actions + more).log != Run(init, actions).log) <==> Live(Run(init, actions))
  {
    hide Run, Act, Live;
    if Live(Run(init, actions)) {
      var a := LiveActs(Run(init, actions));
      RunOneMore(init, actions, a);
      ActLog(Run(init, actions), a);
      assert Run(init, actions + [a]).log != Run(init, actions).log;
    } else {
      forall more
        ensures Run(init, actions + more).log == Run(init, actions).log
      {
        StuckForever(init, actions, more);
      }
    }
  }

  // ---- reaching a terminal status ----

  lemma {:induction false} FoldCons(c: Config, a: Action, more: seq<Action>)
    ensures Fold(Act, c, [a] + more) == Fold(Act, Act(c, a), more)
    decreases |more|
  {
    hide Act;
    var all := [a] + more;
    if more == [] {
      assert all[..|all| - 1] == [];
    } else {
      FoldCons(c, a, more[..|more| - 1]);
      assert all[..|all| - 1] == [a] + more[..|more| - 1];
    }
  }

  lemma {:induction false} FoldConcat(init: Sys, actions: seq<Action>, more: seq<Action>)
    ensures Run(init, actions + more) == Fold(Act, Run(init, actions), more)
    decreases |more|
  {
    hide Act;
    if more == [] {
      assert actions + more == actions;
    } else {
      FoldConcat(init, actions, more[..|more| - 1]);
      RunLonger(init, actions, more);
    }
  }

  predicate Ends(c: Config, more: seq<Action>) {
    Terminal(Fold(Act, c, more).db.row.status)
  }

  lemma EndsLater(c: Config, a: Action, more: seq<Action>)
    requires Ends(Act(c, a), more)
    ensures Ends(c, [a] + more)
  {
    hide Act;
    FoldCons(c, a, more);
  }

  lemma EndsNow(c: Config)
    requires Terminal(c.db.row.status)
    ensures Ends(c, [])
  {
  }

  lemma RejectEnds(c: Config)
    requires c.db.row.status in {PendingApproval, AwaitingConfirmation}
    ensures Ends(c, [Reject])
  {
    ReplayOne(c.db, RejectedByUser);
    EndsNow(Act(c, Reject));
    EndsLater(c, Reject, []);
    assert [Reject] + [] == [Reject];
  }

  // Every connector call raises.
  const FAILING := Oracle(Outcome(None, false, Raised, false, false), {})

  lemma StopCall(c: Config, e: Event)
    requires c.jobs > 0 && AdvanceEvents(c.db.row, 0, FAILING) == [e]
    requires e.Paused? || e.Blocked? || e == Finished(Completed)
    ensures Act(c, Job(0, FAILING, Finishes)).db.row.status ==
            if e == Finished(Completed) then Completed else AwaitingConfirmation
  {
    ReplayOne(c.db, e);
  }

  /** What one more call, with failing connectors, does to a live rotation that is not
      waiting for the user: it ends it, waits for the user, or gets one step further. */
  lemma OneCall(c: Config)
    requires Live(c) && c.db.row.status !in {PendingApproval, AwaitingConfirmation}
    ensures var d := Act(c, Job(0, FAILING, Finishes));
            || Terminal(d.db.row.status) || d.db.row.status == AwaitingConfirmation
            || (Live(d) && PendingCount(d.db.row.steps) < PendingCount(c.db.row.steps))
  {
    var row, i := c.db.row, FirstPending(c.db.row.steps);
    if i == |row.steps| {
      StopCall(c, Finished(Completed));
    } else if row.steps[i].flagged {
      StopCall(c, Paused(i));
    } else if row.steps[i].kind == Revoke && !GateOpen(row.steps) {
      StopCall(c, Blocked(i));
    } else {
      assert AdvanceEvents(row, 0, FAILING) == RunEvents(row, i, FAILING);
      StepCall(c, i);
    }
  }

  lemma StepCall(c: Config, i: nat)
    requires c.jobs > 0 && !Terminal(c.db.row.status) && c.db.row.status != PendingApproval
    requires Due(c.db, i) && GatePasses(c.db, i) && !c.db.row.steps[i].flagged
    requires AdvanceEvents(c.db.row, 0, FAILING) == RunEvents(c.db.row, i, FAILING)
    ensures var d := Act(c, Job(0, FAILING, Finishes));
            || Terminal(d.db.row.status)
            || (Live(d) && PendingCount(d.db.row.steps) < PendingCount(c.db.row.steps))
  {
    hide AdvanceEvents, RunEvents, Replay, PendingCount, FAILING;
    var row := c.db.row;
    if StepOk(row.steps[i], row, FAILING.exec) {
      var ref := RefFrom(row.steps[i], row, FAILING.exec);
      DoneState(c.db, i, FAILING);
      if PendingAfter(row.steps, i) {
        DoneRowCount(row, i, ref);
        var j :| i < j < |row.steps| && row.steps[j].status == Pending;
        assert DoneRow(row, i, ref).steps[j].status == Pending;
      }
    } else {
      FailingCall(row, i);
      FullFailure(c.db, 0, FAILING);
    }
  }

  lemma FailingCall(row: Row, i: nat)
    requires i < |row.steps| && !StepOk(row.steps[i], row, FAILING.exec)
    ensures HandlesFailure(RunEvents(row, i, FAILING))
  {
    hide FAILING, RollbackEvents;
    var first := StartEvents(row, i, FAILING.exec);
    assert RunEvents(row, i, FAILING)[|first|] == StepFailed(i);
  }

  lemma {:induction false} CanEnd(c: Config) returns (more: seq<Action>)
    requires Live(c)
    ensures Ends(c, more)
    decreases PendingCount(c.db.row.steps)
  {
    hide Act, Live, PendingCount, Ends;
    if c.db.row.status in {PendingApproval, AwaitingConfirmation} {
      more := [Reject];
      RejectEnds(c);
    } else {
      var job := Job(0, FAILING, Finishes);
      var d := Act(c, job);
      OneCall(c);
      if Terminal(d.db.row.status) {
        more := [];
        EndsNow(d);
      } else if d.db.row.status == AwaitingConfirmation {
        more := [Reject];
        RejectEnds(d);
      } else {
        more := CanEnd(d);
      }
      EndsLater(c, job, more);
      more := [job] + more;
    }
  }

  /** A rotation that is not terminal can still become so, and free its secret, if and only
      if it is live. */
  lemma CanEndIff(init: Sys, actions: seq<Action>)
    requires !Terminal(Run(init, actions).db.row.status)
    ensures (exists more :: Terminal(Run(init, actions + more).db.row.status)) <==> Live(Run(init, actions))
  {
    hide Run, Act, Live;
    if Live(Run(init, actions)) {
      var more := CanEnd(Run(init, actions));
      FoldConcat(init, actions, more);
      assert Terminal(Run(init, actions + more).db.row.status);
    } else {
      forall more
        ensures Run(init, actions + more).db == Run(init, actions).db
      {
        StuckForever(init, actions, more);
      }
    }
  }

  // ---- how a rotation gets stuck ----

  /** One lost job is enough: a worker that dies right after it committed the running
      status, and whose job is not delivered again, leaves a rotation that is neither
      terminal nor live. */
  lemma LostJobStrands(init: Sys, now: int, o: Oracle)
    requires PlainFirst(init) && !Expired(init.row, now)
    ensures var c := Run(init, [Approve(true), Job(now, o, Crashes(1, 0))]);
            !Terminal(c.db.row.status) && !Live(c)
  {
    var job := Job(now, o, Crashes(1, 0));
    hide Act, Live;
    assert [Approve(true), job][..1] == [Approve(true)] && [Approve(true)][..0] == [];
    RunLast(init, [Approve(true), job]);
    RunLast(init, [Approve(true)]);
    ApproveInitial(init);
    DiesAfterStart(init, now, o);
  }

  lemma DiesAfterStart(init: Sys, now: int, o: Oracle)
    requires PlainFirst(init) && !Expired(init.row, now)
    ensures var c := Act(Config(init, 1, [Approved]), Job(now, o, Crashes(1, 0)));
            !Terminal(c.db.row.status) && !Live(c)
  {
    FirstPendingIs(init.row.steps, 0);
    var events := AdvanceEvents(init.row, now, o);
    assert events == [Started(0), Executed(0, o.exec)] + ResultEvents(init.row, 0, o);
    hide AdvanceEvents, ResultEvents;
    assert events[..1] == [Started(0)];
    ReplayOne(init, Started(0));
  }

  // ---- the secret ----

  /** The rotation of this secret is neither terminal nor live. */
  ghost predicate Stranded(t: Tables, id: RotationId, secret: SecretId) {
    Active(t, id, secret) && !Live(t.rotations[id].c)
  }

  lemma StrandedStep(t: Tables, op: Op, id: RotationId, secret: SecretId)
    requires Stranded(t, id, secret)
    ensures Stranded(Registry.Next(t, op), id, secret)
    ensures Registry.Next(t, op).rotations[id].c.db == t.rotations[id].c.db
    ensures forall j :: j in Registry.Next(t, op).rotations && Registry.Next(t, op).rotations[j].secret == secret ==>
              j in t.rotations && t.rotations[j].secret == secret
  {
    hide Live, Act;
    match op
    case Look(_, _) =>
    case Insert(_, _, _) =>
    case On(j, a) =>
      if j == id {
        StuckActs(t.rotations[id].c, a);
      }
  }

  /** A stranded rotation blocks its secret forever: it stays as it is, and no trigger ever
      creates another rotation of the secret. */
  lemma {:induction false} StrandedForever(ops: seq<Op>, more: seq<Op>, id: RotationId, secret: SecretId)
    requires Stranded(RunOps(ops), id, secret)
    ensures Stranded(RunOps(ops + more), id, secret)
    ensures RunOps(ops + more).rotations[id].c.db == RunOps(ops).rotations[id].c.db
    ensures forall j :: j in RunOps(ops + more).rotations && RunOps(ops + more).rotations[j].secret == secret ==>
              j in RunOps(ops).rotations && RunOps(ops).rotations[j].secret == secret
    decreases |more|
  {
    hide Live, Act, Registry.Next;
    if more == [] {
      assert ops + more == ops;
    } else {
      var before := more[..|more| - 1];
      StrandedForever(ops, before, id, secret);
      assert (ops + more)[..|ops + more| - 1] == ops + before;
      StrandedStep(RunOps(ops + before), more[|more| - 1], id, secret);
    }
  }
}
