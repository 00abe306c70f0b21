/** advance_rotation and its rollback loop on the rows they update in place. */
module Engine {
  import opened RotationTypes
  import opened EngineSpec
  import opened Connectors

  datatype EngineResult = EngineResult(status: RotationStatus, cont: bool)

  function Updated(step: Step, selected: bool, newStatus: StepStatus): Step {
    if selected then step.(status := newStatus) else step
  }

  /** One rotation with its step rows and connectors. `log` records, in order, every commit
      and every connector call, and `states` what a crash after each would leave. */
  class RotationEngine {
    const planPath: Option<Path>
    const expiresAt: Option<int>
    const steps: array<Step>
    const cloud: CloudConnector
    const store: StoreConnector
    var status: RotationStatus
    var newRef: Option<SecretRef>
    ghost var log: seq<Event>
    ghost var states: seq<Sys>
    ghost const origin: Sys

    ghost function Row(): Row
      reads this, steps
    {
      RotationTypes.Row.Row(status, planPath, expiresAt, newRef, steps[..])
    }

    ghost function Db(): Sys
      reads this, steps, cloud, store
    {
      Sys(Row(), World(cloud.keys, store.store))
    }

    ghost predicate Valid()
      reads this, steps, cloud, store
    {
      History(states, log) && states[0] == origin && Db() == states[|log|]
    }

    constructor (row: Row, world: World)
      ensures Valid() && Db() == Sys(row, world) && log == []
      ensures fresh(steps) && fresh(cloud) && fresh(store)
    {
      planPath, expiresAt, status, newRef := row.planPath, row.expiresAt, row.status, row.newRef;
      var rows := new Step[|row.steps|](i requires 0 <= i < |row.steps| => row.steps[i]);
      steps := rows;
      cloud := new CloudConnector(world.keys);
      store := new StoreConnector(world.store);
      log, states, origin := [], [Sys(row, world)], Sys(row, world);
      new;
      assert steps[..] == row.steps;
    }

    /** Ends a durable effect: the rows already hold what `e` does to them. */
    ghost method Mark(before: Sys, e: Event)
      requires History(states, log) && states[0] == origin && before == states[|log|] && Db() == Apply(before, e)
      modifies `log, `states
      ensures Valid() && log == old(log) + [e] && states == old(states) + [Db()]
      ensures Db() == old(Db())
    {
      ghost var log0, states0 := log, states;
      log := log + [e];
      states := states + [Db()];
      forall k | 0 <= k < |log|
        ensures Follows(states, log, k)
      {
        assert k < |log0| ==> Follows(states0, log0, k);
      }
    }

    method SetRotationStatus(newStatus: RotationStatus, ghost e: Event)
      requires Valid() && Apply(Db(), e) == WithStatus(Db(), newStatus)
      modifies `status, `log, `states
      ensures Valid() && log == old(log) + [e]
      ensures Db() == Apply(old(Db()), e)
    {
      ghost var before := Db();
      status := newStatus;
      Mark(before, e);
    }

    method SetStepStatus(i: nat, newStatus: StepStatus, ref: Option<SecretRef>, ghost e: Event)
      requires i < steps.Length && Valid()
      requires Apply(Db(), e) == WithRef(WithStepStatus(Db(), i, newStatus), ref)
      modifies `newRef, `log, `states, steps
      ensures Valid() && log == old(log) + [e]
      ensures Db() == Apply(old(Db()), e)
    {
      ghost var before := Db();
      steps[i] := steps[i].(status := newStatus);
      if ref.Some? {
        newRef := ref;
      }
      assert steps[..] == before.row.steps[i := before.row.steps[i].(status := newStatus)];
      Mark(before, e);
    }

    method ConfirmStep(i: nat)
      requires Valid() && i < steps.Length
      modifies `log, `states, steps
      ensures Valid() && log == old(log) + [Confirmed(i)]
    {
      ghost var before := Db();
      steps[i] := steps[i].(flagged := false);
      assert steps[..] == before.row.steps[i := before.row.steps[i].(flagged := false)];
      Mark(before, Confirmed(i));
    }

    /** The bulk updates of simulate_failure, in one transaction. */
    method SimulateFailure()
      requires Valid()
      modifies `status, `log, `states, steps
      ensures Valid() && log == old(log) + [Simulated]
    {
      ghost var before := Db();
      UpdateStatuses(0, 3, Done);
      UpdateStatuses(3, 4, StepStatus.Failed);
      UpdateStatuses(0, 2, Compensated);
      status := RolledBack;
      assert steps[..] == SimulatedSteps(before.row.steps);
      Mark(before, Simulated);
    }

    method UpdateStatuses(from: nat, to: nat, newStatus: StepStatus)
      modifies steps
      ensures forall k :: 0 <= k < steps.Length ==> steps[k] == Updated(old(steps[k]), from <= k < to, newStatus)
    {
      for k := 0 to steps.Length
        invariant forall l :: k <= l < steps.Length ==> steps[l] == old(steps[l])
        invariant forall l :: 0 <= l < k ==> steps[l] == Updated(old(steps[l]), from <= l < to, newStatus)
      {
        if from <= k < to {
          steps[k] := steps[k].(status := newStatus);
        }
      }
    }

    /** The lowest pending step, by a scan in idx order. */
    method FindNextStep() returns (i: nat)
      ensures i == FirstPending(steps[..])
    {
      i := 0;
      while i < steps.Length && steps[i].status != Pending
        invariant i <= steps.Length
        invariant FirstPendingFrom(steps[..], i) == FirstPending(steps[..])
      {
        i := i + 1;
      }
    }

    /** The pre-revoke gate counts the verify steps that are not done. */
    method VerifyGate() returns (open: bool)
      ensures open <==> GateOpen(steps[..])
    {
      var incomplete := 0;
      for k := 0 to steps.Length
        invariant incomplete >= 0
        invariant incomplete == 0 <==> GateOpen(steps[..k])
      {
        assert steps[..k + 1] == steps[..k] + [steps[k]];
        if steps[k].kind == Verify && steps[k].status != Done {
          incomplete := incomplete + 1;
        }
      }
      assert steps[..steps.Length] == steps[..];
      open := incomplete == 0;
    }

    method AdvanceRotation(now: int, o: Oracle) returns (r: EngineResult)
      requires Valid()
      modifies this, steps, cloud, store
      ensures Valid()
      ensures log == old(log) + AdvanceEvents(old(Row()), now, o)
      ensures r.status == status
      ensures r.cont <==> Continues(old(Row()), now, o)
    {
      var row := RotationTypes.Row.Row(status, planPath, expiresAt, newRef, steps[..]);
      if Terminal(status) {
        return EngineResult(status, false);
      }
      if status == PendingApproval && Expired(row, now) {
        SetRotationStatus(NeedsReplan, PlanExpired);
        return EngineResult(status, false);
      }
      if steps.Length == 0 {
        return EngineResult(status, false);
      }
      var i := FindNextStep();
      if i == steps.Length {
        if AllDone(row.steps) {
          SetRotationStatus(Completed, Finished(Completed));
        }
        return EngineResult(status, false);
      }
      if row.steps[i].flagged && status != AwaitingConfirmation {
        SetRotationStatus(AwaitingConfirmation, Paused(i));
        return EngineResult(status, false);
      }
      if row.steps[i].kind == Revoke {
        var open := VerifyGate();
        if !open {
          SetRotationStatus(AwaitingConfirmation, Blocked(i));
          return EngineResult(status, false);
        }
      }
      r := RunStep(row, i, o);
    }

    /** Sections 8 to 10 of advance_rotation, for the step that is due. */
    method RunStep(row: Row, i: nat, o: Oracle) returns (r: EngineResult)
      requires Valid() && row == Row() && i < |row.steps|
      requires row.steps[i].status == Pending
      modifies this, steps, cloud, store
      ensures Valid() && log == old(log) + RunEvents(row, i, o)
      ensures r.status == status
      ensures r.cont <==> StepOk(row.steps[i], row, o.exec) && PendingAfter(row.steps, i)
    {
      var result := StartAndExecute(row, i, o.exec);
      r := RecordResult(row, i, o, result);
    }

    method StartAndExecute(row: Row, i: nat, out: Outcome) returns (result: StepResult)
      requires Valid() && row == Row() && i < |row.steps|
      modifies `status, `log, `states, cloud, store
      ensures Valid()
      ensures log == old(log) + StartEvents(row, i, out)
      ensures newRef == old(newRef)
      ensures result.done <==> StepOk(row.steps[i], row, out)
      ensures result.done ==> result.ref == RefFrom(row.steps[i], row, out)
    {
      var running := RunningStatus(row.steps[i].kind);
      if status != running {
        SetRotationStatus(running, Started(i));
      }
      ghost var before := Db();
      result := ExecuteStep(row.steps[i], row, cloud, store, out);
      Mark(before, Executed(i, out));
    }

    method RecordResult(row: Row, i: nat, o: Oracle, result: StepResult) returns (r: EngineResult)
      requires Valid() && i < |row.steps| == steps.Length && row.newRef == newRef
      requires SamePlan(row.steps, steps[..])
      requires result.done <==> StepOk(row.steps[i], row, o.exec)
      requires result.done ==> result.ref == RefFrom(row.steps[i], row, o.exec)
      modifies `status, `newRef, `log, `states, steps, cloud
      ensures Valid() && log == old(log) + ResultEvents(row, i, o)
      ensures r.status == status
      ensures r.cont <==> StepOk(row.steps[i], row, o.exec) && PendingAfter(row.steps, i)
    {
      if result.done {
        r := RecordDone(row, i, result.ref);
      } else {
        r := FailAndRollback(row, i, o.undoFails);
      }
    }

    method RecordDone(row: Row, i: nat, ref: Option<SecretRef>) returns (r: EngineResult)
      requires Valid() && i < steps.Length == |row.steps|
      modifies `status, `newRef, `log, `states, steps
      ensures Valid()
      ensures log == old(log) + DoneEvents(row, i, ref)
      ensures r.status == status && (r.cont <==> PendingAfter(row.steps, i))
    {
      SetStepStatus(i, Done, ref, StepDone(i, ref));
      if !PendingAfter(row.steps, i) {
        SetRotationStatus(Completed, Finished(Completed));
        return EngineResult(status, false);
      }
      r := EngineResult(status, true);
    }

    method FailAndRollback(row: Row, i: nat, fails: set<nat>) returns (r: EngineResult)
      requires Valid() && i < |row.steps| == steps.Length && row.newRef == newRef
      requires SamePlan(row.steps, steps[..])
      modifies `status, `newRef, `log, `states, steps, cloud
      ensures Valid() && log == old(log) + ([StepFailed(i)] + RollbackEvents(row, fails))
      ensures r.status == status && !r.cont
    {
      SetStepStatus(i, StepStatus.Failed, None, StepFailed(i));
      r := Rollback(row, fails);
    }

    /** Compensates the done steps of `row`, as loaded before the failure, highest idx first. */
    method Rollback(row: Row, fails: set<nat>) returns (r: EngineResult)
      requires Valid() && |row.steps| == steps.Length && row.newRef == newRef
      requires SamePlan(row.steps, steps[..])
      modifies `status, `newRef, `log, `states, steps, cloud
      ensures Valid() && log == old(log) + RollbackEvents(row, fails)
      ensures r.status == status && !r.cont
    {
      var todo := DoneDescending(row.steps, |row.steps|);
      SetRotationStatus(RollingBack, RollbackStarted);
      FinishRollback(row, todo, fails);
      r := EngineResult(status, false);
    }

    method FinishRollback(row: Row, todo: seq<nat>, fails: set<nat>)
      requires Valid() && |row.steps| == steps.Length && row.newRef == newRef
      requires SamePlan(row.steps, steps[..]) && InPlan(row, todo)
      modifies `status, `newRef, `log, `states, steps, cloud
      ensures Valid() && log == old(log) + UndoAllEvents(row, todo, fails)
    {
      var verdict := UndoAll(row, todo, fails);
      SetRotationStatus(verdict, Finished(verdict));
    }

    /** The compensation loop: a failed compensation is recorded and the loop goes on. */
    method UndoAll(row: Row, todo: seq<nat>, fails: set<nat>) returns (verdict: RotationStatus)
      requires Valid() && |row.steps| == steps.Length && row.newRef == newRef
      requires SamePlan(row.steps, steps[..]) && InPlan(row, todo)
      modifies `newRef, `log, `states, steps, cloud
      ensures Valid() && log == old(log) + UndoEvents(row, todo, fails)
      ensures verdict == RollbackVerdict(row, todo, fails)
    {
      var failures: seq<nat> := [];
      var k := 0;
      while k < |todo|
        invariant 0 <= k <= |todo|
        invariant Valid() && newRef == row.newRef && SamePlan(row.steps, steps[..])
        invariant log == old(log) + UndoEvents(row, todo[..k], fails)
        invariant failures == [] <==> forall l :: 0 <= l < k ==> UndoOk(row.steps[todo[l]], row, todo[l], fails)
      {
        var ok := Undo(row, todo[k], fails);
        if !ok {
          failures := failures + [todo[k]];
        }
        assert todo[..k + 1][..k] == todo[..k];
        k := k + 1;
      }
      assert todo[..k] == todo;
      verdict := if failures == [] then RolledBack else RollbackFailed;
    }

    method Undo(row: Row, i: nat, fails: set<nat>) returns (ok: bool)
      requires Valid() && i < |row.steps| == steps.Length && row.newRef == newRef
      requires SamePlan(row.steps, steps[..])
      modifies `newRef, `log, `states, steps, cloud
      ensures Valid() && newRef == row.newRef && SamePlan(row.steps, steps[..])
      ensures ok == UndoOk(row.steps[i], row, i, fails)
      ensures log == old(log) + [UndoRan(i, ok), UndoStored(i, ok)]
    {
      ghost var before := Db();
      ok := CompensateStep(row.steps[i], row, cloud, i, fails);
      Mark(before, UndoRan(i, ok));
      SetStepStatus(i, if ok then Compensated else StepStatus.Failed, None, UndoStored(i, ok));
    }
  }
}
