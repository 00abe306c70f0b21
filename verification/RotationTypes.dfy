/** The rows, enumerations and connector state that the rotation engine works on. */
module RotationTypes {

  datatype Option<+T> = None | Some(value: T)

  type KeyId = nat
  type Path = string

  datatype Kind = Provision | Distribute | Verify | Revoke

  // The step statuses that some code path writes; `running` and
  // `awaiting_confirmation` exist in the database enum but are never stored.
  datatype StepStatus = Pending | Done | Failed | Compensated

  // The `compensation.action` of a step.
  datatype Undo = DeleteNewKey | RestoreOldValue | ReactivateOldKey | NoUndo

  // A row of rotation_steps. The position of the step in its rotation is its idx.
  // `keyId` is the key that a revoke step targets.
  datatype Step = Step(kind: Kind, status: StepStatus, flagged: bool, undo: Undo, keyId: KeyId)

  datatype RotationStatus =
    | Proposed | PlanFailed | PendingApproval | Provisioning | Distributing | Verifying
    | AwaitingConfirmation | Revoking | Completed | RollingBack | RolledBack
    | RollbackFailed | Rejected | NeedsReplan | Abandoned

  datatype SecretRef = SecretRef(path: Path, keyId: KeyId)

  // A row of rotations with its steps in idx order. `planPath` is None when the
  // plan is empty, otherwise the store path that provision writes to.
  datatype Row = Row(status: RotationStatus, planPath: Option<Path>, expiresAt: Option<int>,
                     newRef: Option<SecretRef>, steps: seq<Step>)

  datatype Value = Material(keyId: KeyId) | Placeholder

  // The cloud's keys (true: enabled) and the secret store's current values.
  datatype World = World(keys: map<KeyId, bool>, store: map<Path, Value>)

  datatype Sys = Sys(row: Row, world: World)

  predicate Terminal(status: RotationStatus) {
    status in {Completed, RolledBack, RollbackFailed, Rejected, Abandoned, PlanFailed}
  }

  function RunningStatus(kind: Kind): RotationStatus {
    match kind
    case Provision => Provisioning
    case Distribute => Distributing
    case Verify => Verifying
    case Revoke => Revoking
  }

  predicate Expired(row: Row, now: int) {
    row.expiresAt.Some? && row.expiresAt.value < now
  }

  /** The lowest pending index at or after `from`, or the number of steps. */
  function FirstPendingFrom(steps: seq<Step>, from: nat): (i: nat)
    requires from <= |steps|
    ensures from <= i <= |steps|
    ensures forall j :: from <= j < i ==> steps[j].status != Pending
    ensures i < |steps| ==> steps[i].status == Pending
    decreases |steps| - from
  {
    if from == |steps| || steps[from].status == Pending then from else FirstPendingFrom(steps, from + 1)
  }

  function FirstPending(steps: seq<Step>): (i: nat)
    ensures i <= |steps|
    ensures forall j :: 0 <= j < i ==> steps[j].status != Pending
    ensures i < |steps| ==> steps[i].status == Pending
  {
    FirstPendingFrom(steps, 0)
  }

  predicate AllDone(steps: seq<Step>) {
    forall i :: 0 <= i < |steps| ==> steps[i].status == Done
  }

  /** The verify gate: no verify step is in a status other than done. */
  predicate GateOpen(steps: seq<Step>) {
    forall i :: 0 <= i < |steps| && steps[i].kind == Verify ==> steps[i].status == Done
  }

  predicate PendingAfter(steps: seq<Step>, i: nat) {
    exists j :: i < j < |steps| && steps[j].status == Pending
  }

  /** The indices below `n` of the done steps, highest first. */
  function DoneDescending(steps: seq<Step>, n: nat): (ds: seq<nat>)
    requires n <= |steps|
    ensures forall k :: 0 <= k < |ds| ==> ds[k] < n && steps[ds[k]].status == Done
    ensures forall i :: 0 <= i < n && steps[i].status == Done ==> i in ds
    ensures forall k, l :: 0 <= k < l < |ds| ==> ds[k] > ds[l]
  {
    if n == 0 then []
    else if steps[n - 1].status == Done then [n - 1] + DoneDescending(steps, n - 1)
    else DoneDescending(steps, n - 1)
  }

  predicate SamePlan(a: seq<Step>, b: seq<Step>) {
    && |a| == |b|
    && forall i :: 0 <= i < |a| ==> a[i].kind == b[i].kind && a[i].undo == b[i].undo && a[i].keyId == b[i].keyId
  }
}
