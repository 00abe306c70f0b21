/** What one call of advance_rotation does, as the sequence of its durable effects.

    A durable effect is a database commit or a connector call. A worker that dies in
    the middle of a call leaves a prefix of that sequence behind, so the same
    sequence describes completed and crashed calls. */
module EngineSpec {
  import opened RotationTypes

  datatype VerifyReply = Passed | Refused | Raised

  // What the connectors answer while one step executes; `create` is None when
  // create_credential raises.
  datatype Outcome = Outcome(create: Option<KeyId>, writeOk: bool, verify: VerifyReply,
                             disableOk: bool, deleteOk: bool)

  // `undoFails` holds the steps whose compensation call would raise.
  datatype Oracle = Oracle(exec: Outcome, undoFails: set<nat>)

  datatype Event =
    | PlanExpired
    | Paused(i: nat)
    | Blocked(i: nat)
    | Started(i: nat)
    | Executed(i: nat, out: Outcome)
    | StepDone(i: nat, ref: Option<SecretRef>)
    | StepFailed(i: nat)
    | RollbackStarted
    | UndoRan(i: nat, ok: bool)
    | UndoStored(i: nat, ok: bool)
    | Finished(status: RotationStatus)
    | Approved
    | RejectedByUser
    | Confirmed(i: nat)
    | Simulated

  // ---- one step ----

  predicate StepOk(step: Step, row: Row, out: Outcome) {
    match step.kind
    case Provision => out.create.Some? && (row.planPath.Some? ==> out.writeOk)
    case Distribute => row.newRef.Some? ==> out.writeOk
    case Verify => row.newRef.Some? ==> out.verify == Passed
    case Revoke => out.disableOk && out.deleteOk
  }

  /** The reference that a successful step hands to the rotation row. */
  function RefFrom(step: Step, row: Row, out: Outcome): Option<SecretRef> {
    if step.kind == Provision && out.create.Some? && row.planPath.Some?
    then Some(SecretRef(row.planPath.value, out.create.value))
    else None
  }

  function DisableKey(keys: map<KeyId, bool>, key: KeyId): map<KeyId, bool> {
    if key in keys then keys[key := false] else keys
  }

  function WorldAfter(step: Step, row: Row, out: Outcome, world: World): World {
    match step.kind
    case Provision =>
      if out.create.None? then world
      else
        var keys := world.keys[out.create.value := true];
        if row.planPath.Some? && out.writeOk
        then World(keys, world.store[row.planPath.value := Material(out.create.value)])
        else world.(keys := keys)
    case Distribute =>
      if row.newRef.Some? && out.writeOk
      then world.(store := world.store[row.newRef.value.path := Placeholder])
      else world
    case Verify => world
    case Revoke =>
      if !out.disableOk then world
      else
        var keys := DisableKey(world.keys, step.keyId);
        world.(keys := if out.deleteOk then keys - {step.keyId} else keys)
  }

  // ---- compensation of one step ----

  /** Only the compensation of a provision step calls a connector. */
  predicate UndoCalls(step: Step, row: Row) {
    step.kind == Provision && step.undo == DeleteNewKey && row.newRef.Some?
  }

  predicate UndoOk(step: Step, row: Row, i: nat, fails: set<nat>) {
    UndoCalls(step, row) ==> i !in fails
  }

  function WorldAfterUndo(step: Step, row: Row, ok: bool, world: World): World {
    if ok && UndoCalls(step, row) then world.(keys := world.keys - {row.newRef.value.keyId}) else world
  }

  // ---- durable effects on the system ----

  function WithStatus(s: Sys, status: RotationStatus): Sys {
    s.(row := s.row.(status := status))
  }

  function SetStep(steps: seq<Step>, i: nat, status: StepStatus): seq<Step> {
    if i < |steps| then steps[i := steps[i].(status := status)] else steps
  }

  function WithStepStatus(s: Sys, i: nat, status: StepStatus): Sys {
    s.(row := s.row.(steps := SetStep(s.row.steps, i, status)))
  }

  function WithRef(s: Sys, ref: Option<SecretRef>): Sys {
    if ref.Some? then s.(row := s.row.(newRef := ref)) else s
  }

  /** The step statuses that simulate_failure writes. */
  function SimulatedSteps(steps: seq<Step>): (r: seq<Step>)
    ensures SamePlan(steps, r)
    ensures forall i :: 0 <= i < |steps| ==> r[i].flagged == steps[i].flagged
    ensures forall i :: 0 <= i < |steps| ==> (i <= 1 ==> r[i].status == Compensated)
    ensures forall i :: 0 <= i < |steps| ==> (i == 2 ==> r[i].status == Done)
    ensures forall i :: 0 <= i < |steps| ==> (i == 3 ==> r[i].status == Failed)
    ensures forall i :: 0 <= i < |steps| ==> (i > 3 ==> r[i].status == steps[i].status)
  {
    seq(|steps|, i requires 0 <= i < |steps| => steps[i].(status :=
      if i <= 1 then Compensated else if i == 2 then Done else if i == 3 then Failed else steps[i].status))
  }

  function StatusAfter(row: Row, e: Event): RotationStatus {
    match e
    case PlanExpired => NeedsReplan
    case Paused(_) => AwaitingConfirmation
    case Blocked(_) => AwaitingConfirmation
    case Started(i) => if i < |row.steps| then RunningStatus(row.steps[i].kind) else row.status
    case RollbackStarted => RollingBack
    case Finished(status) => status
    case RejectedByUser => Rejected
    case Simulated => RolledBack
    case _ => row.status
  }

  function StepsAfter(steps: seq<Step>, e: Event): (r: seq<Step>)
    ensures SamePlan(steps, r)
  {
    match e
    case StepDone(i, _) => SetStep(steps, i, Done)
    case StepFailed(i) => SetStep(steps, i, Failed)
    case UndoStored(i, ok) => SetStep(steps, i, if ok then Compensated else Failed)
    case Confirmed(i) => if i < |steps| then steps[i := steps[i].(flagged := false)] else steps
    case Simulated => SimulatedSteps(steps)
    case _ => steps
  }

  function WorldAfterEvent(row: Row, world: World, e: Event): World {
    match e
    case Executed(i, out) => if i < |row.steps| then WorldAfter(row.steps[i], row, out, world) else world
    case UndoRan(i, ok) => if i < |row.steps| then WorldAfterUndo(row.steps[i], row, ok, world) else world
    case _ => world
  }

  function RowAfter(row: Row, e: Event): Row {
    row.(status := StatusAfter(row, e), steps := StepsAfter(row.steps, e),
         newRef := if e.StepDone? && e.ref.Some? then e.ref else row.newRef)
  }

  function Apply(s: Sys, e: Event): (s': Sys)
    ensures SamePlan(s.row.steps, s'.row.steps)
    ensures s'.row.planPath == s.row.planPath && s'.row.expiresAt == s.row.expiresAt
  {
    Sys(RowAfter(s.row, e), WorldAfterEvent(s.row, s.world, e))
  }

  function Replay(s: Sys, events: seq<Event>): (s': Sys)
    ensures SamePlan(s.row.steps, s'.row.steps)
    ensures s'.row.planPath == s.row.planPath && s'.row.expiresAt == s.row.expiresAt
  {
    if events == [] then s else Apply(Replay(s, events[..|events| - 1]), events[|events| - 1])
  }

  lemma {:induction false} ReplayAppend(s: Sys, a: seq<Event>, b: seq<Event>)
    ensures Replay(s, a + b) == Replay(Replay(s, a), b)
    decreases |b|
  {
    if b == [] {
      assert a + b == a;
    } else {
      var b' := b[..|b| - 1];
      assert (a + b)[..|a + b| - 1] == a + b';
      ReplayAppend(s, a, b');
    }
  }

  lemma ReplayOne(s: Sys, e: Event)
    ensures Replay(s, [e]) == Apply(s, e)
  {
    assert [e][..0] == [];
    assert Replay(s, []) == s;
  }

  predicate Follows(states: seq<Sys>, events: seq<Event>, k: nat)
    requires k < |events| && |states| == |events| + 1
  {
    states[k + 1] == Apply(states[k], events[k])
  }

  /** `states[k]` is the durable state after the first `k` events. */
  ghost predicate History(states: seq<Sys>, events: seq<Event>) {
    && |states| == |events| + 1
    && forall k :: 0 <= k < |events| ==> Follows(states, events, k)
  }

  lemma {:induction false} HistoryIsReplay(states: seq<Sys>, events: seq<Event>, k: nat)
    requires History(states, events) && k <= |events|
    ensures states[k] == Replay(states[0], events[..k])
  {
    if k > 0 {
      HistoryIsReplay(states, events, k - 1);
      assert Follows(states, events, k - 1);
      assert events[..k][..k - 1] == events[..k - 1];
    }
  }

  /** A crash after `k` more effects leaves their replay on top of the state before them. */
  lemma CrashPoint(states: seq<Sys>, log: seq<Event>, more: seq<Event>, k: nat)
    requires History(states, log + more) && k <= |more|
    ensures states[|log| + k] == Replay(states[|log|], more[..k])
  {
    hide Apply;
    HistoryIsReplay(states, log + more, |log|);
    HistoryIsReplay(states, log + more, |log| + k);
    assert (log + more)[..|log|] == log;
    assert (log + more)[..|log| + k] == log + more[..k];
    ReplayAppend(states[0], log, more[..k]);
  }

  // ---- one call of advance_rotation ----

  predicate InPlan(row: Row, todo: seq<nat>) {
    forall k :: 0 <= k < |todo| ==> todo[k] < |row.steps|
  }

  function UndoEvents(row: Row, todo: seq<nat>, fails: set<nat>): seq<Event>
    requires InPlan(row, todo)
  {
    if todo == [] then []
    else
      var rest, i := todo[..|todo| - 1], todo[|todo| - 1];
      var ok := UndoOk(row.steps[i], row, i, fails);
      UndoEvents(row, rest, fails) + [UndoRan(i, ok), UndoStored(i, ok)]
  }

  /** The status that ends a rollback of the steps `todo`. */
  function RollbackVerdict(row: Row, todo: seq<nat>, fails: set<nat>): RotationStatus
    requires InPlan(row, todo)
  {
    if forall k :: 0 <= k < |todo| ==> UndoOk(row.steps[todo[k]], row, todo[k], fails)
    then RolledBack else RollbackFailed
  }

  function UndoAllEvents(row: Row, todo: seq<nat>, fails: set<nat>): seq<Event>
    requires InPlan(row, todo)
  {
    UndoEvents(row, todo, fails) + [Finished(RollbackVerdict(row, todo, fails))]
  }

  /** Everything after the commit that marks a step as failed; `row` is as loaded by the call. */
  function RollbackEvents(row: Row, fails: set<nat>): seq<Event> {
    [RollbackStarted] + UndoAllEvents(row, DoneDescending(row.steps, |row.steps|), fails)
  }

  /** Sections 8 and 9 of the call: the running status is committed, then the step executes. */
  function StartEvents(row: Row, i: nat, out: Outcome): seq<Event>
    requires i < |row.steps|
  {
    (if row.status == RunningStatus(row.steps[i].kind) then [] else [Started(i)]) + [Executed(i, out)]
  }

  function DoneEvents(row: Row, i: nat, ref: Option<SecretRef>): seq<Event> {
    [StepDone(i, ref)] + if PendingAfter(row.steps, i) then [] else [Finished(Completed)]
  }

  /** Section 10 of the call: the result is persisted, or everything done is compensated. */
  function ResultEvents(row: Row, i: nat, o: Oracle): seq<Event>
    requires i < |row.steps|
  {
    if StepOk(row.steps[i], row, o.exec)
    then DoneEvents(row, i, RefFrom(row.steps[i], row, o.exec))
    else [StepFailed(i)] + RollbackEvents(row, o.undoFails)
  }

  function RunEvents(row: Row, i: nat, o: Oracle): seq<Event>
    requires i < |row.steps|
  {
    StartEvents(row, i, o.exec) + ResultEvents(row, i, o)
  }

  function AdvanceEvents(row: Row, now: int, o: Oracle): seq<Event> {
    if Terminal(row.status) then []
    else if row.status == PendingApproval && Expired(row, now) then [PlanExpired]
    else if |row.steps| == 0 then []
    else
      var i := FirstPending(row.steps);
      if i == |row.steps| then
        if AllDone(row.steps) then [Finished(Completed)] else []
      else if row.steps[i].flagged && row.status != AwaitingConfirmation then [Paused(i)]
      else if row.steps[i].kind == Revoke && !GateOpen(row.steps) then [Blocked(i)]
      else RunEvents(row, i, o)
  }

  /** Whether the call asks for the job to be enqueued again. */
  predicate Continues(row: Row, now: int, o: Oracle) {
    var i := FirstPending(row.steps);
    && !Terminal(row.status)
    && !(row.status == PendingApproval && Expired(row, now))
    && i < |row.steps|
    && !(row.steps[i].flagged && row.status != AwaitingConfirmation)
    && !(row.steps[i].kind == Revoke && !GateOpen(row.steps))
    && StepOk(row.steps[i], row, o.exec)
    && PendingAfter(row.steps, i)
  }
}
