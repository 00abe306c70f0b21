/** trigger_rotation: idempotent creation of the canonical four-step rotation. */
module Trigger {
  import opened RotationTypes
  import opened EngineSpec
  import opened Machine
  import opened Safety
  import opened Recovery
  import opened Confirmation
  import opened Expiry
  import opened Progress
  import Outage
  import Registry
  import StoredValue

  const PLAN_TTL := 24 * 60 * 60

  // The key that a revoke step targets when its target names none.
  const UNKNOWN_KEY: KeyId := 0

  // The targets of these steps name no key.
  datatype StepData = StepData(kind: Kind, flagged: bool, undo: Undo)

  const STEPS_DATA := [
    StepData(Provision, false, DeleteNewKey),
    StepData(Distribute, true, RestoreOldValue),
    StepData(Verify, false, NoUndo),
    StepData(Revoke, true, ReactivateOldKey)
  ]

  function NewStep(d: StepData): Step {
    Step(d.kind, Pending, d.flagged, d.undo, UNKNOWN_KEY)
  }

  function NewRow(path: Path, expiresAt: int, steps: seq<Step>): Row {
    Row(PendingApproval, Some(path), Some(expiresAt), None, steps)
  }

  function CanonicalSteps(): seq<Step> {
    [NewStep(STEPS_DATA[0]), NewStep(STEPS_DATA[1]),
     NewStep(STEPS_DATA[2]), NewStep(STEPS_DATA[3])]
  }

  /** What a trigger at time `now` inserts, written out: a plan that is good for a day, and the
      four steps with their flags and undo actions. */
  predicate InsertedRow(row: Row, path: Path, now: int) {
    && row.status == PendingApproval && row.planPath == Some(path) && row.expiresAt == Some(now + 86400)
    && row.newRef == None && |row.steps| == 4
    && row.steps[0].kind == Provision && row.steps[1].kind == Distribute
    && row.steps[2].kind == Verify && row.steps[3].kind == Revoke
    && !row.steps[0].flagged && row.steps[1].flagged && !row.steps[2].flagged && row.steps[3].flagged
    && row.steps[0].undo == DeleteNewKey && row.steps[1].undo == RestoreOldValue
    && row.steps[2].undo == NoUndo && row.steps[3].undo == ReactivateOldKey
    && forall i :: 0 <= i < 4 ==> row.steps[i].status == Pending
  }

  class RotationTable {
    const secrets: set<Registry.SecretId>
    var rotations: map<Registry.RotationId, Registry.Rotation>

    constructor (secrets: set<Registry.SecretId>)
      ensures this.secrets == secrets && rotations == map[]
    {
      this.secrets, rotations := secrets, map[];
    }

    /** Refuses an unknown secret; otherwise returns the active rotation of the secret if
        there is one, or a new one. */
    method TriggerRotation(secret: Registry.SecretId, newId: Registry.RotationId, path: Path,
                           now: int, world: World) returns (r: Option<Registry.RotationId>)
      requires newId !in rotations
      modifies this
      ensures r.None? <==> secret !in secrets
      ensures r.None? ==> rotations == old(rotations)
      ensures r.Some? ==>
                var t := Registry.Tables(old(rotations), map[]);
                var init := Sys(NewRow(path, now + PLAN_TTL, CanonicalSteps()), world);
                if Registry.SomeActive(t, secret)
                then Registry.Active(t, r.value, secret) && rotations == old(rotations)
                else r.value == newId
                     && rotations == old(rotations)[newId := Registry.Rotation(secret, Config(init, 0, []))]
      ensures r.Some? ==>
                rotations == Registry.Next(Registry.Next(Registry.Tables(old(rotations), map[]),
                               Registry.Look(0, secret)),
                               Registry.Insert(0, newId, Sys(NewRow(path, now + PLAN_TTL, CanonicalSteps()), world))
                             ).rotations
      ensures r.Some? && r.value !in old(rotations) ==> InsertedRow(rotations[r.value].c.db.row, path, now)
    {
      if secret !in secrets {
        return None;
      }
      ghost var t := Registry.Tables(rotations, map[]);
      if existing :| existing in rotations && rotations[existing].secret == secret
                     && !Terminal(rotations[existing].c.db.row.status) {
        assert Registry.Active(t, existing, secret);
        return Some(existing);
      }
      assert !Registry.SomeActive(t, secret);
      var steps: seq<Step> := [];
      for k := 0 to |STEPS_DATA|
        invariant |steps| == k
        invariant forall l :: 0 <= l < k ==> steps[l] == NewStep(STEPS_DATA[l])
      {
        steps := steps + [NewStep(STEPS_DATA[k])];
      }
      assert steps == CanonicalSteps();
      var init := Sys(NewRow(path, now + PLAN_TTL, steps), world);
      assert Initial(init);
      rotations := rotations[newId := Registry.Rotation(secret, Config(init, 0, []))];
      r := Some(newId);
      assert InsertedRow(init.row, path, now);
    }
  }

  /** The canonical plan meets the hypotheses of the theorems about plans. */
  lemma CanonicalPlan(path: Path, expiresAt: int, world: World)
    ensures var row := NewRow(path, expiresAt, CanonicalSteps());
            && Initial(Sys(row, world)) && VerifiesFirst(row.steps) && Outage.OneProvision(row, 0)
            && |row.steps| + FlagCount(row.steps, 0) == 6
  {
    var steps := CanonicalSteps();
    assert FlagCount(steps, 4) == 0 && FlagCount(steps, 3) == 1 && FlagCount(steps, 2) == 1;
  }

  /** Approved, confirmed at its two pauses and never failing, it completes after exactly
      six engine calls. */
  lemma CanonicalCost(path: Path, expiresAt: int, world: World, actions: seq<Action>)
    requires PromptRun(Sys(NewRow(path, expiresAt, CanonicalSteps()), world), actions)
    ensures Run(Sys(NewRow(path, expiresAt, CanonicalSteps()), world), actions).db.row.status == Completed
            <==> JobCount(actions) == 6
  {
    hide Run, PromptRun;
    CanonicalPlan(path, expiresAt, world);
    ExactCost(Sys(NewRow(path, expiresAt, CanonicalSteps()), world), actions);
  }

  /** No run of a triggered rotation, completed or not, touches any existing key but the
      one with the fallback id: its revoke step does not know the old key. */
  lemma CanonicalRevokesNoOldKey(path: Path, expiresAt: int, world: World, actions: seq<Action>, p: nat, key: KeyId)
    requires var init := Sys(NewRow(path, expiresAt, CanonicalSteps()), world);
             p <= |Run(init, actions).log| && Outage.FreshKeys(init, Run(init, actions).log)
    requires key in world.keys && key != UNKNOWN_KEY
    ensures var init := Sys(NewRow(path, expiresAt, CanonicalSteps()), world);
            var keys := At(init, Run(init, actions).log, p).world.keys;
            key in keys && keys[key] == world.keys[key]
  {
    hide Run, At;
    CanonicalPlan(path, expiresAt, world);
    Outage.OldKeyUntilItsRevoke(Sys(NewRow(path, expiresAt, CanonicalSteps()), world), actions, p, key);
  }

  /** The verify step of a triggered rotation looks at the placeholder, and a completed one
      leaves it in the store. */
  lemma CanonicalVerifiesPlaceholder(path: Path, expiresAt: int, world: World, actions: seq<Action>)
    ensures var init := Sys(NewRow(path, expiresAt, CanonicalSteps()), world);
            var log := Run(init, actions).log;
            && (forall p :: 0 <= p < |log| && NoFailure(log, p) && IsExecuted(log[p], 2) ==>
                  StoredValue.Holds(At(init, log, p), Placeholder))
            && (CleanRun(init, actions) && Run(init, actions).db.row.status == Completed ==>
                  StoredValue.Holds(Run(init, actions).db, Placeholder))
  {
    hide Run, CleanRun, At, StoredValue.Holds, Outage.OneProvision;
    var init := Sys(NewRow(path, expiresAt, CanonicalSteps()), world);
    CanonicalPlan(path, expiresAt, world);
    var log := Run(init, actions).log;
    forall p | 0 <= p < |log| && NoFailure(log, p) && IsExecuted(log[p], 2)
      ensures StoredValue.Holds(At(init, log, p), Placeholder)
    {
      StoredValue.ExecutesOnPlaceholder(init, actions, p, 0, 1);
    }
    if CleanRun(init, actions) && Run(init, actions).db.row.status == Completed {
      StoredValue.CompletedWithPlaceholder(init, actions, 0, 1);
    }
  }

  /** A rotation triggered at time `t` is not expired by any call from then until a day later,
      and by every later call that still finds it waiting for approval. */
  lemma CanonicalExpiry(path: Path, t: int, now: int, o: Oracle)
    requires t <= now
    ensures now <= t + 86400 <==>
            AdvanceEvents(NewRow(path, t + PLAN_TTL, CanonicalSteps()), now, o) != [PlanExpired]
  {
    hide AdvanceEvents;
    ExpiresExactly(NewRow(path, t + PLAN_TTL, CanonicalSteps()), now, o);
  }

  /** In careful runs of a triggered rotation, neither distribute nor revoke executes without
      a confirmation of that step before. */
  lemma CanonicalConfirms(path: Path, expiresAt: int, world: World, actions: seq<Action>, p: nat)
    requires var init := Sys(NewRow(path, expiresAt, CanonicalSteps()), world);
             CarefulRun(init, actions) && p < |Run(init, actions).log| && Run(init, actions).log[p].Executed?
    ensures var init := Sys(NewRow(path, expiresAt, CanonicalSteps()), world);
            var log := Run(init, actions).log;
            (log[p].i == 1 || log[p].i == 3) ==> exists q :: 0 <= q < p && log[q] == Confirmed(log[p].i)
  {
    hide Run, CarefulRun;
    var init := Sys(NewRow(path, expiresAt, CanonicalSteps()), world);
    CanonicalPlan(path, expiresAt, world);
    var i := Run(init, actions).log[p].i;
    if i == 1 || i == 3 {
      FlaggedRunsOnlyWhenConfirmed(init, actions, p, i);
    }
  }

  /** The first job after an approval within a day executes the provision step. */
  lemma CanonicalStart(path: Path, t: int, now: int, world: World, o: Oracle)
    requires now <= t + 86400
    ensures var init := Sys(NewRow(path, t + PLAN_TTL, CanonicalSteps()), world);
            var log := Run(init, [Approve(true), Job(now, o, Finishes)]).log;
            && |log| > 2 && log[..3] == [Approved, Started(0), Executed(0, o.exec)]
            && init.row.steps[0].kind == Provision
  {
    var init := Sys(NewRow(path, t + PLAN_TTL, CanonicalSteps()), world);
    CanonicalPlan(path, t + PLAN_TTL, world);
    hide Run;
    FirstJobStarts(init, now, o);
  }
}
