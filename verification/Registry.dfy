/** All rotations of all secrets: creation, and every other transition, in any order. */
module Registry {
  import opened RotationTypes
  import opened Machine

  type SecretId = nat
  type RotationId = nat
  type RequestId = nat

  datatype Rotation = Rotation(secret: SecretId, c: Config)

  // `waiting` holds the trigger requests that have seen no active rotation and have not
  // inserted yet.
  datatype Tables = Tables(rotations: map<RotationId, Rotation>, waiting: map<RequestId, SecretId>)

  datatype Op =
    | Look(request: RequestId, secret: SecretId)
    | Insert(request: RequestId, id: RotationId, init: Sys)
    | On(id: RotationId, a: Action)

  predicate Active(t: Tables, id: RotationId, secret: SecretId) {
    id in t.rotations && t.rotations[id].secret == secret && !Terminal(t.rotations[id].c.db.row.status)
  }

  ghost predicate SomeActive(t: Tables, secret: SecretId) {
    exists id :: Active(t, id, secret)
  }

  /** The first query of trigger_rotation: the id of an active rotation of the secret. */
  ghost function Found(t: Tables, secret: SecretId): Option<RotationId> {
    if id :| Active(t, id, secret) then Some(id) else None
  }

  /** One database transaction. The insert of a second active rotation hits the partial
      unique index, its step rows then have no parent, and the transaction aborts. */
  ghost function Next(t: Tables, op: Op): Tables {
    match op
    case Look(request, secret) =>
      if SomeActive(t, secret) then t else t.(waiting := t.waiting[request := secret])
    case Insert(request, id, init) =>
      if request !in t.waiting then t
      else
        var secret := t.waiting[request];
        var done := t.(waiting := t.waiting - {request});
        if SomeActive(t, secret) || id in t.rotations || !Initial(init) then done
        else done.(rotations := t.rotations[id := Rotation(secret, Config(init, 0, []))])
    case On(id, a) =>
      if id in t.rotations
      then t.(rotations := t.rotations[id := t.rotations[id].(c := Act(t.rotations[id].c, a))])
      else t
  }

  ghost function RunOps(ops: seq<Op>): Tables {
    if ops == [] then Tables(map[], map[]) else Next(RunOps(ops[..|ops| - 1]), ops[|ops| - 1])
  }

  ghost predicate OneActive(t: Tables) {
    forall i, j, secret :: Active(t, i, secret) && Active(t, j, secret) ==> i == j
  }

  /** A terminal rotation has no durable effect any more, whatever is asked of it. */
  lemma TerminalAbsorbs(c: Config, a: Action)
    requires Terminal(c.db.row.status)
    ensures Act(c, a).db == c.db && Act(c, a).log == c.log
  {
    assert EventsOf(c, a) == [];
  }

  lemma NoRevival(t: Tables, id: RotationId, a: Action, i: RotationId, secret: SecretId)
    requires Active(Next(t, On(id, a)), i, secret)
    ensures Active(t, i, secret)
  {
    if i == id && Terminal(t.rotations[id].c.db.row.status) {
      TerminalAbsorbs(t.rotations[id].c, a);
    }
  }

  lemma InsertedActive(t: Tables, request: RequestId, id: RotationId, init: Sys, i: RotationId, secret: SecretId)
    requires Active(Next(t, Insert(request, id, init)), i, secret)
    ensures Active(t, i, secret) || (i == id && !SomeActive(t, secret))
  {
  }

  lemma OneActiveStep(t: Tables, op: Op)
    requires OneActive(t)
    ensures OneActive(Next(t, op))
  {
    var u := Next(t, op);
    forall i, j, secret | Active(u, i, secret) && Active(u, j, secret)
      ensures i == j
    {
      match op
      case Look(_, _) =>
        assert Active(t, i, secret) && Active(t, j, secret);
      case Insert(request, id, init) =>
        InsertedActive(t, request, id, init, i, secret);
        InsertedActive(t, request, id, init, j, secret);
      case On(id, a) =>
        NoRevival(t, id, a, i, secret);
        NoRevival(t, id, a, j, secret);
    }
  }

  /** Over any interleaving, each secret has at most one active rotation. */
  lemma {:induction false} AtMostOneActive(ops: seq<Op>)
    ensures OneActive(RunOps(ops))
    decreases |ops|
  {
    hide Next;
    if ops != [] {
      AtMostOneActive(ops[..|ops| - 1]);
      OneActiveStep(RunOps(ops[..|ops| - 1]), ops[|ops| - 1]);
    }
  }

  /** A repeated trigger finds exactly the active rotation and changes nothing. */
  lemma RepeatedTrigger(ops: seq<Op>, request: RequestId, id: RotationId, secret: SecretId)
    requires Active(RunOps(ops), id, secret)
    ensures Found(RunOps(ops), secret) == Some(id)
    ensures Next(RunOps(ops), Look(request, secret)) == RunOps(ops)
  {
    AtMostOneActive(ops);
  }

  /** A terminal rotation keeps its rows forever. */
  lemma {:induction false} TerminalForever(ops: seq<Op>, more: seq<Op>, id: RotationId)
    requires id in RunOps(ops).rotations && Terminal(RunOps(ops).rotations[id].c.db.row.status)
    ensures id in RunOps(ops + more).rotations
    ensures RunOps(ops + more).rotations[id].c.db == RunOps(ops).rotations[id].c.db
    decreases |more|
  {
    if more == [] {
      assert ops + more == ops;
    } else {
      var before := more[..|more| - 1];
      TerminalForever(ops, before, id);
      assert (ops + more)[..|ops + more| - 1] == ops + before;
      var t, op := RunOps(ops + before), more[|more| - 1];
      if op.On? && op.id == id {
        TerminalAbsorbs(t.rotations[id].c, op.a);
      }
    }
  }

  /** The statuses in which a rotation no longer stands in the way of a new one. */
  predicate Ended(status: RotationStatus) {
    || status == Completed || status == RolledBack || status == RollbackFailed
    || status == Rejected || status == Abandoned || status == PlanFailed
  }

  /** A trigger of a secret inserts the rotation it was given exactly if every rotation of
      the secret has ended; otherwise it inserts nothing. */
  lemma TriggerInsertsIff(ops: seq<Op>, request: RequestId, id: RotationId, secret: SecretId, init: Sys)
    requires var t := RunOps(ops); id !in t.rotations && request !in t.waiting
    requires Initial(init)
    ensures var t := RunOps(ops);
            var after := RunOps(ops + [Look(request, secret)] + [Insert(request, id, init)]);
            var free := forall j :: j in t.rotations && t.rotations[j].secret == secret ==>
                                      Ended(t.rotations[j].c.db.row.status);
            && (free ==> after.rotations == t.rotations[id := Rotation(secret, Config(init, 0, []))])
            && (!free ==> after.rotations == t.rotations)
  {
    var t := RunOps(ops);
    assert (ops + [Look(request, secret)])[..|ops|] == ops;
    var all := ops + [Look(request, secret)] + [Insert(request, id, init)];
    assert all[..|all| - 1] == ops + [Look(request, secret)];
    hide RunOps;
    if j :| j in t.rotations && t.rotations[j].secret == secret && !Ended(t.rotations[j].c.db.row.status) {
      assert Active(t, j, secret);
    } else {
      forall j
        ensures !Active(t, j, secret)
      {
      }
    }
  }
}
