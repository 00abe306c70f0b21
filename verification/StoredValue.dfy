/** What the secret store holds for the new credential. */
module StoredValue {
  import opened RotationTypes
  import opened EngineSpec
  import opened Machine
  import opened Safety
  import opened Recovery
  import opened Outage

  /** A distribute step wrote to the store while the rotation had a new reference. */
  predicate Overwrites(s: Sys, e: Event) {
    && e.Executed? && e.i < |s.row.steps| && s.row.steps[e.i].kind == Distribute
    && s.row.newRef.Some? && e.out.writeOk
  }

  ghost predicate Overwritten(init: Sys, log: seq<Event>, p: nat)
    requires p <= |log|
  {
    exists q :: 0 <= q < p && Overwrites(At(init, log, q), log[q])
  }

  predicate Holds(s: Sys, value: Value) {
    s.row.newRef.Some? && s.row.newRef.value.path in s.world.store && s.world.store[s.row.newRef.value.path] == value
  }

  /** The provision step `v` has just executed and succeeded, so its material is stored. */
  predicate JustWritten(s: Sys, hist: seq<Event>, v: nat)
    requires v < |s.row.steps|
  {
    LastExecuted(hist, v) && StepOk(s.row.steps[v], s.row, hist[|hist| - 1].out) ==>
      && hist[|hist| - 1].out.create.Some? && s.row.planPath.Some? && s.row.planPath.value in s.world.store
      && s.world.store[s.row.planPath.value] == Material(hist[|hist| - 1].out.create.value)
  }

  predicate StoreIs(s: Sys, hist: seq<Event>, v: nat, overwritten: bool) {
    && OneProvision(s.row, v) && JustWritten(s, hist, v)
    && (s.row.newRef.None? ==> !overwritten)
    && (s.row.newRef.Some? ==>
          && s.row.steps[v].status != Pending && s.row.newRef.value.path == s.row.planPath.value
          && Holds(s, if overwritten then Placeholder else Material(s.row.newRef.value.keyId)))
  }

  lemma OneProvisionStays(s: Sys, e: Event, v: nat)
    requires OneProvision(s.row, v)
    ensures OneProvision(Apply(s, e).row, v)
  {
  }

  lemma StoreStep(s: Sys, hist: seq<Event>, e: Event, v: nat, overwritten: bool)
    requires Legal(s, hist, e) && StoreIs(s, hist, v, overwritten)
    ensures StoreIs(Apply(s, e), hist + [e], v, overwritten || Overwrites(s, e))
  {
    OneProvisionStays(s, e, v);
    hide OneProvision;
    assert s.row.steps[v].kind == Provision && s.row.planPath.Some? by {
      ProvisionHere(s.row, v);
    }
    assert forall i :: 0 <= i < |s.row.steps| && i != v ==> s.row.steps[i].kind != Provision by {
      ProvisionHere(s.row, v);
    }
  }

  lemma ProvisionHere(row: Row, v: nat)
    requires OneProvision(row, v)
    ensures v < |row.steps| && row.steps[v].kind == Provision && row.planPath.Some?
    ensures forall i :: 0 <= i < |row.steps| && i != v ==> row.steps[i].kind != Provision
  {
  }

  lemma OverwrittenMore(init: Sys, log: seq<Event>, p: nat)
    requires p < |log|
    ensures Overwritten(init, log, p + 1) <==> Overwritten(init, log, p) || Overwrites(At(init, log, p), log[p])
  {
    hide Overwrites, At;
  }

  lemma {:induction false} StoreAt(init: Sys, log: seq<Event>, p: nat, v: nat)
    requires Initial(init) && LegalLog(init, log) && p <= |log| && OneProvision(init.row, v)
    ensures StoreIs(At(init, log, p), log[..p], v, Overwritten(init, log, p))
    decreases p
  {
    hide Legal, Apply, Overwrites;
    if p == 0 {
      assert log[..0] == [];
    } else {
      StoreAt(init, log, p - 1, v);
      LogStep(init, log, p - 1);
      OverwrittenMore(init, log, p - 1);
      StoreStep(At(init, log, p - 1), log[..p - 1], log[p - 1], v, Overwritten(init, log, p - 1));
      assert log[..p] == log[..p - 1] + [log[p - 1]];
    }
  }

  /** At every commit of every run with a new reference, the store holds the new credential
      there if and only if no distribute step has written since; otherwise it holds the
      placeholder. */
  lemma StoreExactly(init: Sys, actions: seq<Action>, p: nat, v: nat)
    requires Initial(init) && p <= |Run(init, actions).log| && OneProvision(init.row, v)
    requires At(init, Run(init, actions).log, p).row.newRef.Some?
    ensures var log := Run(init, actions).log;
            var s := At(init, log, p);
            && (Holds(s, Material(s.row.newRef.value.keyId)) <==> !Overwritten(init, log, p))
            && (Holds(s, Placeholder) <==> Overwritten(init, log, p))
  {
    hide Run, At, Overwrites, OneProvision, JustWritten;
    RunLegal(init, actions);
    StoreAt(init, Run(init, actions).log, p, v);
  }

  // ---- after a distribute step ----

  lemma RefStays(s: Sys, e: Event)
    ensures s.row.newRef.Some? ==> Apply(s, e).row.newRef.Some?
  {
  }

  lemma {:induction false} RefOnceDone(init: Sys, log: seq<Event>, q: nat, p: nat)
    requires LegalLog(init, log) && q <= p <= |log| && At(init, log, q).row.newRef.Some?
    ensures At(init, log, p).row.newRef.Some?
    decreases p
  {
    hide Apply, Legal;
    if q < p {
      RefOnceDone(init, log, q, p - 1);
      LogStep(init, log, p - 1);
      RefStays(At(init, log, p - 1), log[p - 1]);
    }
  }

  lemma ProvisionSetsRef(s: Sys, hist: seq<Event>, e: Event, v: nat)
    requires Legal(s, hist, e) && e.StepDone? && e.i == v && OneProvision(s.row, v)
    ensures Apply(s, e).row.newRef.Some?
  {
  }

  /** Without a simulated failure, the provision step is done only if there is a reference. */
  lemma DoneHasRef(init: Sys, log: seq<Event>, p: nat, v: nat)
    requires Initial(init) && LegalLog(init, log) && p <= |log| && OneProvision(init.row, v)
    requires NotSimulated(log, p) && At(init, log, p).row.steps[v].status == Done
    ensures At(init, log, p).row.newRef.Some?
  {
    ProvisionHere(init.row, v);
    hide Apply, Legal, OneProvision, SucceededAt, AnsweredAt, AnsweredBefore;
    DoneHasRecord(init, log, p, v);
    var q :| 0 < q < p <= |log| && SucceededAt(init, log, q, v);
    RecordAt(init, log, q, v);
    hide At, IsExecuted;
    LogStep(init, log, q);
    SameProvision(init, log, q, v);
    ProvisionSetsRef(At(init, log, q), log[..q], log[q], v);
    RefOnceDone(init, log, q + 1, p);
  }

  lemma RecordAt(init: Sys, log: seq<Event>, q: nat, i: nat)
    requires 0 < q < |log| && SucceededAt(init, log, q, i)
    ensures IsStepDone(log[q], i) && IsExecuted(log[q - 1], i)
    ensures var s := At(init, log, q - 1); i < |s.row.steps| && StepOk(s.row.steps[i], s.row, log[q - 1].out)
  {
  }

  lemma SameProvision(init: Sys, log: seq<Event>, q: nat, v: nat)
    requires q <= |log| && OneProvision(init.row, v)
    ensures OneProvision(At(init, log, q).row, v)
  {
    var s := At(init, log, q);
    assert SamePlan(init.row.steps, s.row.steps);
  }

  /** Before any failure, a done distribute step that follows the provision step has
      overwritten the new credential. */
  lemma DistributedMeansOverwritten(init: Sys, log: seq<Event>, p: nat, v: nat, d: nat)
    requires Initial(init) && LegalLog(init, log) && p <= |log| && NoFailure(log, p) && OneProvision(init.row, v)
    requires v < d < |init.row.steps| && init.row.steps[d].kind == Distribute
    requires At(init, log, p).row.steps[d].status == Done
    ensures Overwritten(init, log, p)
  {
    hide Apply, Legal, OneProvision, SucceededAt, FirstPending, AnsweredAt, AnsweredBefore;
    DoneHasRecord(init, log, p, d);
    var q :| 0 < q < p <= |log| && SucceededAt(init, log, q, d);
    RecordAt(init, log, q, d);
    var s := At(init, log, q - 1);
    LogStep(init, log, q - 1);
    DueHere(s, log[..q - 1], log[q - 1]);
    PrefixedUntilFailure(init, log, q - 1);
    assert s.row.steps[v].status == Done;
    DoneHasRef(init, log, q - 1, v);
    assert SamePlan(init.row.steps, s.row.steps);
    assert Overwrites(s, log[q - 1]);
  }

  lemma DueHere(s: Sys, hist: seq<Event>, e: Event)
    requires Legal(s, hist, e) && e.Executed?
    ensures e.i < |s.row.steps| && FirstPending(s.row.steps) == e.i
  {
  }

  /** Before any failure, a step after a distribute step that follows the provision step
      executes on the placeholder: a verify step there never looks at the new credential. */
  lemma ExecutesOnPlaceholder(init: Sys, actions: seq<Action>, p: nat, v: nat, d: nat)
    requires Initial(init) && p < |Run(init, actions).log| && NoFailure(Run(init, actions).log, p)
    requires OneProvision(init.row, v) && v < d < |init.row.steps| && init.row.steps[d].kind == Distribute
    requires Run(init, actions).log[p].Executed? && Run(init, actions).log[p].i > d
    ensures Holds(At(init, Run(init, actions).log, p), Placeholder)
  {
    hide Run, Apply, Legal, OneProvision, FirstPending, Overwritten, JustWritten;
    var log := Run(init, actions).log;
    RunLegal(init, actions);
    LogStep(init, log, p);
    DueHere(At(init, log, p), log[..p], log[p]);
    PrefixedUntilFailure(init, log, p);
    DistributedMeansOverwritten(init, log, p, v, d);
    StoreAt(init, log, p, v);
  }

  /** A rotation that completes without a crash in failure handling leaves the placeholder
      in the store, not the new credential. */
  lemma CompletedWithPlaceholder(init: Sys, actions: seq<Action>, v: nat, d: nat)
    requires Initial(init) && CleanRun(init, actions) && Run(init, actions).db.row.status == Completed
    requires OneProvision(init.row, v) && v < d < |init.row.steps| && init.row.steps[d].kind == Distribute
    ensures Holds(Run(init, actions).db, Placeholder)
  {
    hide Run, CleanRun, OneProvision, Overwritten, JustWritten;
    var log := Run(init, actions).log;
    RunLegal(init, actions);
    CompletedMeansAllDone(init, actions);
    CompletedAllDoneIff(init, actions);
    assert log[..|log|] == log;
    DistributedMeansOverwritten(init, log, |log|, v, d);
    StoreAt(init, log, |log|, v);
  }
}
