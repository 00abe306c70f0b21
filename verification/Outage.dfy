/** What a rotation leaves behind in the cloud when it rolls back before any revoke. */
module Outage {
  import opened RotationTypes
  import opened EngineSpec
  import opened Machine
  import Rollback
  import opened Safety
  import opened Recovery
  import opened CrashFree

  /** The key that an event creates: a provision step executed and its create call succeeded. */
  function Minted(steps: seq<Step>, e: Event): Option<KeyId> {
    if e.Executed? && e.i < |steps| && steps[e.i].kind == Provision then e.out.create else None
  }

  /** The keys created by executions that no `.done` record followed: the store write
      failed, or the worker died before the commit. */
  function Leaked(steps: seq<Step>, log: seq<Event>): set<KeyId> {
    if log == [] then {}
    else
      var before, e := log[..|log| - 1], log[|log| - 1];
      if Minted(steps, e).Some? then Leaked(steps, before) + {Minted(steps, e).value}
      else if e.StepDone? && before != [] && Minted(steps, before[|before| - 1]).Some?
      then Leaked(steps, before) - {Minted(steps, before[|before| - 1]).value}
      else Leaked(steps, before)
  }

  predicate WasMinted(steps: seq<Step>, log: seq<Event>, key: KeyId) {
    exists q :: 0 <= q < |log| && Minted(steps, log[q]) == Some(key)
  }

  /** Every created key is new: absent at the start, and created once. */
  predicate FreshKeys(init: Sys, log: seq<Event>) {
    && (forall q :: 0 <= q < |log| && Minted(init.row.steps, log[q]).Some? ==>
          Minted(init.row.steps, log[q]).value !in init.world.keys)
    && (forall q, r :: 0 <= q < r < |log| && Minted(init.row.steps, log[q]).Some? ==>
          Minted(init.row.steps, log[r]) != Minted(init.row.steps, log[q]))
  }

  predicate NoRevokeRan(steps: seq<Step>, log: seq<Event>) {
    forall q :: 0 <= q < |log| && log[q].Executed? && log[q].i < |steps| ==> steps[log[q].i].kind != Revoke
  }

  /** The plan has one provision step, `v`, which is undone by deleting the new key. */
  predicate OneProvision(row: Row, v: nat) {
    && v < |row.steps| && row.steps[v].kind == Provision && row.steps[v].undo == DeleteNewKey
    && row.planPath.Some?
    && forall j :: 0 <= j < |row.steps| && j != v ==> row.steps[j].kind != Provision
  }

  function RefKeys(ref: Option<SecretRef>): set<KeyId> {
    if ref.Some? then {ref.value.keyId} else {}
  }

  function Enabled(keys: set<KeyId>): map<KeyId, bool> {
    map k | k in keys :: true
  }

  // ---- the old keys ----

  /** A revoke step that targets the key has executed and its disable call succeeded. */
  predicate Disables(steps: seq<Step>, e: Event, key: KeyId) {
    && e.Executed? && e.i < |steps| && steps[e.i].kind == Revoke && steps[e.i].keyId == key
    && e.out.disableOk
  }

  /** Its delete call succeeded as well. */
  predicate Deletes(steps: seq<Step>, e: Event, key: KeyId) {
    Disables(steps, e, key) && e.out.deleteOk
  }

  predicate DisabledBefore(steps: seq<Step>, log: seq<Event>, p: nat, key: KeyId)
    requires p <= |log|
  {
    exists q :: 0 <= q < p && Disables(steps, log[q], key)
  }

  predicate DeletedBefore(steps: seq<Step>, log: seq<Event>, p: nat, key: KeyId)
    requires p <= |log|
  {
    exists q :: 0 <= q < p && Deletes(steps, log[q], key)
  }

  /** What the cloud holds for an old key; the stored reference is not to an old key. */
  predicate KeyIs(init: Sys, s: Sys, key: KeyId, disabled: bool, deleted: bool)
    requires key in init.world.keys
  {
    && (key in s.world.keys <==> !deleted)
    && (!deleted ==> s.world.keys[key] == (init.world.keys[key] && !disabled))
    && (s.row.newRef.Some? ==> s.row.newRef.value.keyId !in init.world.keys)
  }

  lemma KeyStep(init: Sys, s: Sys, hist: seq<Event>, e: Event, key: KeyId, disabled: bool, deleted: bool)
    requires key in init.world.keys && Legal(s, hist, e) && KeyIs(init, s, key, disabled, deleted)
    requires SamePlan(init.row.steps, s.row.steps)
    requires Minted(s.row.steps, e).Some? ==> Minted(s.row.steps, e).value !in init.world.keys
    requires hist != [] && Minted(s.row.steps, hist[|hist| - 1]).Some? ==>
               Minted(s.row.steps, hist[|hist| - 1]).value !in init.world.keys
    ensures KeyIs(init, Apply(s, e), key, disabled || Disables(s.row.steps, e, key),
                  deleted || Deletes(s.row.steps, e, key))
  {
  }

  lemma MintedSame(a: seq<Step>, b: seq<Step>, e: Event)
    requires SamePlan(a, b)
    ensures Minted(a, e) == Minted(b, e)
  {
  }

  lemma HitsSame(a: seq<Step>, b: seq<Step>, e: Event, key: KeyId)
    requires SamePlan(a, b)
    ensures Disables(a, e, key) == Disables(b, e, key) && Deletes(a, e, key) == Deletes(b, e, key)
  {
  }

  lemma {:induction false} KeyAt(init: Sys, log: seq<Event>, p: nat, key: KeyId)
    requires Initial(init) && LegalLog(init, log) && p <= |log| && FreshKeys(init, log)
    requires key in init.world.keys
    ensures KeyIs(init, At(init, log, p), key, DisabledBefore(init.row.steps, log, p, key),
                  DeletedBefore(init.row.steps, log, p, key))
    decreases p
  {
    hide Legal, Apply, Disables, Deletes;
    if p > 0 {
      KeyAt(init, log, p - 1, key);
      LogStep(init, log, p - 1);
      var s, steps := At(init, log, p - 1), init.row.steps;
      MintedSame(steps, s.row.steps, log[p - 1]);
      HitsSame(steps, s.row.steps, log[p - 1], key);
      if p > 1 {
        MintedSame(steps, s.row.steps, log[p - 2]);
      }
      HitsMore(steps, log, p - 1, key);
      KeyStep(init, s, log[..p - 1], log[p - 1], key, DisabledBefore(steps, log, p - 1, key),
              DeletedBefore(steps, log, p - 1, key));
    }
  }

  lemma HitsMore(steps: seq<Step>, log: seq<Event>, p: nat, key: KeyId)
    requires p < |log|
    ensures DisabledBefore(steps, log, p + 1, key)
            <==> DisabledBefore(steps, log, p, key) || Disables(steps, log[p], key)
    ensures DeletedBefore(steps, log, p + 1, key)
            <==> DeletedBefore(steps, log, p, key) || Deletes(steps, log[p], key)
  {
    hide Disables, Deletes;
  }

  /** At every commit of every run, whatever failed and was rolled back: an old key is gone
      exactly if both calls of a revoke step on this very key succeeded, and it is as it was
      before exactly if, being enabled, no disable call on it succeeded. */
  lemma OldKeyExactly(init: Sys, actions: seq<Action>, p: nat, key: KeyId)
    requires Initial(init) && p <= |Run(init, actions).log| && FreshKeys(init, Run(init, actions).log)
    requires key in init.world.keys
    ensures var log := Run(init, actions).log;
            var keys := At(init, log, p).world.keys;
            && (key !in keys <==> DeletedBefore(init.row.steps, log, p, key))
            && (init.world.keys[key] ==> (key in keys && keys[key] <==> !DisabledBefore(init.row.steps, log, p, key)))
  {
    hide Run, Disables;
    var log := Run(init, actions).log;
    RunLegal(init, actions);
    KeyAt(init, log, p, key);
    DeletedIsDisabled(init.row.steps, log, p, key);
  }

  lemma DeletedIsDisabled(steps: seq<Step>, log: seq<Event>, p: nat, key: KeyId)
    requires p <= |log|
    ensures DeletedBefore(steps, log, p, key) ==> DisabledBefore(steps, log, p, key)
  {
    hide Disables;
    if DeletedBefore(steps, log, p, key) {
      var q :| 0 <= q < p && Deletes(steps, log[q], key);
      assert Disables(steps, log[q], key);
    }
  }

  /** In any run, an old key is as it was until a revoke step that targets this very key
      executes and its disable call succeeds. */
  lemma OldKeyUntilItsRevoke(init: Sys, actions: seq<Action>, p: nat, key: KeyId)
    requires Initial(init) && p <= |Run(init, actions).log| && FreshKeys(init, Run(init, actions).log)
    requires key in init.world.keys
    requires !DisabledBefore(init.row.steps, Run(init, actions).log, p, key)
    ensures var keys := At(init, Run(init, actions).log, p).world.keys;
            key in keys && keys[key] == init.world.keys[key]
  {
    hide Run, Disables;
    RunLegal(init, actions);
    KeyAt(init, Run(init, actions).log, p, key);
    DeletedIsDisabled(init.row.steps, Run(init, actions).log, p, key);
  }

  // ---- every key is accounted for ----

  /** The cloud holds the initial keys, the leaked keys and the key of the stored reference. */
  predicate Accounted(init: Sys, log: seq<Event>, s: Sys, v: nat) {
    && v < |s.row.steps|
    && s.world.keys == init.world.keys + Enabled(Leaked(init.row.steps, log) + RefKeys(s.row.newRef))
    && RefKeys(s.row.newRef) !! Leaked(init.row.steps, log)
    && (forall k :: k in Leaked(init.row.steps, log) + RefKeys(s.row.newRef) ==> WasMinted(init.row.steps, log, k))
    && (s.row.newRef.Some? <==> s.row.steps[v].status == Done)
  }

  lemma MintedMore(steps: seq<Step>, log: seq<Event>, e: Event, key: KeyId)
    ensures WasMinted(steps, log + [e], key) <==> WasMinted(steps, log, key) || Minted(steps, e) == Some(key)
  {
    if WasMinted(steps, log, key) {
      var q :| 0 <= q < |log| && Minted(steps, log[q]) == Some(key);
      assert (log + [e])[q] == log[q];
    }
    if Minted(steps, e) == Some(key) {
      assert (log + [e])[|log|] == e;
    }
  }

  lemma LeakedMore(steps: seq<Step>, log: seq<Event>, e: Event)
    ensures Leaked(steps, log + [e]) ==
            if Minted(steps, e).Some? then Leaked(steps, log) + {Minted(steps, e).value}
            else if e.StepDone? && log != [] && Minted(steps, log[|log| - 1]).Some?
            then Leaked(steps, log) - {Minted(steps, log[|log| - 1]).value}
            else Leaked(steps, log)
  {
    assert (log + [e])[..|log|] == log;
  }

  predicate PlanOf(init: Sys, s: Sys, v: nat) {
    SamePlan(init.row.steps, s.row.steps) && OneProvision(init.row, v) && s.row.planPath == init.row.planPath
  }

  lemma AccountedExecuted(init: Sys, log: seq<Event>, s: Sys, v: nat, e: Event)
    requires Accounted(init, log, s, v) && PlanOf(init, s, v)
    requires e.Executed? && Due(s, e.i) && s.row.steps[e.i].kind != Revoke
    requires Minted(init.row.steps, e).Some? ==>
               && Minted(init.row.steps, e).value !in init.world.keys
               && !WasMinted(init.row.steps, log, Minted(init.row.steps, e).value)
    ensures Accounted(init, log + [e], Apply(s, e), v)
  {
    LeakedMore(init.row.steps, log, e);
    ExecutedMints(init, s, v, e);
    hide Leaked, WasMinted, Apply, PlanOf;
    var key := Minted(init.row.steps, e);
    forall k: KeyId
      ensures WasMinted(init.row.steps, log + [e], k) <==> WasMinted(init.row.steps, log, k) || key == Some(k)
    {
      MintedMore(init.row.steps, log, e, k);
    }
    if key.Some? {
      KeysGain(init.world.keys, Leaked(init.row.steps, log), RefKeys(s.row.newRef), key.value);
    }
  }

  lemma KeysGain(keys: map<KeyId, bool>, leaked: set<KeyId>, refs: set<KeyId>, key: KeyId)
    ensures (keys + Enabled(leaked + refs))[key := true] == keys + Enabled(leaked + {key} + refs)
  {}

  lemma ExecutedMints(init: Sys, s: Sys, v: nat, e: Event)
    requires PlanOf(init, s, v) && v < |s.row.steps|
    requires e.Executed? && Due(s, e.i) && s.row.steps[e.i].kind != Revoke
    ensures var t := Apply(s, e);
            && |t.row.steps| == |s.row.steps| && t.row.newRef == s.row.newRef
            && t.row.steps[v].status == s.row.steps[v].status
            && t.world.keys == if Minted(init.row.steps, e).Some?
                               then s.world.keys[Minted(init.row.steps, e).value := true] else s.world.keys
  {}

  /** A `.done` record hands the created key of a provision step over to the reference. */
  lemma DoneHandsOver(init: Sys, log: seq<Event>, s: Sys, v: nat, e: Event)
    requires PlanOf(init, s, v) && v < |s.row.steps| && e.StepDone? && Legal(s, log, e)
    requires s.row.newRef.Some? <==> s.row.steps[v].status == Done
    ensures log != []
    ensures var t, key := Apply(s, e), Minted(init.row.steps, log[|log| - 1]);
            && |t.row.steps| == |s.row.steps| && t.world.keys == s.world.keys
            && (t.row.newRef.Some? <==> t.row.steps[v].status == Done)
            && (if key.Some? then s.row.newRef == None && RefKeys(t.row.newRef) == {key.value}
                else t.row.newRef == s.row.newRef)
  {
  }

  lemma AccountedDone(init: Sys, log: seq<Event>, s: Sys, v: nat, e: Event)
    requires Accounted(init, log, s, v) && PlanOf(init, s, v)
    requires e.StepDone? && Legal(s, log, e)
    ensures Accounted(init, log + [e], Apply(s, e), v)
  {
    DoneHandsOver(init, log, s, v, e);
    LeakedMore(init.row.steps, log, e);
    MintIsLeaked(init.row.steps, log);
    forall key: KeyId
      ensures WasMinted(init.row.steps, log + [e], key) <==> WasMinted(init.row.steps, log, key)
    {
      MintedMore(init.row.steps, log, e, key);
    }
    hide Legal, Apply, Leaked, WasMinted, Minted, PlanOf;
    var leaked := Leaked(init.row.steps, log);
    assert leaked + RefKeys(s.row.newRef) ==
           Leaked(init.row.steps, log + [e]) + RefKeys(Apply(s, e).row.newRef);
  }

  lemma MintIsLeaked(steps: seq<Step>, log: seq<Event>)
    ensures log != [] && Minted(steps, log[|log| - 1]).Some? ==>
              Minted(steps, log[|log| - 1]).value in Leaked(steps, log)
  {
  }

  lemma AccountedQuiet(init: Sys, log: seq<Event>, s: Sys, v: nat, e: Event)
    requires Accounted(init, log, s, v) && PlanOf(init, s, v)
    requires Legal(s, log, e) && !e.Executed? && !e.StepDone? && !Failure(e) && s.row.status != RollingBack
    ensures Accounted(init, log + [e], Apply(s, e), v)
  {
    assert !e.UndoRan? && !e.UndoStored?;
    hide Legal;
    LeakedMore(init.row.steps, log, e);
    forall key: KeyId
      ensures WasMinted(init.row.steps, log + [e], key) <==> WasMinted(init.row.steps, log, key)
    {
      MintedMore(init.row.steps, log, e, key);
    }
    hide Leaked, WasMinted, StatusAfter;
  }

  lemma AccountedStep(init: Sys, log: seq<Event>, s: Sys, v: nat, e: Event)
    requires Accounted(init, log, s, v) && PlanOf(init, s, v)
    requires Legal(s, log, e) && !Failure(e) && s.row.status != RollingBack
    requires e.Executed? && e.i < |init.row.steps| ==> init.row.steps[e.i].kind != Revoke
    requires Minted(init.row.steps, e).Some? ==>
               && Minted(init.row.steps, e).value !in init.world.keys
               && !WasMinted(init.row.steps, log, Minted(init.row.steps, e).value)
    ensures Accounted(init, log + [e], Apply(s, e), v)
  {
    if e.Executed? {
      assert Due(s, e.i);
      hide Legal, Apply, Accounted;
      AccountedExecuted(init, log, s, v, e);
    } else {
      hide Legal, Apply, Accounted;
      if e.StepDone? {
        AccountedDone(init, log, s, v, e);
      } else {
        AccountedQuiet(init, log, s, v, e);
      }
    }
  }

  lemma AccountedInitially(init: Sys, v: nat)
    requires Initial(init) && OneProvision(init.row, v)
    ensures Accounted(init, [], init, v)
  {
    assert Enabled({} + {}) == map[];
  }

  lemma {:induction false} AccountedAt(init: Sys, log: seq<Event>, p: nat, v: nat)
    requires Initial(init) && LegalLog(init, log) && p <= |log| && NoFailure(log, p)
    requires OneProvision(init.row, v) && FreshKeys(init, log) && NoRevokeRan(init.row.steps, log)
    ensures Accounted(init, log[..p], At(init, log, p), v)
    decreases p
  {
    hide Legal, Apply, Accounted, Leaked;
    if p == 0 {
      assert log[..0] == [];
      AccountedInitially(init, v);
    } else {
      AccountedAt(init, log, p - 1, v);
      LogStep(init, log, p - 1);
      PrefixedUntilFailure(init, log, p - 1);
      AccountedStep(init, log[..p - 1], At(init, log, p - 1), v, log[p - 1]);
      assert log[..p] == log[..p - 1] + [log[p - 1]];
    }
  }

  // ---- the rollback ----

  predicate Removes(row: Row, todo: seq<nat>, fails: set<nat>)
    requires InPlan(row, todo)
  {
    exists k :: 0 <= k < |todo| && UndoCalls(row.steps[todo[k]], row) && UndoOk(row.steps[todo[k]], row, todo[k], fails)
  }

  lemma {:induction false} UndoKeys(row: Row, s: Sys, todo: seq<nat>, fails: set<nat>)
    requires RollingFrom(row, s) && InPlan(row, todo)
    requires forall k, l :: 0 <= k < l < |todo| ==> todo[k] > todo[l]
    ensures Replay(s, UndoEvents(row, todo, fails)).world.keys ==
            s.world.keys - (if Removes(row, todo, fails) then RefKeys(row.newRef) else {})
    decreases |todo|
  {
    if todo != [] {
      var rest, i := todo[..|todo| - 1], todo[|todo| - 1];
      assert todo == rest + [i];
      UndoKeys(row, s, rest, fails);
      UndoState(row, s, rest, fails);
      UndoKeysPair(row, s, rest, i, fails);
    }
  }

  lemma UndoKeysPair(row: Row, s: Sys, rest: seq<nat>, i: nat, fails: set<nat>)
    requires InPlan(row, rest) && i < |row.steps| && InPlan(row, rest + [i])
    requires RollingFrom(row, Replay(s, UndoEvents(row, rest, fails)))
    requires Replay(s, UndoEvents(row, rest, fails)).world.keys ==
             s.world.keys - (if Removes(row, rest, fails) then RefKeys(row.newRef) else {})
    ensures Replay(s, UndoEvents(row, rest + [i], fails)).world.keys ==
            s.world.keys - (if Removes(row, rest + [i], fails) then RefKeys(row.newRef) else {})
  {
    hide Replay, UndoEvents, Removes;
    var ok := UndoOk(row.steps[i], row, i, fails);
    var done, pair := UndoEvents(row, rest, fails), [UndoRan(i, ok), UndoStored(i, ok)];
    UndoEventsMore(row, rest, i, fails);
    ReplayAppend(s, done, pair);
    ReplayTwo(Replay(s, done), UndoRan(i, ok), UndoStored(i, ok));
    RemovesMore(row, rest, i, fails);
  }

  lemma RemovesMore(row: Row, rest: seq<nat>, i: nat, fails: set<nat>)
    requires InPlan(row, rest) && i < |row.steps| && InPlan(row, rest + [i])
    ensures Removes(row, rest + [i], fails) <==>
            Removes(row, rest, fails) || (UndoCalls(row.steps[i], row) && UndoOk(row.steps[i], row, i, fails))
  {
    var todo := rest + [i];
    if Removes(row, rest, fails) {
      var k :| 0 <= k < |rest| && UndoCalls(row.steps[rest[k]], row) && UndoOk(row.steps[rest[k]], row, rest[k], fails);
      assert todo[k] == rest[k];
    }
    if UndoCalls(row.steps[i], row) && UndoOk(row.steps[i], row, i, fails) {
      assert todo[|rest|] == i;
    }
  }

  lemma TailKeys(s: Sys, i: nat, fails: set<nat>)
    requires i < |s.row.steps| && s.row.steps[i].status == Pending
    ensures var todo := DoneDescending(s.row.steps, |s.row.steps|);
            var t := Replay(s, [StepFailed(i)] + RollbackEvents(s.row, fails));
            && t.world.keys == s.world.keys - (if Removes(s.row, todo, fails) then RefKeys(s.row.newRef) else {})
            && t.row.status == RollbackVerdict(s.row, todo, fails)
  {
    hide Replay, Removes, UndoEvents, Apply, RollbackEvents, RollbackVerdict, RollingFrom;
    var todo := DoneDescending(s.row.steps, |s.row.steps|);
    var s2 := Apply(Apply(s, StepFailed(i)), RollbackStarted);
    Rollback.RollbackReplay(s, i, fails);
    Rollback.RollbackBegins(s, i);
    UndoKeys(s.row, s2, todo, fails);
    Rollback.RollbackEnds(Replay(s2, UndoEvents(s.row, todo, fails)), RollbackVerdict(s.row, todo, fails));
  }

  lemma {:induction false} LeakedSame(steps: seq<Step>, a: seq<Event>, b: seq<Event>)
    requires forall k :: 0 <= k < |b| ==> !b[k].Executed? && !b[k].StepDone?
    ensures Leaked(steps, a + b) == Leaked(steps, a)
    decreases |b|
  {
    if b == [] {
      assert a + b == a;
    } else {
      var b' := b[..|b| - 1];
      LeakedSame(steps, a, b');
      LeakedMore(steps, a + b', b[|b| - 1]);
      assert a + b == a + b' + [b[|b| - 1]];
    }
  }

  lemma RolledUpNeedsFailure(init: Sys, log: seq<Event>)
    requires Initial(init) && LegalLog(init, log) && NoFailure(log, |log|)
    ensures !RolledUp(At(init, log, |log|).row.status)
  {
    hide Legal, Apply;
    if log != [] {
      LogStep(init, log, |log| - 1);
      PrefixedUntilFailure(init, log, |log| - 1);
      NotRolledUp(At(init, log, |log| - 1), log[..|log| - 1], log[|log| - 1]);
    } else {
      assert log[..0] == [];
    }
  }

  lemma NotRolledUp(s: Sys, hist: seq<Event>, e: Event)
    requires Legal(s, hist, e) && !Failure(e) && s.row.status != RollingBack
    ensures !RolledUp(Apply(s, e).row.status)
  {
  }

  /** The provision step is undone exactly when it was done, provided every undo succeeds. */
  lemma RemovesIffDone(row: Row, v: nat, fails: set<nat>)
    requires OneProvision(row, v) && (row.newRef.Some? <==> row.steps[v].status == Done)
    requires RollbackVerdict(row, DoneDescending(row.steps, |row.steps|), fails) == RolledBack
    ensures Removes(row, DoneDescending(row.steps, |row.steps|), fails) <==> row.newRef.Some?
  {
    var todo := DoneDescending(row.steps, |row.steps|);
    if row.newRef.Some? {
      assert v in todo;
      var k :| 0 <= k < |todo| && todo[k] == v;
      assert UndoCalls(row.steps[todo[k]], row) && UndoOk(row.steps[todo[k]], row, todo[k], fails);
    }
  }

  lemma KeysBalance(keys: map<KeyId, bool>, leaked: set<KeyId>, refs: set<KeyId>)
    requires refs !! leaked && refs !! keys.Keys
    ensures keys + Enabled(leaked + refs) - refs == keys + Enabled(leaked)
  {
  }

  lemma MintedIsFresh(init: Sys, log: seq<Event>, f: nat, key: KeyId)
    requires FreshKeys(init, log) && f <= |log| && WasMinted(init.row.steps, log[..f], key)
    ensures key !in init.world.keys
  {
    var q :| 0 <= q < |log[..f]| && Minted(init.row.steps, log[..f][q]) == Some(key);
    assert log[..f][q] == log[q];
  }

  /** The account at the first failure and the keys that the rollback then deletes. */
  lemma ResidueFrom(init: Sys, log: seq<Event>, f: nat, v: nat, fails: set<nat>)
    requires Initial(init) && LegalLog(init, log) && f < |log| && NoFailure(log, f) && log[f].StepFailed?
    requires OneProvision(init.row, v) && FreshKeys(init, log) && NoRevokeRan(init.row.steps, log)
    requires log[f..] == [log[f]] + RollbackEvents(At(init, log, f).row, fails)
    requires At(init, log, |log|).row.status == RolledBack
    ensures At(init, log, |log|).world.keys == init.world.keys + Enabled(Leaked(init.row.steps, log[..f]))
  {
    hide Legal, Apply, Replay, RollbackEvents, Leaked, Removes, WasMinted, FreshKeys, DoneDescending;
    var s := At(init, log, f);
    LogStep(init, log, f);
    FailEventFacts(s, log[..f], log[f]);
    AccountedAt(init, log, f, v);
    AtSplit(init, log, f, |log|);
    assert log[f..|log|] == log[f..];
    TailKeys(s, log[f].i, fails);
    RemovesIffDone(s.row, v, fails);
    forall key: KeyId | key in RefKeys(s.row.newRef)
      ensures key !in init.world.keys
    {
      MintedIsFresh(init, log, f, key);
    }
    KeysBalance(init.world.keys, Leaked(init.row.steps, log[..f]), RefKeys(s.row.newRef));
    assert RefKeys(None) == {};
    assert s.world.keys - {} == s.world.keys;
  }

  /** After a rollback that preceded every revoke, the cloud holds the initial keys, as they
      were, and exactly the leaked ones besides. Workers may die anywhere outside
      failure handling. */
  lemma RollbackResidue(init: Sys, actions: seq<Action>, v: nat)
    requires Initial(init) && CleanRun(init, actions) && OneProvision(init.row, v)
    requires FreshKeys(init, Run(init, actions).log) && NoRevokeRan(init.row.steps, Run(init, actions).log)
    requires Run(init, actions).db.row.status == RolledBack
    requires NotSimulated(Run(init, actions).log, |Run(init, actions).log|)
    ensures Run(init, actions).db.world.keys ==
            init.world.keys + Enabled(Leaked(init.row.steps, Run(init, actions).log))
  {
    hide Run, Legal, Apply, Replay, CleanRun, RollbackEvents, Leaked, WasMinted, FreshKeys;
    var log := Run(init, actions).log;
    RunLegal(init, actions);
    assert log[..|log|] == log;
    if NoFailure(log, |log|) {
      RolledUpNeedsFailure(init, log);
    }
    var f := FirstFailure(log, |log|);
    var fails := CleanTail(init, actions, f);
    var row := At(init, log, f).row;
    ResidueFrom(init, log, f, v, fails);
    RollbackKinds(row, fails);
    assert log == log[..f] + log[f..];
    LeakedSame(init.row.steps, log[..f], log[f..]);
  }

  /** No outage: the cloud is exactly as before the rotation if and only if no created key
      was lost before its `.done` commit. */
  lemma NoOutageIff(init: Sys, actions: seq<Action>, v: nat)
    requires Initial(init) && CleanRun(init, actions) && OneProvision(init.row, v)
    requires FreshKeys(init, Run(init, actions).log) && NoRevokeRan(init.row.steps, Run(init, actions).log)
    requires Run(init, actions).db.row.status == RolledBack
    requires NotSimulated(Run(init, actions).log, |Run(init, actions).log|)
    ensures Run(init, actions).db.world.keys == init.world.keys
            <==> Leaked(init.row.steps, Run(init, actions).log) == {}
  {
    hide Run, CleanRun, FreshKeys;
    var log := Run(init, actions).log;
    RollbackResidue(init, actions, v);
    assert Enabled({}) == map[];
    assert init.world.keys + map[] == init.world.keys;
    if Leaked(init.row.steps, log) != {} {
      var key :| key in Leaked(init.row.steps, log);
      LeakedWasMinted(init.row.steps, log, key);
      assert log[..|log|] == log;
      MintedIsFresh(init, log, |log|, key);
      assert key in Run(init, actions).db.world.keys;
    }
  }

  /** A rejection compensates nothing: the cloud is as before exactly when no key was lost
      and the provision step was not done yet. */
  lemma RejectionResidueIff(init: Sys, actions: seq<Action>, v: nat)
    requires Initial(init) && CleanRun(init, actions) && OneProvision(init.row, v)
    requires FreshKeys(init, Run(init, actions).log) && NoRevokeRan(init.row.steps, Run(init, actions).log)
    requires Run(init, actions).db.row.status == Rejected
    ensures v < |Run(init, actions).db.row.steps|
    ensures Run(init, actions).db.world.keys == init.world.keys
            <==> Leaked(init.row.steps, Run(init, actions).log) == {}
                 && Run(init, actions).db.row.steps[v].status != Done
  {
    hide Run, CleanRun, FreshKeys, Leaked, WasMinted, Legal, Apply;
    var log, s := Run(init, actions).log, Run(init, actions).db;
    RunLegal(init, actions);
    CleanOrRolledUp(init, actions);
    assert log[..|log|] == log;
    AccountedAt(init, log, |log|, v);
    var gained := Leaked(init.row.steps, log) + RefKeys(s.row.newRef);
    assert gained == {} <==> Leaked(init.row.steps, log) == {} && s.row.newRef == None;
    if gained != {} {
      var key :| key in gained;
      MintedIsFresh(init, log, |log|, key);
      assert key in s.world.keys;
    } else {
      assert init.world.keys + Enabled({}) == init.world.keys;
    }
  }

  lemma {:induction false} LeakedWasMinted(steps: seq<Step>, log: seq<Event>, key: KeyId)
    requires key in Leaked(steps, log)
    ensures WasMinted(steps, log, key)
    decreases |log|
  {
    if log != [] {
      var before, e := log[..|log| - 1], log[|log| - 1];
      assert log == before + [e];
      MintedMore(steps, before, e, key);
      if Minted(steps, e) != Some(key) {
        LeakedWasMinted(steps, before, key);
      }
    }
  }

  /** The creation at `q` is not followed by a `.done` record. */
  predicate LostAt(steps: seq<Step>, log: seq<Event>, q: nat, key: KeyId) {
    && q < |log| && Minted(steps, log[q]) == Some(key)
    && !(q + 1 < |log| && log[q + 1].StepDone?)
  }

  lemma LostAtMore(steps: seq<Step>, log: seq<Event>, e: Event, q: nat, key: KeyId)
    requires q < |log|
    ensures LostAt(steps, log + [e], q, key) <==> LostAt(steps, log, q, key) && !(q + 1 == |log| && e.StepDone?)
  {
  }

  /** With fresh keys, the leaked keys are those of the creations that no `.done` record follows. */
  lemma {:induction false} LeakedExactly(init: Sys, log: seq<Event>, key: KeyId)
    requires FreshKeys(init, log)
    ensures key in Leaked(init.row.steps, log) <==> exists q :: LostAt(init.row.steps, log, q, key)
    decreases |log|
  {
    if log != [] {
      var steps, before, e := init.row.steps, log[..|log| - 1], log[|log| - 1];
      assert log == before + [e];
      forall q | 0 <= q < |before|
        ensures log[..q] == before[..q]
      {
      }
      LeakedExactly(init, before, key);
      LeakedMore(steps, before, e);
      forall q: nat | q < |before|
        ensures LostAt(steps, log, q, key) <==> LostAt(steps, before, q, key) && !(q + 1 == |before| && e.StepDone?)
      {
        LostAtMore(steps, before, e, q, key);
      }
      assert LostAt(steps, log, |before|, key) <==> Minted(steps, e) == Some(key);
    }
  }
}
