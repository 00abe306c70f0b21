/** The cloud and store connectors and the step executors that call them.

    Whether a connector call raises is the caller's `ok` argument: it stands for the
    outside world, and a call that raises changes nothing. */
module Connectors {
  import opened RotationTypes
  import opened EngineSpec

  class CloudConnector {
    var keys: map<KeyId, bool>

    constructor (keys: map<KeyId, bool>)
      ensures this.keys == keys
    {
      this.keys := keys;
    }

    method CreateCredential(answer: Option<KeyId>) returns (r: Option<KeyId>)
      modifies this
      ensures r == answer
      ensures keys == if answer.Some? then old(keys)[answer.value := true] else old(keys)
    {
      if answer.Some? {
        keys := keys[answer.value := true];
      }
      r := answer;
    }

    method DisableCredential(key: KeyId, ok: bool) returns (raised: bool)
      modifies this
      ensures raised == !ok
      ensures keys == if ok then DisableKey(old(keys), key) else old(keys)
    {
      if ok && key in keys {
        keys := keys[key := false];
      }
      raised := !ok;
    }

    method DeleteCredential(key: KeyId, ok: bool) returns (raised: bool)
      modifies this
      ensures raised == !ok
      ensures keys == if ok then old(keys) - {key} else old(keys)
    {
      if ok {
        keys := keys - {key};
      }
      raised := !ok;
    }
  }

  class StoreConnector {
    var store: map<Path, Value>

    constructor (store: map<Path, Value>)
      ensures this.store == store
    {
      this.store := store;
    }

    method WriteNewVersion(path: Path, value: Value, ok: bool) returns (raised: bool)
      modifies this
      ensures raised == !ok
      ensures store == if ok then old(store)[path := value] else old(store)
    {
      if ok {
        store := store[path := value];
      }
      raised := !ok;
    }

    method VerifyStore(path: Path, answer: VerifyReply) returns (r: VerifyReply)
      ensures r == answer
    {
      r := answer;
    }
  }

  datatype StepResult = StepResult(done: bool, ref: Option<SecretRef>)

  /** Dispatches on the step kind; exceptions become a failed result. */
  method ExecuteStep(step: Step, row: Row, cloud: CloudConnector, store: StoreConnector, out: Outcome)
    returns (r: StepResult)
    modifies cloud, store
    ensures World(cloud.keys, store.store) == WorldAfter(step, row, out, old(World(cloud.keys, store.store)))
    ensures r.done <==> StepOk(step, row, out)
    ensures r.done ==> r.ref == RefFrom(step, row, out)
  {
    match step.kind
    case Provision => r := ProvisionKey(row, cloud, store, out);
    case Distribute => r := DistributeSecret(row, store, out);
    case Verify => r := VerifySecret(row, store, out);
    case Revoke => r := RevokeKey(step, cloud, out);
  }

  method ProvisionKey(row: Row, cloud: CloudConnector, store: StoreConnector, out: Outcome)
    returns (r: StepResult)
    modifies cloud, store
    ensures cloud.keys == if out.create.Some? then old(cloud.keys)[out.create.value := true] else old(cloud.keys)
    ensures store.store ==
            if out.create.Some? && row.planPath.Some? && out.writeOk
            then old(store.store)[row.planPath.value := Material(out.create.value)] else old(store.store)
    ensures r.done <==> out.create.Some? && (row.planPath.Some? ==> out.writeOk)
    ensures r.done ==>
              r.ref == if row.planPath.Some? then Some(SecretRef(row.planPath.value, out.create.value)) else None
  {
    var material := cloud.CreateCredential(out.create);
    if material.None? {
      return StepResult(false, None);
    }
    var ref: Option<SecretRef> := None;
    if row.planPath.Some? {
      var path := row.planPath.value;
      var raised := store.WriteNewVersion(path, Material(material.value), out.writeOk);
      if raised {
        return StepResult(false, None);
      }
      ref := Some(SecretRef(path, material.value));
    }
    r := StepResult(true, ref);
  }

  method DistributeSecret(row: Row, store: StoreConnector, out: Outcome) returns (r: StepResult)
    modifies store
    ensures store.store ==
            if row.newRef.Some? && out.writeOk
            then old(store.store)[row.newRef.value.path := Placeholder] else old(store.store)
    ensures r == StepResult(row.newRef.Some? ==> out.writeOk, None)
  {
    var raised := false;
    if row.newRef.Some? {
      raised := store.WriteNewVersion(row.newRef.value.path, Placeholder, out.writeOk);
    }
    r := StepResult(!raised, None);
  }

  method VerifySecret(row: Row, store: StoreConnector, out: Outcome) returns (r: StepResult)
    ensures r == StepResult(row.newRef.Some? ==> out.verify == Passed, None)
  {
    var reply := Passed;
    if row.newRef.Some? {
      reply := store.VerifyStore(row.newRef.value.path, out.verify);
    }
    r := StepResult(reply == Passed, None);
  }

  /** Disable, then delete: a failing delete leaves the key disabled. */
  method RevokeKey(step: Step, cloud: CloudConnector, out: Outcome) returns (r: StepResult)
    modifies cloud
    ensures cloud.keys ==
            if !out.disableOk then old(cloud.keys)
            else if !out.deleteOk then DisableKey(old(cloud.keys), step.keyId)
            else DisableKey(old(cloud.keys), step.keyId) - {step.keyId}
    ensures r == StepResult(out.disableOk && out.deleteOk, None)
  {
    var raised := cloud.DisableCredential(step.keyId, out.disableOk);
    if !raised {
      raised := cloud.DeleteCredential(step.keyId, out.deleteOk);
    }
    r := StepResult(!raised, None);
  }

  method CompensateStep(step: Step, row: Row, cloud: CloudConnector, i: nat, fails: set<nat>)
    returns (ok: bool)
    modifies cloud
    ensures ok <==> UndoOk(step, row, i, fails)
    ensures forall store :: World(cloud.keys, store) == WorldAfterUndo(step, row, ok, World(old(cloud.keys), store))
  {
    ok := true;
    if step.undo == DeleteNewKey && step.kind == Provision {
      if row.newRef.Some? {
        var raised := cloud.DeleteCredential(row.newRef.value.keyId, i !in fails);
        ok := !raised;
      }
    }
  }
}
