/** The job run_rotation_step and the API handlers, on the rows and the lock they share. */
module Service {
  import opened RotationTypes
  import opened EngineSpec
  import opened Engine
  import Lock
  import opened Machine

  datatype Reply = Accepted | NotFound | Conflict

  /** A job as the machine sees it: finished, crashed, or turned away by the lock. */
  lemma JobActs(c: Config, now: int, o: Oracle)
    requires c.jobs > 0
    ensures var events := AdvanceEvents(c.db.row, now, o);
            && Act(c, LockBusy) == c.(jobs := c.jobs - 1)
            && Act(c, Job(now, o, Finishes)) ==
               Config(Replay(c.db, events), c.jobs - 1 + (if Continues(c.db.row, now, o) then 1 else 0), c.log + events)
            && forall cut, again :: 0 <= cut <= |events| && again >= 0 ==>
                 Act(c, Job(now, o, Crashes(cut, again))).db == Replay(c.db, events[..cut])
  {
    hide AdvanceEvents, Continues;
    assert Replay(c.db, []) == c.db && c.log + [] == c.log;
    hide Replay;
  }

  class RotationService {
    const engine: RotationEngine
    const lock: Lock.RotationLock
    const redis: Lock.Redis
    var queued: nat

    ghost predicate Valid()
      reads this, engine, engine.steps, engine.cloud, engine.store
    {
      engine.Valid() && lock.redis == redis
    }

    ghost function Config(): Config
      reads this, engine, engine.steps, engine.cloud, engine.store
    {
      Machine.Config.Config(engine.Db(), queued, engine.log)
    }

    constructor (row: Row, world: World, redis: Lock.Redis, secret: Lock.SecretId, rotation: Lock.RotationId)
      ensures Valid() && Config() == Machine.Config.Config(Sys(row, world), 0, [])
    {
      var e := new RotationEngine(row, world);
      var l := new Lock.RotationLock(redis, secret, rotation);
      engine, lock, this.redis, queued := e, l, redis, 0;
    }

    lemma Replayed(before: Sys, log: seq<Event>, more: seq<Event>)
      requires engine.Valid() && engine.log == log + more && before == Replay(engine.origin, log)
      ensures engine.Db() == Replay(before, more)
      ensures forall k :: 0 <= k <= |more| ==> engine.states[|log| + k] == Replay(before, more[..k])
    {
      hide Replay, Apply;
      HistoryIsReplay(engine.states, engine.log, |engine.log|);
      assert engine.log[..|engine.log|] == engine.log;
      ReplayAppend(engine.origin, log, more);
      HistoryIsReplay(engine.states, engine.log, |log|);
      assert (log + more)[..|log|] == log;
      forall k | 0 <= k <= |more|
        ensures engine.states[|log| + k] == Replay(before, more[..k])
      {
        CrashPoint(engine.states, log, more, k);
      }
    }

    lemma IsReplay()
      requires engine.Valid()
      ensures engine.Db() == Replay(engine.origin, engine.log)
    {
      hide Replay, Apply;
      HistoryIsReplay(engine.states, engine.log, |engine.log|);
      assert engine.log[..|engine.log|] == engine.log;
    }

    /** One delivered job: it takes the lock, advances the rotation, releases the lock and
        enqueues itself again if the engine asks for it. */
    method RunRotationStep(now: int, o: Oracle) returns (ran: bool)
      requires Valid() && queued > 0
      modifies this, engine, engine.steps, engine.cloud, engine.store, lock, redis`entries
      ensures Valid()
      ensures ran <==> !Lock.Held(old(redis.entries), redis.now, lock.secret)
      ensures !ran ==> Config() == Act(old(Config()), LockBusy) && redis.entries == old(redis.entries)
      ensures !ran ==> queued == old(queued) - 1 && engine.log == old(engine.log) && engine.Row() == old(engine.Row())
      ensures ran ==> Config() == Act(old(Config()), Job(now, o, Finishes))
      ensures ran ==> !Lock.Held(redis.entries, redis.now, lock.secret)
      ensures ran ==> forall cut, again :: 0 <= cut <= |AdvanceEvents(old(engine.Row()), now, o)| && again >= 0 ==>
                engine.states[|old(engine.log)| + cut] == Act(old(Config()), Job(now, o, Crashes(cut, again))).db
    {
      hide Replay, AdvanceEvents, Continues, Act;
      ghost var c := Config();
      IsReplay();
      JobActs(c, now, o);
      queued := queued - 1;
      ran := lock.Acquire();
      if !ran {
        return;
      }
      var result := engine.AdvanceRotation(now, o);
      lock.Release();
      if result.cont {
        queued := queued + 1;
      }
      Replayed(c.db, c.log, AdvanceEvents(c.db.row, now, o));
    }

    method Approve() returns (reply: Reply)
      requires Valid()
      modifies this, engine
      ensures Valid() && Config() == Act(old(Config()), Machine.Approve(true))
      ensures reply == if old(engine.status) == PendingApproval then Accepted else Conflict
      ensures engine.Row() == old(engine.Row())
      ensures queued == old(queued) + if reply == Accepted then 1 else 0
      ensures engine.log == if reply == Accepted then old(engine.log) + [Approved] else old(engine.log)
    {
      ghost var before, log0 := engine.Db(), engine.log;
      IsReplay();
      if engine.status != PendingApproval {
        return Conflict;
      }
      engine.SetRotationStatus(PendingApproval, Approved);
      Replayed(before, log0, [Approved]);
      queued := queued + 1;
      reply := Accepted;
    }

    method Reject() returns (reply: Reply)
      requires Valid()
      modifies engine
      ensures Valid() && Config() == Act(old(Config()), Machine.Reject)
      ensures reply == if old(engine.status) in {PendingApproval, AwaitingConfirmation} then Accepted else Conflict
      ensures engine.status == if reply == Accepted then Rejected else old(engine.status)
      ensures queued == old(queued) && engine.steps[..] == old(engine.steps[..])
      ensures engine.cloud.keys == old(engine.cloud.keys) && engine.store.store == old(engine.store.store)
    {
      ghost var before, log0 := engine.Db(), engine.log;
      IsReplay();
      if engine.status != PendingApproval && engine.status != AwaitingConfirmation {
        return Conflict;
      }
      engine.SetRotationStatus(Rejected, RejectedByUser);
      Replayed(before, log0, [RejectedByUser]);
      reply := Accepted;
    }

    method Confirm(i: nat) returns (reply: Reply)
      requires Valid()
      modifies this, engine, engine.steps
      ensures Valid() && Config() == Act(old(Config()), Machine.Confirm(i, true))
      ensures reply ==
              if old(engine.status) != AwaitingConfirmation then Conflict
              else if i >= engine.steps.Length then NotFound
              else if old(engine.steps[i]).status != Pending then Conflict
              else Accepted
      ensures engine.status == old(engine.status) && queued == old(queued) + if reply == Accepted then 1 else 0
      ensures forall k :: 0 <= k < engine.steps.Length ==>
                engine.steps[k] == if k == i && reply == Accepted then old(engine.steps[k]).(flagged := false)
                                   else old(engine.steps[k])
    {
      ghost var before, log0 := engine.Db(), engine.log;
      IsReplay();
      if engine.status != AwaitingConfirmation {
        return Conflict;
      }
      if i >= engine.steps.Length {
        return NotFound;
      }
      if engine.steps[i].status != Pending {
        return Conflict;
      }
      engine.ConfirmStep(i);
      Replayed(before, log0, [Confirmed(i)]);
      queued := queued + 1;
      reply := Accepted;
    }

    method SimulateFailure() returns (reply: Reply)
      requires Valid()
      modifies engine, engine.steps
      ensures Valid() && Config() == Act(old(Config()), Machine.SimulateFailure)
      ensures reply == if old(engine.status) == PendingApproval then Accepted else NotFound
      ensures engine.status == if reply == Accepted then RolledBack else old(engine.status)
      ensures queued == old(queued) && (reply == NotFound ==> engine.steps[..] == old(engine.steps[..]))
      ensures reply == Accepted ==> forall k :: 0 <= k < engine.steps.Length ==>
                engine.steps[k].status == if k <= 1 then Compensated else if k == 2 then Done
                                          else if k == 3 then StepStatus.Failed else old(engine.steps[k].status)
    {
      ghost var before, log0 := engine.Db(), engine.log;
      IsReplay();
      if engine.status != PendingApproval {
        return NotFound;
      }
      engine.SimulateFailure();
      Replayed(before, log0, [Simulated]);
      reply := Accepted;
    }
  }
}
