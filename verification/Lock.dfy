/** The Redis lock that serialises the engine calls for one secret, as a timed protocol. */
module Lock {
  const LOCK_TTL_MS := 5 * 60 * 1000
  const JOB_TIMEOUT_MS := 300 * 1000

  type SecretId = nat
  type RotationId = nat
  type JobId = nat

  datatype Entry = Entry(owner: RotationId, expires: int)

  // ---- what the server does for SET NX PX and for the compare-and-delete script ----

  /** Redis drops a key once the clock is past its expiry time. */
  predicate Held(entries: map<SecretId, Entry>, now: int, secret: SecretId) {
    secret in entries && now <= entries[secret].expires
  }

  function SetNx(entries: map<SecretId, Entry>, now: int, secret: SecretId, owner: RotationId, ttl: nat)
    : map<SecretId, Entry>
  {
    if Held(entries, now, secret) then entries else entries[secret := Entry(owner, now + ttl)]
  }

  predicate Owns(entries: map<SecretId, Entry>, now: int, secret: SecretId, owner: RotationId) {
    Held(entries, now, secret) && entries[secret].owner == owner
  }

  function CompareAndDelete(entries: map<SecretId, Entry>, now: int, secret: SecretId, owner: RotationId)
    : map<SecretId, Entry>
  {
    if Owns(entries, now, secret, owner) then entries - {secret} else entries
  }

  class Redis {
    var now: int
    var entries: map<SecretId, Entry>

    constructor ()
      ensures now == 0 && entries == map[]
    {
      now, entries := 0, map[];
    }
  }

  /** The context manager around one engine call. */
  class RotationLock {
    const redis: Redis
    const secret: SecretId
    const rotation: RotationId
    var connected: bool

    constructor (redis: Redis, secret: SecretId, rotation: RotationId)
      ensures this.redis == redis && this.secret == secret && this.rotation == rotation && !connected
    {
      this.redis, this.secret, this.rotation, connected := redis, secret, rotation, false;
    }

    method Acquire() returns (acquired: bool)
      modifies this, redis`entries
      ensures connected
      ensures acquired <==> !Held(old(redis.entries), redis.now, secret)
      ensures redis.entries == SetNx(old(redis.entries), redis.now, secret, rotation, LOCK_TTL_MS)
      ensures acquired ==> redis.entries == old(redis.entries)[secret := Entry(rotation, redis.now + 300000)]
      ensures !acquired ==> redis.entries == old(redis.entries)
    {
      connected := true;
      acquired := !Held(redis.entries, redis.now, secret);
      if acquired {
        redis.entries := redis.entries[secret := Entry(rotation, redis.now + LOCK_TTL_MS)];
      }
    }

    method Release()
      modifies this, redis`entries
      ensures !connected
      ensures redis.entries == CompareAndDelete(old(redis.entries), redis.now, secret, rotation)
    {
      if secret in redis.entries && redis.now <= redis.entries[secret].expires {
        if redis.entries[secret].owner == rotation {
          redis.entries := redis.entries - {secret};
        }
      }
      connected := false;
    }
  }

  // ---- many jobs, one clock ----

  // A job waits for the lock, is inside the engine call, has left it but not yet
  // released the lock, or is gone.
  datatype Phase = Waiting | Inside | Leaving | Gone
  datatype Job = Job(secret: SecretId, rotation: RotationId, started: int, phase: Phase)
  datatype State = State(now: int, entries: map<SecretId, Entry>, jobs: map<JobId, Job>)

  // Die: the worker is killed and never releases.
  datatype Action =
    | Tick(ms: nat)
    | Start(j: JobId, secret: SecretId, rotation: RotationId)
    | Acquire(j: JobId)
    | Leave(j: JobId)
    | Release(j: JobId)
    | Die(j: JobId)

  predicate InPhase(s: State, j: JobId, phase: Phase) {
    j in s.jobs && s.jobs[j].phase == phase
  }

  /** Every job is gone by its timeout. */
  predicate Timely(s: State, now: int, timeout: nat) {
    forall j :: j in s.jobs && s.jobs[j].phase != Gone ==> now <= s.jobs[j].started + timeout
  }

  function SetPhase(s: State, j: JobId, phase: Phase): State
    requires j in s.jobs
  {
    s.(jobs := s.jobs[j := s.jobs[j].(phase := phase)])
  }

  /** One step; an action that is not possible changes nothing. A job that does not get
      the lock ends, without releasing. */
  function Next(s: State, a: Action, ttl: nat, timeout: nat): State {
    match a
    case Tick(ms) => if Timely(s, s.now + ms, timeout) then s.(now := s.now + ms) else s
    case Start(j, secret, rotation) =>
      if j in s.jobs then s else s.(jobs := s.jobs[j := Job(secret, rotation, s.now, Waiting)])
    case Acquire(j) =>
      if !InPhase(s, j, Waiting) then s
      else if Held(s.entries, s.now, s.jobs[j].secret) then SetPhase(s, j, Gone)
      else
        SetPhase(s, j, Inside).(entries := SetNx(s.entries, s.now, s.jobs[j].secret, s.jobs[j].rotation, ttl))
    case Leave(j) => if InPhase(s, j, Inside) then SetPhase(s, j, Leaving) else s
    case Release(j) =>
      if InPhase(s, j, Leaving)
      then SetPhase(s, j, Gone).(entries := CompareAndDelete(s.entries, s.now, s.jobs[j].secret, s.jobs[j].rotation))
      else s
    case Die(j) => if j in s.jobs then SetPhase(s, j, Gone) else s
  }

  function Run(actions: seq<Action>, ttl: nat, timeout: nat): State {
    if actions == [] then State(0, map[], map[])
    else Next(Run(actions[..|actions| - 1], ttl, timeout), actions[|actions| - 1], ttl, timeout)
  }

  /** At most one job per secret is inside the engine call. */
  ghost predicate Exclusive(s: State) {
    forall i, j :: InPhase(s, i, Inside) && InPhase(s, j, Inside) && s.jobs[i].secret == s.jobs[j].secret ==> i == j
  }

  predicate Holding(s: State, j: JobId) {
    InPhase(s, j, Inside) || InPhase(s, j, Leaving)
  }

  /** A live job is within its time, and a holder's entry outlives the holder. */
  predicate JobOk(s: State, j: JobId, timeout: nat) {
    j in s.jobs && s.jobs[j].phase != Gone ==>
      && s.jobs[j].started <= s.now <= s.jobs[j].started + timeout
      && (Holding(s, j) ==>
            s.jobs[j].secret in s.entries && s.jobs[j].started + timeout <= s.entries[s.jobs[j].secret].expires)
  }

  predicate Rivals(s: State, i: JobId, j: JobId) {
    i != j && Holding(s, i) && Holding(s, j) && s.jobs[i].secret == s.jobs[j].secret
  }

  ghost predicate Guarded(s: State, timeout: nat) {
    && (forall j: JobId :: JobOk(s, j, timeout))
    && (forall i: JobId, j: JobId :: !Rivals(s, i, j))
  }

  lemma JobOkStep(s: State, a: Action, j: JobId, ttl: nat, timeout: nat)
    requires Guarded(s, timeout) && timeout <= ttl
    ensures JobOk(Next(s, a, ttl, timeout), j, timeout)
  {
    assert JobOk(s, j, timeout);
    if a.Acquire? || a.Release? {
      assert JobOk(s, a.j, timeout) && !Rivals(s, a.j, j);
    }
  }

  lemma RivalsStep(s: State, a: Action, i: JobId, j: JobId, ttl: nat, timeout: nat)
    requires Guarded(s, timeout) && timeout <= ttl
    ensures !Rivals(Next(s, a, ttl, timeout), i, j)
  {
    assert !Rivals(s, i, j) && JobOk(s, i, timeout) && JobOk(s, j, timeout);
  }

  lemma GuardedStep(s: State, a: Action, ttl: nat, timeout: nat)
    requires Guarded(s, timeout) && timeout <= ttl
    ensures Guarded(Next(s, a, ttl, timeout), timeout)
  {
    hide Next, JobOk, Rivals;
    forall j: JobId
      ensures JobOk(Next(s, a, ttl, timeout), j, timeout)
    {
      JobOkStep(s, a, j, ttl, timeout);
    }
    forall i: JobId, j: JobId
      ensures !Rivals(Next(s, a, ttl, timeout), i, j)
    {
      RivalsStep(s, a, i, j, ttl, timeout);
    }
  }

  lemma {:induction false} AlwaysGuarded(actions: seq<Action>, ttl: nat, timeout: nat)
    requires timeout <= ttl
    ensures Guarded(Run(actions, ttl, timeout), timeout)
    decreases |actions|
  {
    hide Next;
    if actions != [] {
      AlwaysGuarded(actions[..|actions| - 1], ttl, timeout);
      GuardedStep(Run(actions[..|actions| - 1], ttl, timeout), actions[|actions| - 1], ttl, timeout);
    }
  }

  lemma ExclusiveWhenTimely(actions: seq<Action>, ttl: nat, timeout: nat)
    requires timeout <= ttl
    ensures Exclusive(Run(actions, ttl, timeout))
  {
    var s := Run(actions, ttl, timeout);
    AlwaysGuarded(actions, ttl, timeout);
    forall i: JobId, j: JobId | InPhase(s, i, Inside) && InPhase(s, j, Inside) && s.jobs[i].secret == s.jobs[j].secret
      ensures i == j
    {
      assert !Rivals(s, i, j);
    }
  }

  lemma {:induction false} RunMore(actions: seq<Action>, a: Action, ttl: nat, timeout: nat)
    ensures Run(actions + [a], ttl, timeout) == Next(Run(actions, ttl, timeout), a, ttl, timeout)
  {
    assert (actions + [a])[..|actions|] == actions;
  }

  /** A job that may outlive its entry can be inside together with its successor, which
      then owns the entry. */
  lemma Overlap(ttl: nat, timeout: nat) returns (actions: seq<Action>)
    requires timeout > ttl
    ensures var s := Run(actions, ttl, timeout);
            && InPhase(s, 0, Inside) && InPhase(s, 1, Inside) && s.jobs[0].secret == s.jobs[1].secret == 0
            && s.jobs[0].rotation == 0 && Owns(s.entries, s.now, 0, 0)
  {
    var a1 := [] + [Start(0, 0, 0)];
    var a2 := a1 + [Acquire(0)];
    var a3 := a2 + [Tick(ttl + 1)];
    var a4 := a3 + [Start(1, 0, 0)];
    actions := a4 + [Acquire(1)];
    RunMore([], Start(0, 0, 0), ttl, timeout);
    RunMore(a1, Acquire(0), ttl, timeout);
    RunMore(a2, Tick(ttl + 1), ttl, timeout);
    RunMore(a3, Start(1, 0, 0), ttl, timeout);
    RunMore(a4, Acquire(1), ttl, timeout);
    hide Run;
    var s2 := Run(a2, ttl, timeout);
    assert s2.entries == map[0 := Entry(0, ttl)] && s2.now == 0;
    OneJobTimely(s2, ttl + 1, timeout);
  }

  lemma OneJobTimely(s: State, now: int, timeout: nat)
    requires s.jobs.Keys == {0} && s.jobs[0].started == 0 && now <= timeout
    ensures Timely(s, now, timeout)
  {
  }

  /** The lock excludes in every interleaving if and only if no job may outlive its entry. */
  lemma ExclusiveIff(ttl: nat, timeout: nat)
    ensures (forall actions: seq<Action> :: Exclusive(Run(actions, ttl, timeout))) <==> timeout <= ttl
  {
    if timeout <= ttl {
      forall actions: seq<Action>
        ensures Exclusive(Run(actions, ttl, timeout))
      {
        ExclusiveWhenTimely(actions, ttl, timeout);
      }
    } else {
      var actions := Overlap(ttl, timeout);
    }
  }

  /** With the lock's own TTL and the worker's job timeout, it does. */
  lemma ConfiguredLockExcludes(actions: seq<Action>)
    ensures Exclusive(Run(actions, LOCK_TTL_MS, JOB_TIMEOUT_MS))
    ensures LOCK_TTL_MS == JOB_TIMEOUT_MS == 300000
  {
    ExclusiveWhenTimely(actions, LOCK_TTL_MS, JOB_TIMEOUT_MS);
  }

  // ---- without any timing assumption ----

  /** An entry that is still held disappears or changes only by the release of a job of the
      rotation that owns it. */
  lemma OnlyOwnerRemoves(s: State, a: Action, secret: SecretId, ttl: nat, timeout: nat)
    requires Held(s.entries, s.now, secret)
    ensures var t := Next(s, a, ttl, timeout);
            (secret in t.entries && t.entries[secret] == s.entries[secret])
            || (a.Release? && InPhase(s, a.j, Leaving) && s.jobs[a.j].secret == secret
                && s.jobs[a.j].rotation == s.entries[secret].owner)
  {
  }

  /** Jobs of one rotation write the same value, so a late release can remove the entry of a
      later job of the same rotation that is still inside. */
  lemma LateReleaseUnlocks(ttl: nat, timeout: nat) returns (actions: seq<Action>)
    requires timeout > ttl
    ensures var s := Run(actions, ttl, timeout); InPhase(s, 1, Inside) && s.jobs[1].secret !in s.entries
  {
    var a := Overlap(ttl, timeout);
    actions := a + [Leave(0)] + [Release(0)];
    RunMore(a, Leave(0), ttl, timeout);
    RunMore(a + [Leave(0)], Release(0), ttl, timeout);
  }

  /** Every job that is inside still has its secret's entry. */
  ghost predicate EntriesKept(s: State) {
    forall j: JobId :: InPhase(s, j, Inside) ==> Held(s.entries, s.now, s.jobs[j].secret)
  }

  /** In every interleaving a job inside keeps the entry if and only if no job may outlive
      its entry. */
  lemma EntryKeptIff(ttl: nat, timeout: nat)
    ensures (forall actions: seq<Action> :: EntriesKept(Run(actions, ttl, timeout))) <==> timeout <= ttl
  {
    hide Run;
    if timeout <= ttl {
      forall actions: seq<Action>
        ensures EntriesKept(Run(actions, ttl, timeout))
      {
        AlwaysGuarded(actions, ttl, timeout);
        GuardedKeeps(Run(actions, ttl, timeout), timeout);
      }
    } else {
      var actions := LateReleaseUnlocks(ttl, timeout);
      assert !EntriesKept(Run(actions, ttl, timeout));
    }
  }

  lemma GuardedKeeps(s: State, timeout: nat)
    requires Guarded(s, timeout)
    ensures EntriesKept(s)
  {
    forall j: JobId | InPhase(s, j, Inside)
      ensures Held(s.entries, s.now, s.jobs[j].secret)
    {
      assert JobOk(s, j, timeout);
    }
  }

  lemma {:induction false} ExpiryBounded(actions: seq<Action>, ttl: nat, timeout: nat, secret: SecretId)
    ensures var s := Run(actions, ttl, timeout); secret in s.entries ==> s.entries[secret].expires <= s.now + ttl
    decreases |actions|
  {
    if actions != [] {
      ExpiryBounded(actions[..|actions| - 1], ttl, timeout, secret);
    }
  }

  /** A dead holder blocks its secret no longer than the TTL: whatever happened, a job that
      asks more than a TTL later, with nobody asking in between, gets inside. */
  lemma DeadHolderExpires(actions: seq<Action>, ttl: nat, timeout: nat, ms: nat, j: JobId)
    requires var s := Run(actions, ttl, timeout); InPhase(s, j, Waiting) && Timely(s, s.now + ms, timeout)
    requires ms > ttl
    ensures InPhase(Run(actions + [Tick(ms)] + [Acquire(j)], ttl, timeout), j, Inside)
  {
    var s := Run(actions, ttl, timeout);
    ExpiryBounded(actions, ttl, timeout, s.jobs[j].secret);
    RunMore(actions, Tick(ms), ttl, timeout);
    RunMore(actions + [Tick(ms)], Acquire(j), ttl, timeout);
  }
}
