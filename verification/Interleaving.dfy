/** The jobs of one rotation, effect by effect, under the timed lock: several calls can be
    under way at once as far as the lock permits. */
module Interleaving {
  import opened RotationTypes
  import opened EngineSpec
  import opened Machine
  import opened Safety
  import opened Recovery
  import opened CrashFree
  import opened Confirmation
  import opened Expiry
  import Lock

  type JobId = Lock.JobId

  // A call under way: the row and the log when it loaded them, and how many of its
  // effects it has done.
  datatype Call = Call(now: int, o: Oracle, db: Sys, log: seq<Event>, done: nat)

  // `unbegun` are the delivered jobs that have not loaded the row yet, `left` those that are
  // between their call and their release, `again` those of them that are going to enqueue
  // themselves again. `clean` records that no call ended while it handled a failure.
  datatype State = State(lock: Lock.State, db: Sys, log: seq<Event>, queued: nat, unbegun: set<JobId>,
                         calls: map<JobId, Call>, left: set<JobId>, again: set<JobId>, clean: bool)

  // `sent` is false when the worker dies between the release and the enqueue; a job that
  // dies, at time `now`, is delivered `redelivered` more times.
  datatype Move =
    | Request(a: Action)
    | Tick(ms: nat)
    | Deliver(j: JobId)
    | Acquire(j: JobId)
    | Begin(j: JobId, now: int, o: Oracle)
    | Effect(j: JobId)
    | Leave(j: JobId)
    | Release(j: JobId, sent: bool)
    | Die(j: JobId, now: int, redelivered: nat)

  function Effects(call: Call): seq<Event> {
    AdvanceEvents(call.db.row, call.now, call.o)
  }

  ghost predicate MidFailure(call: Call) {
    call.done < |Effects(call)| && HandlesFailure(Effects(call)[..call.done])
  }

  predicate IsRequest(a: Action) {
    !a.Job? && !a.LockBusy?
  }

  predicate Inside(s: State, j: JobId) {
    Lock.InPhase(s.lock, j, Lock.Inside)
  }

  /** The action of the lock protocol that a move is. */
  function LockAction(m: Move): Lock.Action
    requires !m.Request? && !m.Begin? && !m.Effect?
  {
    match m
    case Tick(ms) => Lock.Tick(ms)
    case Deliver(j) => Lock.Start(j, 0, 0)
    case Acquire(j) => Lock.Acquire(j)
    case Leave(j) => Lock.Leave(j)
    case Release(j, _) => Lock.Release(j)
    case Die(j, _, _) => Lock.Die(j)
  }

  predicate Possible(s: State, m: Move) {
    match m
    case Request(_) => true
    case Tick(_) => true
    case Deliver(j) => s.queued > 0 && j !in s.lock.jobs
    case Acquire(j) => Lock.InPhase(s.lock, j, Lock.Waiting)
    case Begin(j, _, _) => Inside(s, j) && j in s.unbegun
    case Effect(j) => Inside(s, j) && j in s.calls && s.calls[j].done < |Effects(s.calls[j])|
    case Leave(j) => Inside(s, j) && j in s.calls
    case Release(j, _) => Lock.InPhase(s.lock, j, Lock.Leaving)
    case Die(j, _, _) => j in s.lock.jobs && s.lock.jobs[j].phase != Lock.Gone
  }

  /** What the move does outside the lock; `after` is the lock after it. */
  ghost function Rest(s: State, m: Move, after: Lock.State): State
    requires Possible(s, m)
  {
    match m
    case Request(a) =>
      // An API request is atomic with respect to a call.
      if s.calls != map[] || !IsRequest(a) then s
      else
        var c := Config(s.db, s.queued, s.log);
        s.(db := Act(c, a).db, log := Act(c, a).log, queued := Act(c, a).jobs)
    case Tick(_) => s
    case Deliver(j) => s.(queued := s.queued - 1, unbegun := s.unbegun + {j})
    case Acquire(j) => if Lock.InPhase(after, j, Lock.Inside) then s else s.(unbegun := s.unbegun - {j})
    case Begin(j, now, o) => s.(unbegun := s.unbegun - {j}, calls := s.calls[j := Call(now, o, s.db, s.log, 0)])
    case Effect(j) =>
      var e := Effects(s.calls[j])[s.calls[j].done];
      s.(db := Apply(s.db, e), log := s.log + [e],
         calls := s.calls[j := s.calls[j].(done := s.calls[j].done + 1)])
    case Leave(j) =>
      // The call has returned, or was cancelled or raised before it got that far.
      var call := s.calls[j];
      var returned := call.done == |Effects(call)|;
      s.(calls := s.calls - {j}, left := s.left + {j}, clean := s.clean && !MidFailure(call),
         again := if returned && Continues(call.db.row, call.now, call.o) then s.again + {j} else s.again)
    case Release(j, sent) =>
      s.(left := s.left - {j}, again := s.again - {j},
         queued := if j in s.again && sent then s.queued + 1 else s.queued)
    case Die(j, _, redelivered) =>
      s.(unbegun := s.unbegun - {j}, calls := s.calls - {j}, left := s.left - {j}, again := s.again - {j},
         queued := s.queued + redelivered,
         clean := s.clean && !(j in s.calls && MidFailure(s.calls[j])))
  }

  function LockAfter(lock: Lock.State, m: Move, ttl: nat, timeout: nat): Lock.State {
    if m.Request? || m.Begin? || m.Effect? then lock else Lock.Next(lock, LockAction(m), ttl, timeout)
  }

  /** One move; a move that is not possible changes nothing. */
  ghost function Next(s: State, m: Move, ttl: nat, timeout: nat): State {
    if Possible(s, m)
    then Rest(s, m, LockAfter(s.lock, m, ttl, timeout)).(lock := LockAfter(s.lock, m, ttl, timeout))
    else s
  }

  ghost function Moves(init: Sys, moves: seq<Move>, ttl: nat, timeout: nat): State {
    if moves == [] then State(Lock.State(0, map[], map[]), init, [], 0, {}, map[], {}, {}, true)
    else Next(Moves(init, moves[..|moves| - 1], ttl, timeout), moves[|moves| - 1], ttl, timeout)
  }

  // ---- what the machine can produce ----

  /** A run of the machine with these rows, this log and `n` outstanding jobs, whose jobs all
      run at times that `at` admits. */
  ghost predicate Produces(init: Sys, actions: seq<Action>, at: int -> bool, clean: bool, db: Sys, log: seq<Event>,
                           n: int)
  {
    var c := Run(init, actions);
    && c.db == db && c.log == log && c.jobs == n && (clean ==> CleanRun(init, actions))
    && forall m :: 0 <= m < |actions| && actions[m].Job? ==> at(actions[m].now)
  }

  ghost predicate Produced(init: Sys, at: int -> bool, clean: bool, db: Sys, log: seq<Event>, n: int) {
    exists actions :: Produces(init, actions, at, clean, db, log, n)
  }

  ghost predicate ProducedWith(init: Sys, at: int -> bool, clean: bool, db: Sys, log: seq<Event>, n: int, e: nat) {
    Produced(init, at, clean, db, log, n + e)
  }

  /** While a job is between its call and its release, it is open how many jobs it leaves
      behind: the number of its redeliveries, or one if it enqueues itself again. */
  ghost predicate Supplied(init: Sys, at: int -> bool, clean: bool, db: Sys, log: seq<Event>, open: bool, n: int) {
    if open then forall e: nat :: ProducedWith(init, at, clean, db, log, n, e)
    else Produced(init, at, clean, db, log, n)
  }

  lemma CleanMore(init: Sys, actions: seq<Action>, a: Action)
    requires CleanRun(init, actions) && CleanAct(Run(init, actions), a)
    ensures CleanRun(init, actions + [a])
  {
    hide Run, CleanAct;
    assert (actions + [a])[..|actions|] == actions;
  }

  /** One more action of a run. */
  lemma ProducesMore(init: Sys, actions: seq<Action>, at: int -> bool, clean: bool, a: Action)
    requires clean ==> CleanRun(init, actions) && CleanAct(Run(init, actions), a)
    requires forall m :: 0 <= m < |actions| && actions[m].Job? ==> at(actions[m].now)
    requires a.Job? ==> at(a.now)
    ensures var d := Act(Run(init, actions), a); Produced(init, at, clean, d.db, d.log, d.jobs)
  {
    hide Run, Act, CleanRun, CleanAct;
    RunOneMore(init, actions, a);
    if clean {
      CleanMore(init, actions, a);
    }
    var d := Act(Run(init, actions), a);
    assert Produces(init, actions + [a], at, clean, d.db, d.log, d.jobs);
  }

  /** The crash of a call after `k` effects yields its effects and any number of jobs. */
  lemma CrashProduces(init: Sys, at: int -> bool, clean: bool, db: Sys, log: seq<Event>, need: int,
                      now: int, o: Oracle, k: nat, e: nat)
    requires Produced(init, at, clean, db, log, need) && need > 0 && at(now)
    requires k <= |AdvanceEvents(db.row, now, o)|
    ensures var events := AdvanceEvents(db.row, now, o);
            Produced(init, at, clean && !(k < |events| && HandlesFailure(events[..k])),
                     Replay(db, events[..k]), log + events[..k], need - 1 + e)
  {
    hide Run, AdvanceEvents, Replay, CleanRun, HandlesFailure;
    var actions :| Produces(init, actions, at, clean, db, log, need);
    var c, a, events := Run(init, actions), Job(now, o, Crashes(k, e)), AdvanceEvents(db.row, now, o);
    assert EventsOf(c, a) == events[..k];
    var ok := clean && !(k < |events| && HandlesFailure(events[..k]));
    assert k == |events| ==> events[..k] == events;
    ProducesMore(init, actions, at, ok, a);
  }

  lemma BusyProduces(init: Sys, at: int -> bool, clean: bool, db: Sys, log: seq<Event>, need: int)
    requires Produced(init, at, clean, db, log, need) && need > 0
    ensures Produced(init, at, clean, db, log, need - 1)
  {
    hide Run, CleanRun;
    var actions :| Produces(init, actions, at, clean, db, log, need);
    assert log + [] == log;
    ProducesMore(init, actions, at, clean, LockBusy);
  }

  /** One outstanding job is replaced by `r` of them, without any effect. */
  lemma Replaced(init: Sys, at: int -> bool, clean: bool, db: Sys, log: seq<Event>, need: int, now: int, r: nat)
    requires Produced(init, at, clean, db, log, need) && need > 0 && (r > 0 ==> at(now))
    ensures Produced(init, at, clean, db, log, need - 1 + r)
  {
    if r == 0 {
      BusyProduces(init, at, clean, db, log, need);
    } else {
      var o := Oracle(Outcome(None, false, Raised, false, false), {});
      CrashProduces(init, at, clean, db, log, need, now, o, 0, r);
      hide AdvanceEvents;
      assert AdvanceEvents(db.row, now, o)[..0] == [];
      assert !HandlesFailure([]) by {
        NothingHandled();
      }
      assert Replay(db, []) == db && log + [] == log;
    }
  }

  lemma AllReplaced(init: Sys, at: int -> bool, clean: bool, db: Sys, log: seq<Event>, open: bool, need: int,
                    now: int, r: nat)
    requires Supplied(init, at, clean, db, log, open, need) && need > 0 && (r > 0 ==> at(now))
    ensures Supplied(init, at, clean, db, log, open, need - 1 + r)
  {
    hide Produced;
    if open {
      var rest := need - 1 + r;
      forall e: nat
        ensures ProducedWith(init, at, clean, db, log, rest, e)
      {
        assert ProducedWith(init, at, clean, db, log, need, e);
        Replaced(init, at, clean, db, log, need + e, now, r);
        assert need + e - 1 + r == rest + e;
      }
    } else {
      Replaced(init, at, clean, db, log, need, now, r);
    }
  }

  lemma RequestProduces(init: Sys, at: int -> bool, clean: bool, c: Config, a: Action, n: int)
    requires Produced(init, at, clean, c.db, c.log, n) && IsRequest(a)
    ensures Produced(init, at, clean, Act(c, a).db, Act(c, a).log, n + (Act(c, a).jobs - c.jobs))
  {
    hide Run, Replay, CleanRun;
    var actions :| Produces(init, actions, at, clean, c.db, c.log, n);
    assert EventsOf(Run(init, actions), a) == EventsOf(c, a);
    ProducesMore(init, actions, at, clean, a);
  }

  lemma LessClean(init: Sys, at: int -> bool, clean: bool, less: bool, db: Sys, log: seq<Event>, n: int)
    requires Produced(init, at, clean, db, log, n) && (less ==> clean)
    ensures Produced(init, at, less, db, log, n)
  {
    hide Run, CleanRun;
    var actions :| Produces(init, actions, at, clean, db, log, n);
    assert Produces(init, actions, at, less, db, log, n);
  }

  // ---- the invariant ----

  ghost predicate LockOk(s: State, timeout: nat) {
    && Lock.Guarded(s.lock, timeout)
    && forall j :: j in s.lock.jobs ==> s.lock.jobs[j].secret == 0
  }

  predicate Booked(s: State, j: JobId) {
    && (j in s.calls ==> Inside(s, j) && j !in s.unbegun)
    && (j in s.unbegun ==> Lock.InPhase(s.lock, j, Lock.Waiting) || Inside(s, j))
    && (Lock.InPhase(s.lock, j, Lock.Waiting) ==> j in s.unbegun)
    && (Inside(s, j) ==> j in s.unbegun || j in s.calls)
    && (j in s.left <==> Lock.InPhase(s.lock, j, Lock.Leaving))
    && (j in s.again ==> j in s.left)
  }

  function Waiting(s: State): nat {
    s.queued + |s.unbegun|
  }

  /** The rows and the log are those of the call after its first `done` effects. */
  ghost predicate Progressing(init: Sys, at: int -> bool, s: State, call: Call) {
    var events := Effects(call);
    && call.done <= |events| && at(call.now)
    && s.log == call.log + events[..call.done] && s.db == Replay(call.db, events[..call.done])
    && Supplied(init, at, s.clean, call.db, call.log, false, Waiting(s) + 1)
  }

  ghost predicate Explained(init: Sys, at: int -> bool, s: State) {
    && (s.calls == map[] ==> Supplied(init, at, s.clean, s.db, s.log, s.left != {}, Waiting(s)))
    && forall j :: j in s.calls ==> Progressing(init, at, s, s.calls[j])
  }

  ghost predicate Inv(init: Sys, at: int -> bool, s: State, timeout: nat) {
    LockOk(s, timeout) && (forall j: JobId :: Booked(s, j)) && Explained(init, at, s)
  }

  /** The jobs whose calls are under way or over hold the lock, so there is at most one. */
  lemma OneHolder(s: State, timeout: nat, i: JobId, j: JobId)
    requires LockOk(s, timeout) && Booked(s, i) && Booked(s, j)
    requires i in s.calls || i in s.left || Inside(s, i)
    requires j in s.calls || j in s.left || Inside(s, j)
    ensures i == j
  {
    assert !Lock.Rivals(s.lock, i, j);
  }

  lemma OnlyHolder(s: State, timeout: nat, j: JobId)
    requires LockOk(s, timeout) && (forall i: JobId :: Booked(s, i))
    requires j in s.calls || j in s.left || Inside(s, j)
    ensures s.calls.Keys <= {j} && s.left <= {j}
    ensures j in s.calls ==> s.left == {} && s.calls == map[j := s.calls[j]] && s.calls - {j} == map[]
    ensures j in s.left ==> s.left == {j} && s.calls == map[]
    ensures j in s.unbegun ==> s.calls == map[] && s.left == {}
  {
    hide LockOk, Booked;
    assert Booked(s, j);
    forall i | i in s.calls || i in s.left
      ensures i == j
    {
      assert Booked(s, i);
      OneHolder(s, timeout, i, j);
    }
    BookedApart(s, j);
  }

  lemma BookedApart(s: State, j: JobId)
    requires Booked(s, j)
    ensures j in s.calls ==> j !in s.left && j !in s.unbegun
    ensures j in s.left ==> j !in s.unbegun
  {
  }

  lemma LockOkStep(s: State, m: Move, ttl: nat, timeout: nat)
    requires LockOk(s, timeout) && timeout <= ttl
    ensures LockOk(Next(s, m, ttl, timeout), timeout)
  {
    hide Lock.Guarded, Rest;
    if !(m.Request? || m.Begin? || m.Effect?) {
      Lock.GuardedStep(s.lock, LockAction(m), ttl, timeout);
    }
  }

  lemma BookedStep(s: State, m: Move, j: JobId, ttl: nat, timeout: nat)
    requires Booked(s, j)
    ensures Booked(Next(s, m, ttl, timeout), j)
  {
    hide MidFailure, Act, AdvanceEvents, Apply, Continues, Lock.Timely;
  }

  // ---- each move keeps the explanation ----

  lemma RequestExplained(init: Sys, at: int -> bool, s: State, a: Action)
    requires Explained(init, at, s) && Possible(s, Request(a))
    ensures Explained(init, at, Rest(s, Request(a), s.lock))
  {
    hide Act, Produced;
    if s.calls == map[] && IsRequest(a) {
      var c := Config(s.db, s.queued, s.log);
      var t := Rest(s, Request(a), s.lock);
      if s.left != {} {
        forall e: nat
          ensures ProducedWith(init, at, s.clean, t.db, t.log, Waiting(t), e)
        {
          assert ProducedWith(init, at, s.clean, s.db, s.log, Waiting(s), e);
          RequestProduces(init, at, s.clean, c, a, Waiting(s) + e);
        }
      } else {
        RequestProduces(init, at, s.clean, c, a, Waiting(s));
      }
    }
  }

  /** A job that has not begun is replaced by `r` deliveries. */
  lemma ReplacedExplained(init: Sys, at: int -> bool, s: State, t: State, now: int, r: nat)
    requires Explained(init, at, s) && Waiting(s) > 0 && (r > 0 ==> at(now))
    requires s.calls == t.calls && s.left == t.left && s.db == t.db && s.log == t.log && s.clean == t.clean
    requires Waiting(t) == Waiting(s) - 1 + r
    ensures Explained(init, at, t)
  {
    hide Supplied, Effects, Progressing, Waiting;
    forall j | j in t.calls
      ensures Progressing(init, at, t, t.calls[j])
    {
      InProgress(init, at, s, j);
      ReplacedProgressing(init, at, s, t, s.calls[j], now, r);
    }
    if t.calls == map[] {
      AllReplaced(init, at, s.clean, s.db, s.log, s.left != {}, Waiting(s), now, r);
    }
  }

  lemma ReplacedProgressing(init: Sys, at: int -> bool, s: State, t: State, call: Call, now: int, r: nat)
    requires Progressing(init, at, s, call) && Waiting(s) > 0 && (r > 0 ==> at(now))
    requires s.db == t.db && s.log == t.log && s.clean == t.clean && Waiting(t) == Waiting(s) - 1 + r
    ensures Progressing(init, at, t, call)
  {
    hide Supplied, Effects, Replay, Waiting;
    AllReplaced(init, at, s.clean, call.db, call.log, false, Waiting(s) + 1, now, r);
    assert Waiting(s) + 1 - 1 + r == Waiting(t) + 1;
  }

  lemma SameWaitingExplained(init: Sys, at: int -> bool, s: State, t: State)
    requires Explained(init, at, s)
    requires s.calls == t.calls && s.left == t.left && s.db == t.db && s.log == t.log && s.clean == t.clean
    requires Waiting(t) == Waiting(s)
    ensures Explained(init, at, t)
  {
    hide Supplied, Effects, Waiting;
    forall j | j in t.calls
      ensures Progressing(init, at, t, t.calls[j])
    {
      InProgress(init, at, s, j);
    }
  }

  lemma DeliverExplained(init: Sys, at: int -> bool, s: State, j: JobId)
    requires Explained(init, at, s) && Possible(s, Deliver(j)) && Booked(s, j)
    ensures Explained(init, at, Rest(s, Deliver(j), s.lock))
  {
    hide Explained;
    var t := Rest(s, Deliver(j), s.lock);
    assert j !in s.unbegun;
    assert |t.unbegun| == |s.unbegun| + 1;
    SameWaitingExplained(init, at, s, t);
  }

  lemma OneFewer(jobs: set<JobId>, j: JobId)
    requires j in jobs
    ensures |jobs - {j}| == |jobs| - 1
  {
  }

  lemma AcquireExplained(init: Sys, at: int -> bool, s: State, j: JobId, after: Lock.State)
    requires Explained(init, at, s) && Possible(s, Acquire(j)) && Booked(s, j)
    ensures Explained(init, at, Rest(s, Acquire(j), after))
  {
    hide Explained;
    var t := Rest(s, Acquire(j), after);
    if t != s {
      assert |t.unbegun| == |s.unbegun| - 1;
      ReplacedExplained(init, at, s, t, 0, 0);
    }
  }

  lemma BetweenCalls(init: Sys, at: int -> bool, s: State)
    requires Explained(init, at, s) && s.calls == map[] && s.left == {}
    ensures Supplied(init, at, s.clean, s.db, s.log, false, Waiting(s))
  {
    hide Supplied;
  }

  lemma Loaded(s: State, j: JobId, now: int, o: Oracle)
    requires Possible(s, Begin(j, now, o)) && s.calls == map[]
    ensures var t := Rest(s, Begin(j, now, o), s.lock);
            && t.calls == map[j := Call(now, o, s.db, s.log, 0)] && Waiting(t) + 1 == Waiting(s)
            && t.db == s.db && t.log == s.log && t.clean == s.clean
  {
    OneFewer(s.unbegun, j);
  }

  lemma JustBegun(init: Sys, at: int -> bool, t: State, call: Call)
    requires call.done == 0 && call.db == t.db && call.log == t.log && at(call.now)
    requires Supplied(init, at, t.clean, t.db, t.log, false, Waiting(t) + 1)
    ensures Progressing(init, at, t, call)
  {
    hide Supplied, AdvanceEvents;
    assert Effects(call)[..0] == [] && Replay(t.db, []) == t.db && t.log + [] == t.log;
  }

  lemma BeginExplained(init: Sys, at: int -> bool, s: State, j: JobId, now: int, o: Oracle, timeout: nat)
    requires Inv(init, at, s, timeout) && Possible(s, Begin(j, now, o)) && at(now)
    ensures Explained(init, at, Rest(s, Begin(j, now, o), s.lock))
  {
    hide Supplied, LockOk, Booked, Explained, Rest, Progressing, Waiting;
    OnlyHolder(s, timeout, j);
    BetweenCalls(init, at, s);
    Loaded(s, j, now, o);
    var t := Rest(s, Begin(j, now, o), s.lock);
    JustBegun(init, at, t, t.calls[j]);
    OneExplained(init, at, t, j);
  }

  lemma EffectExplained(init: Sys, at: int -> bool, s: State, j: JobId, timeout: nat)
    requires Inv(init, at, s, timeout) && Possible(s, Effect(j))
    ensures Explained(init, at, Rest(s, Effect(j), s.lock))
  {
    hide Supplied, Effects, Apply, LockOk, Booked, Explained;
    OnlyHolder(s, timeout, j);
    InProgress(init, at, s, j);
    var call := s.calls[j];
    var events, k := Effects(call), call.done;
    assert events[..k + 1] == events[..k] + [events[k]];
    assert events[..k + 1][..k] == events[..k];
    var t := Rest(s, Effect(j), s.lock);
    SameEffects(call, k + 1);
    OneExplained(init, at, t, j);
  }

  lemma OneExplained(init: Sys, at: int -> bool, s: State, j: JobId)
    requires s.calls.Keys == {j} && Progressing(init, at, s, s.calls[j])
    ensures Explained(init, at, s)
  {
    hide Progressing;
    assert j in s.calls;
  }

  lemma SameEffects(call: Call, k: nat)
    ensures Effects(call.(done := k)) == Effects(call)
  {
  }

  lemma InProgress(init: Sys, at: int -> bool, s: State, j: JobId)
    requires Explained(init, at, s) && j in s.calls
    ensures Progressing(init, at, s, s.calls[j])
  {
  }

  /** A call that ends, or dies, is one job of the machine that crashed after its effects. */
  lemma CallEnds(init: Sys, at: int -> bool, s: State, call: Call, clean: bool, e: nat)
    requires Progressing(init, at, s, call) && (clean ==> s.clean && !MidFailure(call))
    ensures Produced(init, at, clean, s.db, s.log, Waiting(s) + e)
  {
    hide Produced, HandlesFailure, AdvanceEvents, Replay;
    CrashProduces(init, at, s.clean, call.db, call.log, Waiting(s) + 1, call.now, call.o, call.done, e);
    LessClean(init, at, s.clean && !MidFailure(call), clean, s.db, s.log, Waiting(s) + e);
  }

  lemma LeaveExplained(init: Sys, at: int -> bool, s: State, j: JobId, timeout: nat)
    requires Inv(init, at, s, timeout) && Possible(s, Leave(j))
    ensures Explained(init, at, Rest(s, Leave(j), s.lock))
  {
    hide LockOk, Booked, Continues, Effects, Progressing, Produced;
    OnlyHolder(s, timeout, j);
    InProgress(init, at, s, j);
    var t := Rest(s, Leave(j), s.lock);
    forall e: nat
      ensures ProducedWith(init, at, t.clean, t.db, t.log, Waiting(t), e)
    {
      CallEnds(init, at, s, s.calls[j], t.clean, e);
    }
    assert t.left != {} by {
      assert j in t.left;
    }
  }

  /** A job that leaves `e` jobs behind after its call. */
  lemma LeftEnds(init: Sys, at: int -> bool, s: State, t: State, e: nat)
    requires Explained(init, at, s) && s.calls == t.calls == map[] && s.left != {} && t.left == {}
    requires t.db == s.db && t.log == s.log && t.clean == s.clean && Waiting(t) == Waiting(s) + e
    ensures Explained(init, at, t)
  {
    hide Produced, Waiting;
    assert ProducedWith(init, at, s.clean, s.db, s.log, Waiting(s), e);
  }

  lemma ReleaseExplained(init: Sys, at: int -> bool, s: State, j: JobId, sent: bool, timeout: nat)
    requires Inv(init, at, s, timeout) && Possible(s, Release(j, sent))
    ensures Explained(init, at, Rest(s, Release(j, sent), s.lock))
  {
    assert Booked(s, j);
    hide LockOk, Booked, Explained;
    OnlyHolder(s, timeout, j);
    LeftEnds(init, at, s, Rest(s, Release(j, sent), s.lock), if j in s.again && sent then 1 else 0);
  }

  lemma DieExplained(init: Sys, at: int -> bool, s: State, j: JobId, now: int, redelivered: nat, timeout: nat)
    requires Inv(init, at, s, timeout) && Possible(s, Die(j, now, redelivered)) && at(now)
    ensures Explained(init, at, Rest(s, Die(j, now, redelivered), s.lock))
  {
    assert Booked(s, j);
    hide LockOk, Explained, MidFailure;
    if j in s.unbegun {
      UnbegunDies(init, at, s, j, now, redelivered);
    } else {
      OnlyHolder(s, timeout, j);
      hide Booked;
      if j in s.calls {
        CallDies(init, at, s, j, now, redelivered);
      } else {
        LeftEnds(init, at, s, Rest(s, Die(j, now, redelivered), s.lock), redelivered) by {
          assert s.unbegun - {j} == s.unbegun;
        }
      }
    }
  }

  lemma UnbegunDies(init: Sys, at: int -> bool, s: State, j: JobId, now: int, redelivered: nat)
    requires Explained(init, at, s) && Possible(s, Die(j, now, redelivered)) && at(now)
    requires j in s.unbegun && Booked(s, j)
    ensures Explained(init, at, Rest(s, Die(j, now, redelivered), s.lock))
  {
    BookedApart(s, j);
    hide Explained, Booked, Rest, Waiting;
    UnbegunDead(s, j, now, redelivered);
    ReplacedExplained(init, at, s, Rest(s, Die(j, now, redelivered), s.lock), now, redelivered);
  }

  lemma UnbegunDead(s: State, j: JobId, now: int, redelivered: nat)
    requires Possible(s, Die(j, now, redelivered)) && j in s.unbegun && j !in s.calls && j !in s.left
    ensures var t := Rest(s, Die(j, now, redelivered), s.lock);
            && s.calls == t.calls && s.left == t.left && s.db == t.db && s.log == t.log && s.clean == t.clean
            && Waiting(s) > 0 && Waiting(t) == Waiting(s) - 1 + redelivered
  {
    hide MidFailure, Effects, Act;
    OneFewer(s.unbegun, j);
  }

  lemma CallDies(init: Sys, at: int -> bool, s: State, j: JobId, now: int, redelivered: nat)
    requires Explained(init, at, s) && Possible(s, Die(j, now, redelivered)) && j in s.calls
    requires s.left == {} && s.calls - {j} == map[] && j !in s.unbegun
    ensures Explained(init, at, Rest(s, Die(j, now, redelivered), s.lock))
  {
    hide MidFailure, Progressing, Produced;
    var t := Rest(s, Die(j, now, redelivered), s.lock);
    InProgress(init, at, s, j);
    assert t.unbegun == s.unbegun && t.left == {};
    CallEnds(init, at, s, s.calls[j], t.clean, redelivered);
    assert Waiting(t) == Waiting(s) + redelivered;
  }

  /** When the move happens, as far as the machine's jobs see it. */
  predicate TimeOk(m: Move, at: int -> bool) {
    match m
    case Begin(_, now, _) => at(now)
    case Die(_, now, _) => at(now)
    case _ => true
  }

  lemma ExplainedStep(init: Sys, at: int -> bool, s: State, m: Move, after: Lock.State, timeout: nat)
    requires Inv(init, at, s, timeout) && Possible(s, m) && TimeOk(m, at)
    ensures Explained(init, at, Rest(s, m, after))
  {
    hide Explained, LockOk, Effects, MidFailure, Booked;
    match m
    case Request(a) => RequestExplained(init, at, s, a);
    case Tick(_) =>
    case Deliver(j) => DeliverExplained(init, at, s, j);
    case Acquire(j) => AcquireExplained(init, at, s, j, after);
    case Begin(j, now, o) => BeginExplained(init, at, s, j, now, o, timeout);
    case Effect(j) => EffectExplained(init, at, s, j, timeout);
    case Leave(j) => LeaveExplained(init, at, s, j, timeout);
    case Release(j, sent) => ReleaseExplained(init, at, s, j, sent, timeout);
    case Die(j, now, redelivered) => DieExplained(init, at, s, j, now, redelivered, timeout);
  }

  lemma InvStep(init: Sys, at: int -> bool, s: State, m: Move, ttl: nat, timeout: nat)
    requires Inv(init, at, s, timeout) && timeout <= ttl && TimeOk(m, at)
    ensures Inv(init, at, Next(s, m, ttl, timeout), timeout)
  {
    LockOkStep(s, m, ttl, timeout);
    forall j: JobId
      ensures Booked(Next(s, m, ttl, timeout), j)
    {
      BookedStep(s, m, j, ttl, timeout);
    }
    if Possible(s, m) {
      var after := LockAfter(s.lock, m, ttl, timeout);
      ExplainedStep(init, at, s, m, after, timeout);
      SameWaitingExplained(init, at, Rest(s, m, after), Rest(s, m, after).(lock := after));
    }
    hide LockOk, Booked, Explained, Rest, LockAfter, Possible;
  }

  lemma InvInitially(init: Sys, at: int -> bool, timeout: nat)
    ensures Inv(init, at, State(Lock.State(0, map[], map[]), init, [], 0, {}, map[], {}, {}, true), timeout)
  {
    RunEmpty(init);
    assert CleanRun(init, []);
    assert Produces(init, [], at, true, init, [], 0);
  }

  predicate TimesOk(moves: seq<Move>, at: int -> bool) {
    forall k :: 0 <= k < |moves| ==> TimeOk(moves[k], at)
  }

  lemma {:induction false} AlwaysInv(init: Sys, at: int -> bool, moves: seq<Move>, ttl: nat, timeout: nat)
    requires timeout <= ttl && TimesOk(moves, at)
    ensures Inv(init, at, Moves(init, moves, ttl, timeout), timeout)
    decreases |moves|
  {
    hide Inv, Next, TimeOk;
    if moves == [] {
      InvInitially(init, at, timeout);
    } else {
      AlwaysInv(init, at, moves[..|moves| - 1], ttl, timeout);
      InvStep(init, at, Moves(init, moves[..|moves| - 1], ttl, timeout), moves[|moves| - 1], ttl, timeout);
    }
  }

  /** A call under way counts as a job that crashes where it is and leaves none behind. */
  function Outstanding(s: State): nat {
    s.queued + |s.unbegun| + |s.again|
  }

  lemma Explains(init: Sys, at: int -> bool, s: State, timeout: nat) returns (actions: seq<Action>)
    requires Inv(init, at, s, timeout)
    ensures Produces(init, actions, at, s.clean && s.calls == map[], s.db, s.log, Outstanding(s))
  {
    hide Run, CleanRun, Effects, Progressing, Booked, LockOk;
    if s.calls == map[] {
      AgainSmall(s, timeout);
      if s.left != {} {
        assert ProducedWith(init, at, s.clean, s.db, s.log, Waiting(s), |s.again|);
      }
      actions :| Produces(init, actions, at, s.clean, s.db, s.log, Outstanding(s));
    } else {
      var j :| j in s.calls;
      OnlyHolder(s, timeout, j);
      AgainSmall(s, timeout);
      InProgress(init, at, s, j);
      CallEnds(init, at, s, s.calls[j], false, 0);
      actions :| Produces(init, actions, at, false, s.db, s.log, Waiting(s));
    }
  }

  lemma AgainSmall(s: State, timeout: nat)
    requires LockOk(s, timeout) && forall j: JobId :: Booked(s, j)
    ensures s.left == {} ==> s.again == {}
  {
    hide LockOk;
    forall j | j in s.again
      ensures j in s.left
    {
      assert Booked(s, j);
    }
  }

  /** Serializability: if no job may outlive its lock entry, then every interleaving of lock
      operations, single effects of calls, deaths and requests leaves the rows, the log and
      the outstanding jobs of some run in which each call is one action, at a time when some
      call began or some job died. Between calls, that run is clean if no call ended while it
      handled a failure. */
  lemma Serializable(init: Sys, at: int -> bool, moves: seq<Move>, ttl: nat, timeout: nat)
    returns (actions: seq<Action>)
    requires timeout <= ttl && TimesOk(moves, at)
    ensures var s, c := Moves(init, moves, ttl, timeout), Run(init, actions);
            && c.db == s.db && c.log == s.log && c.jobs == Outstanding(s)
            && (s.clean && s.calls == map[] ==> CleanRun(init, actions))
    ensures forall m :: 0 <= m < |actions| && actions[m].Job? ==> at(actions[m].now)
  {
    hide Moves, Run, CleanRun, Inv;
    AlwaysInv(init, at, moves, ttl, timeout);
    actions := Explains(init, at, Moves(init, moves, ttl, timeout), timeout);
  }

  predicate AnyTime(now: int) {
    true
  }

  /** So what holds of every run holds of every interleaving, for example: */
  lemma InterleavedVerifyBeforeRevoke(init: Sys, moves: seq<Move>, ttl: nat, timeout: nat, p: nat, v: nat)
    requires timeout <= ttl && Initial(init) && v < |init.row.steps| && init.row.steps[v].kind == Verify
    requires var log := Moves(init, moves, ttl, timeout).log;
             && p < |log| && log[p].Executed? && log[p].i < |init.row.steps|
             && init.row.steps[log[p].i].kind == Revoke
    ensures SucceededBefore(init, Moves(init, moves, ttl, timeout).log, p, v)
    ensures PassedBefore(init, Moves(init, moves, ttl, timeout).log, p, v)
  {
    hide Moves, Run;
    var actions := Serializable(init, AnyTime, moves, ttl, timeout);
    VerifyBeforeRevoke(init, actions, p, v);
  }

  /** In particular, when all calls begin after the expiry, the run has late jobs only, and
      the exact condition for executing nothing applies to it. */
  lemma InterleavedExpiry(init: Sys, moves: seq<Move>, ttl: nat, timeout: nat) returns (actions: seq<Action>)
    requires timeout <= ttl && TimesOk(moves, now => Expired(init.row, now))
    ensures Run(init, actions).log == Moves(init, moves, ttl, timeout).log && LateJobs(init, actions)
    ensures NothingRan(Moves(init, moves, ttl, timeout).log) <==> Throughout(Idle, init, actions)
  {
    hide Moves, Run, NothingRan, TimeOk, Idle;
    actions := Serializable(init, now => Expired(init.row, now), moves, ttl, timeout);
    ExpiredRunsNothingIff(init, actions);
  }

  // ---- with a longer timeout ----

  lemma MovesMore(init: Sys, moves: seq<Move>, m: Move, ttl: nat, timeout: nat)
    ensures Moves(init, moves + [m], ttl, timeout) == Next(Moves(init, moves, ttl, timeout), m, ttl, timeout)
  {
    hide Next;
    assert (moves + [m])[..|moves|] == moves;
  }

  ghost function NextAll(s: State, moves: seq<Move>, ttl: nat, timeout: nat): State {
    if moves == [] then s
    else Next(NextAll(s, moves[..|moves| - 1], ttl, timeout), moves[|moves| - 1], ttl, timeout)
  }

  lemma NextThree(s: State, a: Move, b: Move, c: Move, ttl: nat, timeout: nat)
    ensures NextAll(s, [a, b, c], ttl, timeout) ==
            Next(Next(Next(s, a, ttl, timeout), b, ttl, timeout), c, ttl, timeout)
  {
    hide Next;
    assert [a, b, c][..2] == [a, b] && [a, b][..1] == [a] && [a][..0] == [];
    assert NextAll(s, [], ttl, timeout) == s;
    assert NextAll(s, [a], ttl, timeout) == Next(s, a, ttl, timeout);
    assert NextAll(s, [a, b], ttl, timeout) == Next(Next(s, a, ttl, timeout), b, ttl, timeout);
  }

  lemma {:induction false} MovesConcat(init: Sys, a: seq<Move>, b: seq<Move>, ttl: nat, timeout: nat)
    ensures Moves(init, a + b, ttl, timeout) == NextAll(Moves(init, a, ttl, timeout), b, ttl, timeout)
    decreases |b|
  {
    hide Next;
    if b == [] {
      assert a + b == a;
    } else {
      MovesConcat(init, a, b[..|b| - 1], ttl, timeout);
      assert (a + b)[..|a + b| - 1] == a + b[..|b| - 1];
    }
  }

  // Two approvals have left two jobs behind.
  function Approved2(init: Sys): State {
    State(Lock.State(0, map[], map[]), init, [Approved, Approved], 2, {}, map[], {}, {}, true)
  }

  lemma TwoApprovals(init: Sys, ttl: nat, timeout: nat)
    requires Initial(init)
    ensures var r := Request(Approve(true)); Moves(init, [r, r], ttl, timeout) == Approved2(init)
  {
    var r := Request(Approve(true));
    MovesMore(init, [], r, ttl, timeout);
    MovesMore(init, [r], r, ttl, timeout);
    assert [] + [r] == [r] && [r] + [r] == [r, r];
    ApproveInitial(init);
    ApproveAgain(init);
    hide Act;
    assert Moves(init, [], ttl, timeout).calls == map[];
  }

  lemma FirstBegins(init: Sys, now: int, o: Oracle, ttl: nat, timeout: nat)
    ensures var s := NextAll(Approved2(init), [Deliver(0), Acquire(0), Begin(0, now, o)], ttl, timeout);
            && s.lock == Lock.State(0, map[0 := Lock.Entry(0, ttl)], map[0 := Lock.Job(0, 0, 0, Lock.Inside)])
            && s.db == init && s.log == [Approved, Approved] && s.queued == 1 && s.unbegun == {}
            && s.calls == map[0 := Call(now, o, init, [Approved, Approved], 0)]
  {
    NextThree(Approved2(init), Deliver(0), Acquire(0), Begin(0, now, o), ttl, timeout);
    var s1 := Next(Approved2(init), Deliver(0), ttl, timeout);
    assert s1.lock == Lock.State(0, map[], map[0 := Lock.Job(0, 0, 0, Lock.Waiting)]);
    var s2 := Next(s1, Acquire(0), ttl, timeout);
    assert s2.lock == Lock.State(0, map[0 := Lock.Entry(0, ttl)], map[0 := Lock.Job(0, 0, 0, Lock.Inside)]);
  }

  /** The second job gets in when the first one's entry has expired. */
  lemma SecondBegins(s: State, now: int, o: Oracle, ttl: nat, timeout: nat)
    requires timeout > ttl && s.queued == 1 && s.unbegun == {}
    requires s.lock == Lock.State(0, map[0 := Lock.Entry(0, ttl)], map[0 := Lock.Job(0, 0, 0, Lock.Inside)])
    ensures var late := Next(s, Tick(ttl + 1), ttl, timeout);
            var t := NextAll(late, [Deliver(1), Acquire(1), Begin(1, now, o)], ttl, timeout);
            && Inside(t, 0) && Inside(t, 1) && t.db == s.db && t.log == s.log
            && t.calls == s.calls[1 := Call(now, o, s.db, s.log, 0)]
  {
    var s0 := Next(s, Tick(ttl + 1), ttl, timeout);
    TimePasses(s, ttl, timeout);
    NextThree(s0, Deliver(1), Acquire(1), Begin(1, now, o), ttl, timeout);
    var s1 := Next(s0, Deliver(1), ttl, timeout);
    assert s1 == s0.(lock := s0.lock.(jobs := s0.lock.jobs[1 := Lock.Job(0, 0, ttl + 1, Lock.Waiting)]),
                     queued := 0, unbegun := {1});
    SecondAcquires(s1, now, o, ttl, timeout);
  }

  lemma TimePasses(s: State, ttl: nat, timeout: nat)
    requires timeout > ttl && s.lock.now == 0
    requires s.lock.jobs.Keys == {0} && s.lock.jobs[0].started == 0
    ensures Next(s, Tick(ttl + 1), ttl, timeout) == s.(lock := s.lock.(now := ttl + 1))
  {
    Lock.OneJobTimely(s.lock, ttl + 1, timeout);
    hide Lock.Timely;
  }

  lemma SecondAcquires(s: State, now: int, o: Oracle, ttl: nat, timeout: nat)
    requires s.lock.now == ttl + 1 && s.lock.entries == map[0 := Lock.Entry(0, ttl)] && 1 in s.unbegun
    requires s.lock.jobs == map[0 := Lock.Job(0, 0, 0, Lock.Inside), 1 := Lock.Job(0, 0, ttl + 1, Lock.Waiting)]
    ensures var t := Next(Next(s, Acquire(1), ttl, timeout), Begin(1, now, o), ttl, timeout);
            && Inside(t, 0) && Inside(t, 1) && t.db == s.db && t.log == s.log
            && t.calls == s.calls[1 := Call(now, o, s.db, s.log, 0)]
  {
    var s2 := Next(s, Acquire(1), ttl, timeout);
    assert Inside(s2, 0) && Inside(s2, 1);
  }

  lemma OneEffect(s: State, j: JobId, ttl: nat, timeout: nat)
    requires Inside(s, j) && j in s.calls && s.calls[j].done < |Effects(s.calls[j])|
    ensures var t, call := Next(s, Effect(j), ttl, timeout), s.calls[j];
            && t.lock == s.lock && t.log == s.log + [Effects(call)[call.done]]
            && t.calls == s.calls[j := call.(done := call.done + 1)]
  {
    hide AdvanceEvents, Apply;
  }

  lemma ThreeEffects(s: State, j: JobId, ttl: nat, timeout: nat)
    requires Inside(s, j) && j in s.calls && s.calls[j].done == 0 && |Effects(s.calls[j])| >= 3
    ensures var t := NextAll(s, [Effect(j), Effect(j), Effect(j)], ttl, timeout);
            && t.lock == s.lock && t.log == s.log + Effects(s.calls[j])[..3]
            && forall i :: i in s.calls && i != j ==> i in t.calls && t.calls[i] == s.calls[i]
  {
    hide Next, AdvanceEvents;
    var s1 := Next(s, Effect(j), ttl, timeout);
    var s2 := Next(s1, Effect(j), ttl, timeout);
    NextThree(s, Effect(j), Effect(j), Effect(j), ttl, timeout);
    OneEffect(s, j, ttl, timeout);
    SameEffects(s.calls[j], 1);
    OneEffect(s1, j, ttl, timeout);
    SameEffects(s.calls[j], 2);
    OneEffect(s2, j, ttl, timeout);
    var events := Effects(s.calls[j]);
    assert events[..3] == [events[0]] + [events[1]] + [events[2]];
  }

  lemma FirstStepEvents(init: Sys, now: int, o: Oracle)
    requires PlainFirst(init) && !Expired(init.row, now) && StepOk(init.row.steps[0], init.row, o.exec)
    ensures var events := AdvanceEvents(init.row, now, o); |events| >= 3 && IsStepDone(events[2], 0)
  {
    FirstPendingIs(init.row.steps, 0);
    assert AdvanceEvents(init.row, now, o) == RunEvents(init.row, 0, o);
    hide AdvanceEvents;
  }

  /** Two calls of one rotation, both under way, that both record step 0 as done. */
  lemma DoneTwice(init: Sys, now: int, o: Oracle, ttl: nat, timeout: nat) returns (moves: seq<Move>)
    requires timeout > ttl
    requires PlainFirst(init) && !Expired(init.row, now) && StepOk(init.row.steps[0], init.row, o.exec)
    ensures var log := Moves(init, moves, ttl, timeout).log;
            |log| == 8 && IsStepDone(log[4], 0) && IsStepDone(log[7], 0)
  {
    hide Next, NextAll, Moves, AdvanceEvents;
    var r := Request(Approve(true));
    var m1 := [r, r] + [Deliver(0), Acquire(0), Begin(0, now, o)];
    TwoApprovals(init, ttl, timeout);
    MovesConcat(init, [r, r], [Deliver(0), Acquire(0), Begin(0, now, o)], ttl, timeout);
    FirstBegins(init, now, o, ttl, timeout);
    var s1 := Moves(init, m1, ttl, timeout);
    var m2 := m1 + [Tick(ttl + 1)];
    var m3 := m2 + [Deliver(1), Acquire(1), Begin(1, now, o)];
    MovesMore(init, m1, Tick(ttl + 1), ttl, timeout);
    MovesConcat(init, m2, [Deliver(1), Acquire(1), Begin(1, now, o)], ttl, timeout);
    SecondBegins(s1, now, o, ttl, timeout);
    var s3 := Moves(init, m3, ttl, timeout);
    FirstStepEvents(init, now, o);
    var m4 := m3 + [Effect(0), Effect(0), Effect(0)];
    MovesConcat(init, m3, [Effect(0), Effect(0), Effect(0)], ttl, timeout);
    ThreeEffects(s3, 0, ttl, timeout);
    moves := m4 + [Effect(1), Effect(1), Effect(1)];
    MovesConcat(init, m4, [Effect(1), Effect(1), Effect(1)], ttl, timeout);
    ThreeEffects(Moves(init, m4, ttl, timeout), 1, ttl, timeout);
  }

  /** Some run, in which each call is one action, has this log. */
  ghost predicate Serial(init: Sys, log: seq<Event>) {
    exists actions :: Run(init, actions).log == log
  }

  /** The calls of a rotation are serializable in every interleaving if and only if no job
      may outlive its lock entry. */
  lemma SerializableIff(init: Sys, ttl: nat, timeout: nat)
    requires PlainFirst(init)
    ensures (forall moves: seq<Move> :: Serial(init, Moves(init, moves, ttl, timeout).log)) <==> timeout <= ttl
  {
    hide Run, Moves;
    if timeout <= ttl {
      forall moves: seq<Move>
        ensures Serial(init, Moves(init, moves, ttl, timeout).log)
      {
        var actions := Serializable(init, AnyTime, moves, ttl, timeout);
      }
    } else {
      var o := Oracle(Outcome(Some(0), true, Passed, true, true), {});
      var moves := DoneTwice(init, Early(init), o, ttl, timeout);
      if Serial(init, Moves(init, moves, ttl, timeout).log) {
        var actions :| Run(init, actions).log == Moves(init, moves, ttl, timeout).log;
        DoneOnceThenNeverRuns(init, actions, 4, 7, 0);
      }
    }
  }
}
