/** Which payloads the committed audit log holds, read off the statements alone. */
module AuditLedger {
  import opened AuditChain

  // ---- the statements of a history, without the database ----

  predicate Ends(step: Step, tx: TxId) {
    step == Commit(tx) || step == Abort(tx)
  }

  /** The transaction has begun and not ended since. */
  predicate Open(steps: seq<Step>, tx: TxId) {
    if steps == [] then false
    else
      var before, last := steps[..|steps| - 1], steps[|steps| - 1];
      last == Begin(tx) || (!Ends(last, tx) && Open(before, tx))
  }

  /** Some committed transaction has created the workspace. */
  ghost predicate Known(steps: seq<Step>, ws: Workspace)
    decreases |steps|, 0
  {
    steps != [] &&
    var before, last := steps[..|steps| - 1], steps[|steps| - 1];
    Known(before, ws) || (last.Commit? && Creates(before, last.tx, ws))
  }

  /** The open transaction has created the workspace, which nobody else had. */
  ghost predicate Creates(steps: seq<Step>, tx: TxId, ws: Workspace)
    decreases |steps|, 0
  {
    steps != [] &&
    var before, last := steps[..|steps| - 1], steps[|steps| - 1];
    && !Ends(last, tx)
    && (Creates(before, tx, ws)
        || (last == Create(tx, ws) && Open(before, tx) && !Known(before, ws)
            && forall u: TxId :: !Creates(before, u, ws)))
  }

  /** The open transaction has appended to a workspace with this lock key. */
  ghost predicate Locks(lib: Library, steps: seq<Step>, tx: TxId, key: int)
    decreases |steps|, 0
  {
    steps != [] &&
    var before, last := steps[..|steps| - 1], steps[|steps| - 1];
    && !Ends(last, tx)
    && (Locks(lib, before, tx, key)
        || (last.Append? && last.tx == tx && lib.lockKey(last.payload.workspace) == key && Takes(lib, before, last)))
  }

  /** After these statements, `step` writes a row: an append to a known workspace that no
      other open transaction has locked, or a seeded row of a workspace that it creates. */
  ghost predicate Takes(lib: Library, steps: seq<Step>, step: Step)
    decreases |steps|, 1
  {
    match step
    case Append(tx, payload) =>
      && Open(steps, tx) && Known(steps, payload.workspace)
      && forall u: TxId :: u != tx ==> !Locks(lib, steps, u, lib.lockKey(payload.workspace))
    case SeedRow(tx, ws, _) => Creates(steps, tx, ws)
    case _ => false
  }

  function Written(step: Step): Payload
    requires step.Append? || step.SeedRow?
  {
    if step.Append? then step.payload else Payload(step.ws, step.body)
  }

  /** What the open transaction has written, in order. */
  ghost function Wrote(lib: Library, steps: seq<Step>, tx: TxId): seq<Payload> {
    if steps == [] then []
    else
      var before, last := steps[..|steps| - 1], steps[|steps| - 1];
      if Ends(last, tx) then []
      else if Takes(lib, before, last) && last.tx == tx then Wrote(lib, before, tx) + [Written(last)]
      else Wrote(lib, before, tx)
  }

  /** What committed transactions have written, in order of their commits. */
  ghost function Kept(lib: Library, steps: seq<Step>): seq<Payload> {
    if steps == [] then []
    else
      var before, last := steps[..|steps| - 1], steps[|steps| - 1];
      Kept(lib, before) + if last.Commit? then Wrote(lib, before, last.tx) else []
  }

  // ---- the database holds exactly that ----

  function Payloads(rows: seq<LogRow>): (r: seq<Payload>)
    ensures |r| == |rows| && forall k :: 0 <= k < |rows| ==> r[k] == rows[k].payload
  {
    seq(|rows|, k requires 0 <= k < |rows| => rows[k].payload)
  }

  ghost predicate TxAgrees(lib: Library, steps: seq<Step>, db: Db, tx: TxId) {
    && (tx in db.txs <==> Open(steps, tx))
    && (tx in db.txs ==> Payloads(db.txs[tx].rows) == Wrote(lib, steps, tx))
    && (tx !in db.txs ==> Wrote(lib, steps, tx) == [])
    && (forall ws: Workspace :: Creates(steps, tx, ws) <==> tx in db.txs && ws in db.txs[tx].seeding)
    && (forall key: int :: Locks(lib, steps, tx, key) <==> tx in db.txs && key in db.txs[tx].locks)
  }

  ghost predicate Agrees(lib: Library, steps: seq<Step>, db: Db) {
    && (forall tx: TxId :: TxAgrees(lib, steps, db, tx))
    && (forall ws: Workspace :: Known(steps, ws) <==> ws in db.known)
    && Payloads(db.committed) == Kept(lib, steps)
  }

  lemma Snoc(steps: seq<Step>, step: Step)
    ensures (steps + [step])[..|steps + [step]| - 1] == steps && (steps + [step])[|steps + [step]| - 1] == step
  {
  }

  /** The database's own test for whether a statement writes a row. */
  predicate Writes(lib: Library, db: Db, step: Step) {
    match step
    case Append(tx, payload) =>
      tx in db.txs && payload.workspace in db.known && LockFree(db, tx, lib.lockKey(payload.workspace))
    case SeedRow(tx, ws, _) => tx in db.txs && ws in db.txs[tx].seeding
    case _ => false
  }

  lemma TakesIff(lib: Library, steps: seq<Step>, db: Db, step: Step)
    requires Agrees(lib, steps, db)
    ensures Takes(lib, steps, step) <==> Writes(lib, db, step)
  {
    hide Locks, Creates, Known, Open, Wrote, Kept;
    match step
    case Append(tx, payload) =>
      var key := lib.lockKey(payload.workspace);
      assert TxAgrees(lib, steps, db, tx);
      forall u: TxId
        ensures Locks(lib, steps, u, key) <==> u in db.txs && key in db.txs[u].locks
      {
        assert TxAgrees(lib, steps, db, u);
      }
    case SeedRow(tx, _, _) => assert TxAgrees(lib, steps, db, tx);
    case _ =>
  }

  ghost predicate Unclaimed(steps: seq<Step>, ws: Workspace) {
    !Known(steps, ws) && forall u: TxId :: !Creates(steps, u, ws)
  }

  lemma CreatesIff(lib: Library, steps: seq<Step>, db: Db, ws: Workspace)
    requires Agrees(lib, steps, db)
    ensures Unclaimed(steps, ws) <==> ws !in db.known && !Creating(db, ws)
  {
    hide Locks, Creates, Known, Open, Wrote, Kept;
    forall u: TxId
      ensures Creates(steps, u, ws) <==> u in db.txs && ws in db.txs[u].seeding
    {
      assert TxAgrees(lib, steps, db, u);
    }
    if Creating(db, ws) {
      var u :| u in db.txs && ws in db.txs[u].seeding;
      assert Creates(steps, u, ws);
    }
  }

  lemma OpenAgrees(lib: Library, steps: seq<Step>, db: Db, step: Step, tx: TxId)
    requires Agrees(lib, steps, db)
    ensures tx in Next(lib, db, step).txs <==> Open(steps + [step], tx)
  {
    hide Locks, Creates, Known, Wrote, Kept, Latest;
    Snoc(steps, step);
    assert TxAgrees(lib, steps, db, tx);
  }

  lemma WroteAgrees(lib: Library, steps: seq<Step>, db: Db, step: Step, tx: TxId)
    requires Agrees(lib, steps, db)
    ensures var e := Next(lib, db, step);
            if tx in e.txs then Payloads(e.txs[tx].rows) == Wrote(lib, steps + [step], tx)
            else Wrote(lib, steps + [step], tx) == []
  {
    Snoc(steps, step);
    assert TxAgrees(lib, steps, db, tx);
    TakesIff(lib, steps, db, step);
    hide Locks, Creates, Known, Open, Kept, Latest, Takes, Agrees, HeadHash;
  }

  lemma CreatesLast(steps: seq<Step>, step: Step, tx: TxId, ws: Workspace)
    ensures Creates(steps + [step], tx, ws) <==>
            !Ends(step, tx) && (Creates(steps, tx, ws)
                                || (step == Create(tx, ws) && Open(steps, tx) && Unclaimed(steps, ws)))
  {
    Snoc(steps, step);
    hide Open;
  }

  lemma CreatesAgrees(lib: Library, steps: seq<Step>, db: Db, step: Step, tx: TxId, ws: Workspace)
    requires Agrees(lib, steps, db)
    ensures var e := Next(lib, db, step);
            Creates(steps + [step], tx, ws) <==> tx in e.txs && ws in e.txs[tx].seeding
  {
    Snoc(steps, step);
    assert TxAgrees(lib, steps, db, tx);
    CreatesIff(lib, steps, db, ws);
    assert Known(steps, ws) <==> ws in db.known;
    assert Creates(steps, tx, ws) <==> tx in db.txs && ws in db.txs[tx].seeding;
    assert Open(steps, tx) <==> tx in db.txs;
    CreatesLast(steps, step, tx, ws);
    hide Creates, Locks, Known, Open, Kept, Wrote, Latest, Takes, HeadHash, Creating, Agrees, TxAgrees, LockFree,
         Unclaimed;
  }

  lemma LocksAgree(lib: Library, steps: seq<Step>, db: Db, step: Step, tx: TxId, key: int)
    requires Agrees(lib, steps, db)
    ensures var e := Next(lib, db, step);
            Locks(lib, steps + [step], tx, key) <==> tx in e.txs && key in e.txs[tx].locks
  {
    Snoc(steps, step);
    assert TxAgrees(lib, steps, db, tx);
    TakesIff(lib, steps, db, step);
    hide Creates, Known, Open, Kept, Wrote, Latest, Takes, HeadHash, LockFree, Agrees;
  }

  lemma KnownAgrees(lib: Library, steps: seq<Step>, db: Db, step: Step, ws: Workspace)
    requires Agrees(lib, steps, db)
    ensures Known(steps + [step], ws) <==> ws in Next(lib, db, step).known
  {
    Snoc(steps, step);
    if step.Commit? {
      assert TxAgrees(lib, steps, db, step.tx);
    }
    hide Locks, Creates, Open, Kept, Wrote, Latest, Takes, HeadHash;
  }

  lemma KeptAgrees(lib: Library, steps: seq<Step>, db: Db, step: Step)
    requires Agrees(lib, steps, db)
    ensures Payloads(Next(lib, db, step).committed) == Kept(lib, steps + [step])
  {
    Snoc(steps, step);
    if step.Commit? {
      assert TxAgrees(lib, steps, db, step.tx);
    }
    hide Locks, Creates, Open, Known, Wrote, Latest, Takes, HeadHash;
  }

  lemma AgreesStep(lib: Library, steps: seq<Step>, db: Db, step: Step)
    requires Agrees(lib, steps, db)
    ensures Agrees(lib, steps + [step], Next(lib, db, step))
  {
    hide Next, Open, Known, Creates, Locks, Wrote, Kept, Agrees;
    var e := Next(lib, db, step);
    forall tx: TxId
      ensures TxAgrees(lib, steps + [step], e, tx)
    {
      OpenAgrees(lib, steps, db, step, tx);
      WroteAgrees(lib, steps, db, step, tx);
      forall ws: Workspace
        ensures Creates(steps + [step], tx, ws) <==> tx in e.txs && ws in e.txs[tx].seeding
      {
        CreatesAgrees(lib, steps, db, step, tx, ws);
      }
      forall key: int
        ensures Locks(lib, steps + [step], tx, key) <==> tx in e.txs && key in e.txs[tx].locks
      {
        LocksAgree(lib, steps, db, step, tx, key);
      }
    }
    forall ws: Workspace
      ensures Known(steps + [step], ws) <==> ws in e.known
    {
      KnownAgrees(lib, steps, db, step, ws);
    }
    KeptAgrees(lib, steps, db, step);
    AllAgree(lib, steps + [step], e);
  }

  lemma AllAgree(lib: Library, steps: seq<Step>, db: Db)
    requires forall tx: TxId :: TxAgrees(lib, steps, db, tx)
    requires forall ws: Workspace :: Known(steps, ws) <==> ws in db.known
    requires Payloads(db.committed) == Kept(lib, steps)
    ensures Agrees(lib, steps, db)
  {
  }

  lemma {:induction false} AlwaysAgrees(lib: Library, steps: seq<Step>)
    ensures Agrees(lib, steps, Run(lib, steps))
    decreases |steps|
  {
    hide Next, Agrees;
    if steps == [] {
      AgreesAtFirst(lib);
    } else {
      var before, last := steps[..|steps| - 1], steps[|steps| - 1];
      AlwaysAgrees(lib, before);
      AgreesStep(lib, before, Run(lib, before), last);
      assert steps == before + [last];
    }
  }

  lemma AgreesAtFirst(lib: Library)
    ensures Agrees(lib, [], Run(lib, []))
  {
  }

  // ---- conservation ----

  function OfWorkspace(payloads: seq<Payload>, ws: Workspace): seq<Payload> {
    if payloads == [] then []
    else
      var before, p := OfWorkspace(payloads[..|payloads| - 1], ws), payloads[|payloads| - 1];
      if p.workspace == ws then before + [p] else before
  }

  lemma {:induction false} PayloadsOf(rows: seq<LogRow>, ws: Workspace)
    ensures Payloads(Of(rows, ws)) == OfWorkspace(Payloads(rows), ws)
  {
    if rows != [] {
      PayloadsOf(rows[..|rows| - 1], ws);
      assert Payloads(rows)[..|rows| - 1] == Payloads(rows[..|rows| - 1]);
    }
  }

  /** The committed payloads of a workspace are exactly those that committed transactions
      wrote, in order of commit, and none of an aborted or open one. */
  lemma Conservation(lib: Library, steps: seq<Step>, ws: Workspace)
    ensures Payloads(Run(lib, steps).committed) == Kept(lib, steps)
    ensures Payloads(Of(Run(lib, steps).committed, ws)) == OfWorkspace(Kept(lib, steps), ws)
  {
    hide Run, Kept, Of, OfWorkspace;
    AlwaysAgrees(lib, steps);
    PayloadsOf(Run(lib, steps).committed, ws);
  }

  /** Statement `k` wrote a row with the payload, for this transaction. */
  ghost predicate WroteAt(lib: Library, steps: seq<Step>, k: nat, tx: TxId, p: Payload) {
    && k < |steps| && (steps[k].Append? || steps[k].SeedRow?)
    && steps[k].tx == tx && Written(steps[k]) == p && Takes(lib, steps[..k], steps[k])
  }

  predicate NotEnded(steps: seq<Step>, from: nat, to: nat, tx: TxId)
    requires to <= |steps|
  {
    forall j :: from <= j < to ==> !Ends(steps[j], tx)
  }

  /** Statement `k` wrote a row and statement `c` is the first end of its transaction, a commit. */
  ghost predicate CommittedAt(lib: Library, steps: seq<Step>, k: nat, c: nat, tx: TxId, p: Payload) {
    k < c < |steps| && WroteAt(lib, steps, k, tx, p) && steps[c] == Commit(tx) && NotEnded(steps, k, c, tx)
  }

  lemma WroteAtMore(lib: Library, steps: seq<Step>, step: Step, k: nat, tx: TxId, p: Payload)
    requires k < |steps|
    ensures WroteAt(lib, steps + [step], k, tx, p) <==> WroteAt(lib, steps, k, tx, p)
  {
    assert (steps + [step])[..k] == steps[..k];
    hide Takes;
  }

  lemma {:induction false} WroteMeans(lib: Library, steps: seq<Step>, tx: TxId, p: Payload)
    ensures p in Wrote(lib, steps, tx) <==>
            exists k: nat :: WroteAt(lib, steps, k, tx, p) && NotEnded(steps, k, |steps|, tx)
    decreases |steps|
  {
    hide Takes, WroteAt;
    if steps != [] {
      var before, last := steps[..|steps| - 1], steps[|steps| - 1];
      assert steps == before + [last];
      WroteMeans(lib, before, tx, p);
      forall k: nat | k < |before|
        ensures WroteAt(lib, steps, k, tx, p) <==> WroteAt(lib, before, k, tx, p)
      {
        WroteAtMore(lib, before, last, k, tx, p);
      }
      LastWrote(lib, before, last, tx, p);
      if p in Wrote(lib, before, tx) && !Ends(last, tx) {
        var k: nat :| WroteAt(lib, before, k, tx, p) && NotEnded(before, k, |before|, tx);
        AtInRange(lib, before, k, tx, p);
        assert NotEnded(steps, k, |steps|, tx);
      }
      if k: nat :| WroteAt(lib, steps, k, tx, p) && NotEnded(steps, k, |steps|, tx) {
        AtInRange(lib, steps, k, tx, p);
        assert !Ends(steps[|steps| - 1], tx);
        if k < |before| {
          assert NotEnded(before, k, |before|, tx);
        }
      }
    } else {
      forall k: nat
        ensures !WroteAt(lib, steps, k, tx, p)
      {
        AtInRange(lib, steps, k, tx, p);
      }
    }
  }

  lemma AtInRange(lib: Library, steps: seq<Step>, k: nat, tx: TxId, p: Payload)
    ensures WroteAt(lib, steps, k, tx, p) ==>
              k < |steps| && (steps[k].Append? || steps[k].SeedRow?) && steps[k].tx == tx
  {
  }

  lemma LastWrote(lib: Library, before: seq<Step>, last: Step, tx: TxId, p: Payload)
    ensures WroteAt(lib, before + [last], |before|, tx, p) <==>
            Takes(lib, before, last) && last.tx == tx && Written(last) == p
    ensures Takes(lib, before, last) ==> !Ends(last, tx)
  {
    Snoc(before, last);
    assert (before + [last])[..|before|] == before;
  }

  /** A payload is kept exactly if some statement wrote it and the first end of that
      statement's transaction is a commit. */
  lemma {:induction false} KeptMeans(lib: Library, steps: seq<Step>, p: Payload)
    ensures p in Kept(lib, steps) <==>
            exists k: nat, c: nat, tx: TxId :: CommittedAt(lib, steps, k, c, tx, p)
    decreases |steps|
  {
    hide Takes, Wrote, WroteAt;
    if steps != [] {
      var before, last := steps[..|steps| - 1], steps[|steps| - 1];
      assert steps == before + [last];
      KeptMeans(lib, before, p);
      forall k: nat, tx: TxId | k < |before|
        ensures WroteAt(lib, steps, k, tx, p) <==> WroteAt(lib, before, k, tx, p)
      {
        WroteAtMore(lib, before, last, k, tx, p);
      }
      forall k: nat, c: nat, tx: TxId | c < |before|
        ensures CommittedAt(lib, steps, k, c, tx, p) <==> CommittedAt(lib, before, k, c, tx, p)
      {
      }
      if last.Commit? {
        WroteMeans(lib, before, last.tx, p);
        LastCommit(lib, before, last.tx, p);
      }
    }
  }

  lemma LastCommit(lib: Library, before: seq<Step>, tx: TxId, p: Payload)
    ensures var steps := before + [Commit(tx)];
            (exists k: nat :: WroteAt(lib, before, k, tx, p) && NotEnded(before, k, |before|, tx)) <==>
            exists k: nat :: CommittedAt(lib, steps, k, |before|, tx, p)
  {
    hide WroteAt;
    var steps := before + [Commit(tx)];
    forall k: nat
      ensures WroteAt(lib, before, k, tx, p) && NotEnded(before, k, |before|, tx) <==>
              CommittedAt(lib, steps, k, |before|, tx, p)
    {
      AtInRange(lib, before, k, tx, p);
      if k < |before| {
        WroteAtMore(lib, before, Commit(tx), k, tx, p);
        assert forall j :: k <= j < |before| ==> steps[j] == before[j];
        assert NotEnded(before, k, |before|, tx) <==> NotEnded(steps, k, |before|, tx);
      }
    }
  }

  /** The committed log only grows at its end. */
  lemma {:induction false} CommittedGrows(lib: Library, steps: seq<Step>, more: seq<Step>)
    ensures Run(lib, steps).committed <= Run(lib, steps + more).committed
    decreases |more|
  {
    if more == [] {
      assert steps + more == steps;
    } else {
      var before := more[..|more| - 1];
      CommittedGrows(lib, steps, before);
      assert (steps + more)[..|steps + more| - 1] == steps + before;
      hide Latest, HeadHash, LockFree, Creating;
    }
  }

  // ---- whole transactions ----

  lemma RunMore(lib: Library, steps: seq<Step>, step: Step)
    ensures Run(lib, steps + [step]) == Next(lib, Run(lib, steps), step)
  {
    Snoc(steps, step);
    hide Next;
  }

  lemma RunFour(lib: Library, steps: seq<Step>, a: Step, b: Step, c: Step, d: Step)
    ensures Run(lib, steps + [a, b, c, d]) ==
            Next(lib, Next(lib, Next(lib, Next(lib, Run(lib, steps), a), b), c), d)
  {
    hide Run, Next;
    RunMore(lib, steps, a);
    RunMore(lib, steps + [a], b);
    RunMore(lib, steps + [a] + [b], c);
    RunMore(lib, steps + [a] + [b] + [c], d);
    assert steps + [a, b, c, d] == steps + [a] + [b] + [c] + [d];
  }

  lemma AppendTakes(lib: Library, db: Db, tx: TxId, p: Payload)
    requires tx in db.txs && p.workspace in db.known && LockFree(db, tx, lib.lockKey(p.workspace))
    ensures var e := Next(lib, db, Append(tx, p));
            && e.committed == db.committed && e.known == db.known && tx in e.txs && e.txs - {tx} == db.txs - {tx}
            && Payloads(e.txs[tx].rows) == Payloads(db.txs[tx].rows) + [p]
  {
    hide Latest, HeadHash, ComputeHash;
  }

  lemma OthersLockFree(db: Db, e: Db, tx: TxId, key: int)
    requires LockFree(db, tx, key) && e.txs - {tx} == db.txs - {tx}
    ensures LockFree(e, tx, key)
  {
    forall u | u in e.txs && u != tx
      ensures key !in e.txs[u].locks
    {
      assert u in e.txs - {tx};
    }
  }

  lemma TwoAppends(lib: Library, db: Db, tx: TxId, p: Payload, q: Payload)
    requires tx !in db.txs && p.workspace == q.workspace && p.workspace in db.known
    requires LockFree(db, tx, lib.lockKey(p.workspace))
    ensures var e := Next(lib, Next(lib, Next(lib, db, Begin(tx)), Append(tx, p)), Append(tx, q));
            e.committed == db.committed && tx in e.txs && Payloads(e.txs[tx].rows) == [p, q]
  {
    var d1 := Next(lib, db, Begin(tx));
    assert d1 == db.(txs := db.txs[tx := Tx([], {}, map[])]);
    hide Next, LockFree;
    OthersLockFree(db, d1, tx, lib.lockKey(p.workspace));
    AppendTakes(lib, d1, tx, p);
    var d2 := Next(lib, d1, Append(tx, p));
    OthersLockFree(d1, d2, tx, lib.lockKey(p.workspace));
    AppendTakes(lib, d2, tx, q);
  }

  lemma Ending(lib: Library, db: Db, tx: TxId)
    requires tx in db.txs
    ensures Payloads(Next(lib, db, Commit(tx)).committed) == Payloads(db.committed) + Payloads(db.txs[tx].rows)
    ensures Next(lib, db, Abort(tx)).committed == db.committed
  {
  }

  /** A transaction of its own that appends twice to a known workspace nobody has locked adds
      exactly these two payloads when it commits, and nothing when it aborts. */
  lemma OwnTransaction(lib: Library, steps: seq<Step>, tx: TxId, p: Payload, q: Payload)
    requires var db := Run(lib, steps);
             && tx !in db.txs && p.workspace == q.workspace && p.workspace in db.known
             && forall u :: u in db.txs ==> lib.lockKey(p.workspace) !in db.txs[u].locks
    ensures var before := Payloads(Run(lib, steps).committed);
            && Payloads(Run(lib, steps + [Begin(tx), Append(tx, p), Append(tx, q), Commit(tx)]).committed) ==
               before + [p, q]
            && Payloads(Run(lib, steps + [Begin(tx), Append(tx, p), Append(tx, q), Abort(tx)]).committed) == before
  {
    RunFour(lib, steps, Begin(tx), Append(tx, p), Append(tx, q), Commit(tx));
    RunFour(lib, steps, Begin(tx), Append(tx, p), Append(tx, q), Abort(tx));
    assert LockFree(Run(lib, steps), tx, lib.lockKey(p.workspace));
    hide Run, Next, LockFree;
    var db := Run(lib, steps);
    TwoAppends(lib, db, tx, p, q);
    Ending(lib, Next(lib, Next(lib, Next(lib, db, Begin(tx)), Append(tx, p)), Append(tx, q)), tx);
  }

  /** A new workspace comes with its seeded rows, and is known once they are committed. */
  lemma NewWorkspace(lib: Library, steps: seq<Step>, tx: TxId, ws: Workspace, body: string)
    requires var db := Run(lib, steps); tx !in db.txs && ws !in db.known && !Creating(db, ws)
    ensures var after := Run(lib, steps + [Begin(tx), Create(tx, ws), SeedRow(tx, ws, body), Commit(tx)]);
            && Payloads(after.committed) == Payloads(Run(lib, steps).committed) + [Payload(ws, body)]
            && after.known == Run(lib, steps).known + {ws} && after.txs == Run(lib, steps).txs
  {
    var db := Run(lib, steps);
    RunFour(lib, steps, Begin(tx), Create(tx, ws), SeedRow(tx, ws, body), Commit(tx));
    hide Run, ComputeHash;
    var d1 := Next(lib, db, Begin(tx));
    assert d1 == db.(txs := db.txs[tx := Tx([], {}, map[])]);
    assert !Creating(d1, ws);
    var d2 := Next(lib, d1, Create(tx, ws));
    assert d2 == db.(txs := db.txs[tx := Tx([], {}, map[ws := GENESIS])]);
    hide GENESIS, Zeros;
    var d3 := Next(lib, d2, SeedRow(tx, ws, body));
    assert d3.committed == db.committed && Payloads(d3.txs[tx].rows) == [Payload(ws, body)];
    assert d3.txs[tx].seeding.Keys == {ws};
    assert d3.txs - {tx} == db.txs;
  }
}
