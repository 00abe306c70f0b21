/** The hash-chained audit log under concurrent transactions. */
module AuditChain {
  import opened RotationTypes

  type Workspace = nat
  type TxId = nat
  type Hash = string

  datatype Payload = Payload(workspace: Workspace, body: string)
  datatype LogRow = LogRow(id: nat, prev: Hash, hash: Hash, payload: Payload)

  // What the code takes from its libraries: SHA-256 in hexadecimal, canonical JSON, and
  // the advisory-lock key of a workspace (which different workspaces may share).
  datatype Library = Library(sha: string -> string, encode: Payload -> string, lockKey: Workspace -> int)

  function Zeros(n: nat): (r: string)
    ensures |r| == n && forall k :: 0 <= k < n ==> r[k] == '0'
  {
    if n == 0 then "" else "0" + Zeros(n - 1)
  }

  const GENESIS: Hash := Zeros(64)

  function Input(lib: Library, prev: Hash, payload: Payload): string {
    prev + lib.encode(payload)
  }

  function ComputeHash(lib: Library, prev: Hash, payload: Payload): Hash {
    lib.sha(Input(lib, prev, payload))
  }

  /** The rows of one workspace, in order. */
  function Of(rows: seq<LogRow>, ws: Workspace): seq<LogRow> {
    if rows == [] then []
    else
      var before, r := Of(rows[..|rows| - 1], ws), rows[|rows| - 1];
      if r.payload.workspace == ws then before + [r] else before
  }

  /** The row of the workspace with the highest id, as ORDER BY id DESC LIMIT 1 finds it. */
  function Latest(rows: seq<LogRow>, ws: Workspace): Option<LogRow> {
    if rows == [] then None
    else
      var best, r := Latest(rows[..|rows| - 1], ws), rows[|rows| - 1];
      if r.payload.workspace == ws && (best.None? || best.value.id < r.id) then Some(r) else best
  }

  function HeadHash(row: Option<LogRow>): Hash {
    if row.Some? then row.value.hash else GENESIS
  }

  function NewRow(lib: Library, id: nat, prev: Hash, payload: Payload): LogRow {
    LogRow(id, prev, ComputeHash(lib, prev, payload), payload)
  }

  predicate Linked(lib: Library, rows: seq<LogRow>, k: nat)
    requires k < |rows|
  {
    && rows[k].prev == (if k == 0 then GENESIS else rows[k - 1].hash)
    && rows[k].hash == ComputeHash(lib, rows[k].prev, rows[k].payload)
    && (k > 0 ==> rows[k - 1].id < rows[k].id)
  }

  /** One unforked chain from the genesis hash, in increasing id order. */
  ghost predicate IsChain(lib: Library, rows: seq<LogRow>) {
    forall k :: 0 <= k < |rows| ==> Linked(lib, rows, k)
  }

  predicate BelowId(rows: seq<LogRow>, id: nat) {
    forall k :: 0 <= k < |rows| ==> rows[k].id < id
  }

  lemma {:induction false} OfAppend(a: seq<LogRow>, b: seq<LogRow>, ws: Workspace)
    ensures Of(a + b, ws) == Of(a, ws) + Of(b, ws)
    decreases |b|
  {
    if b == [] {
      assert a + b == a;
    } else {
      OfAppend(a, b[..|b| - 1], ws);
      assert (a + b)[..|a + b| - 1] == a + b[..|b| - 1];
    }
  }

  lemma OfMore(rows: seq<LogRow>, row: LogRow)
    ensures Of(rows + [row], row.payload.workspace) == Of(rows, row.payload.workspace) + [row]
  {
    assert (rows + [row])[..|rows|] == rows;
  }

  lemma BelowMore(rows: seq<LogRow>, row: LogRow)
    requires BelowId(rows, row.id)
    ensures BelowId(rows + [row], row.id + 1)
  {}

  lemma ChainPrefix(lib: Library, rows: seq<LogRow>, n: nat)
    requires IsChain(lib, rows) && n <= |rows|
    ensures IsChain(lib, rows[..n])
  {
    forall k | 0 <= k < n
      ensures Linked(lib, rows[..n], k)
    {
      assert Linked(lib, rows, k);
    }
  }

  lemma {:induction false} ChainAscends(lib: Library, rows: seq<LogRow>, i: nat, j: nat)
    requires IsChain(lib, rows) && i < j < |rows|
    ensures rows[i].id < rows[j].id
    decreases j
  {
    assert Linked(lib, rows, j);
    if i < j - 1 {
      ChainAscends(lib, rows, i, j - 1);
    }
  }

  /** On a chain the highest id is the last row. */
  lemma {:induction false} LatestIsLast(lib: Library, rows: seq<LogRow>, ws: Workspace)
    requires IsChain(lib, Of(rows, ws))
    ensures Latest(rows, ws) == if Of(rows, ws) == [] then None else Some(Of(rows, ws)[|Of(rows, ws)| - 1])
    decreases |rows|
  {
    if rows != [] {
      var before, r := rows[..|rows| - 1], rows[|rows| - 1];
      var all := Of(rows, ws);
      if r.payload.workspace == ws {
        assert all[..|all| - 1] == Of(before, ws);
        ChainPrefix(lib, all, |all| - 1);
        LatestIsLast(lib, before, ws);
        assert Linked(lib, all, |all| - 1);
      } else {
        LatestIsLast(lib, before, ws);
      }
    }
  }

  /** Appending a row that was computed from the head extends the chain. */
  lemma ChainExtends(lib: Library, rows: seq<LogRow>, id: nat, payload: Payload)
    requires IsChain(lib, rows) && BelowId(rows, id)
    ensures var prev := if rows == [] then GENESIS else rows[|rows| - 1].hash;
            IsChain(lib, rows + [NewRow(lib, id, prev, payload)])
  {
    var prev := if rows == [] then GENESIS else rows[|rows| - 1].hash;
    var more := rows + [NewRow(lib, id, prev, payload)];
    forall k | 0 <= k < |more|
      ensures Linked(lib, more, k)
    {
      if k < |rows| {
        assert Linked(lib, rows, k);
      }
    }
  }

  // ---- the two writers ----

  /** What one transaction can read and write: the committed rows and its own. */
  class Session {
    const lib: Library
    var visible: seq<LogRow>
    var nextId: nat

    constructor (lib: Library, visible: seq<LogRow>, nextId: nat)
      ensures this.lib == lib && this.visible == visible && this.nextId == nextId
    {
      this.lib, this.visible, this.nextId := lib, visible, nextId;
    }

    /** `audit`, after it has obtained the advisory lock. */
    method Audit(payload: Payload) returns (row: LogRow)
      modifies this
      ensures row == NewRow(lib, old(nextId), HeadHash(Latest(old(visible), payload.workspace)), payload)
      ensures row.hash == lib.sha(row.prev + lib.encode(payload)) && row.payload == payload
      ensures visible == old(visible) + [row] && nextId == old(nextId) + 1
    {
      var head := GENESIS;
      var best := -1;
      var k := 0;
      while k < |visible|
        invariant 0 <= k <= |visible|
        invariant Latest(visible[..k], payload.workspace).None? ==> best == -1 && head == GENESIS
        invariant Latest(visible[..k], payload.workspace).Some? ==>
                    var r := Latest(visible[..k], payload.workspace).value; best == r.id && head == r.hash
      {
        assert visible[..k + 1][..k] == visible[..k];
        if visible[k].payload.workspace == payload.workspace && best < visible[k].id {
          best, head := visible[k].id, visible[k].hash;
        }
        k := k + 1;
      }
      assert visible[..k] == visible;
      row := NewRow(lib, nextId, head, payload);
      visible, nextId := visible + [row], nextId + 1;
    }

    /** The seeding loop of create_demo_session: direct inserts that carry `prev` along. */
    method Seed(ws: Workspace, bodies: seq<string>)
      requires Of(visible, ws) == []
      modifies this
      ensures |visible| == |old(visible)| + |bodies| && old(visible) <= visible
      ensures IsChain(lib, Of(visible, ws)) && |Of(visible, ws)| == |bodies|
      ensures forall k :: 0 <= k < |bodies| ==> Of(visible, ws)[k].payload == Payload(ws, bodies[k])
    {
      hide Zeros, GENESIS;
      var prev := GENESIS;
      for k := 0 to |bodies|
        invariant |visible| == |old(visible)| + k && old(visible) <= visible
        invariant IsChain(lib, Of(visible, ws)) && |Of(visible, ws)| == k
        invariant BelowId(Of(visible, ws), nextId)
        invariant prev == if k == 0 then GENESIS else Of(visible, ws)[k - 1].hash
        invariant forall l :: 0 <= l < k ==> Of(visible, ws)[l].payload == Payload(ws, bodies[l])
      {
        hide IsChain, Of, BelowId;
        var row := NewRow(lib, nextId, prev, Payload(ws, bodies[k]));
        ChainExtends(lib, Of(visible, ws), nextId, Payload(ws, bodies[k]));
        OfMore(visible, row);
        BelowMore(Of(visible, ws), row);
        visible, nextId := visible + [row], nextId + 1;
        prev := row.hash;
      }
    }
  }

  // ---- concurrent transactions ----

  // `seeding` maps each workspace that the transaction creates to the loop's `prev`.
  datatype Tx = Tx(rows: seq<LogRow>, locks: set<int>, seeding: map<Workspace, Hash>)
  datatype Db = Db(committed: seq<LogRow>, nextId: nat, txs: map<TxId, Tx>, known: set<Workspace>)

  datatype Step =
    | Begin(tx: TxId)
    | Append(tx: TxId, payload: Payload)
    | Create(tx: TxId, ws: Workspace)
    | SeedRow(tx: TxId, ws: Workspace, body: string)
    | Commit(tx: TxId)
    | Abort(tx: TxId)

  predicate LockFree(db: Db, tx: TxId, key: int) {
    forall u :: u in db.txs && u != tx ==> key !in db.txs[u].locks
  }

  predicate Creating(db: Db, ws: Workspace) {
    exists u :: u in db.txs && ws in db.txs[u].seeding
  }

  /** One statement of one transaction. An append that would block on the advisory lock, or
      that names a workspace it cannot see, does not happen. Row ids come from a sequence
      that no abort rolls back. */
  function Next(lib: Library, db: Db, step: Step): Db {
    match step
    case Begin(tx) => if tx in db.txs then db else db.(txs := db.txs[tx := Tx([], {}, map[])])
    case Append(tx, payload) =>
      var key := lib.lockKey(payload.workspace);
      if tx !in db.txs || payload.workspace !in db.known || !LockFree(db, tx, key) then db
      else
        var t := db.txs[tx];
        var prev := HeadHash(Latest(db.committed + t.rows, payload.workspace));
        db.(nextId := db.nextId + 1,
            txs := db.txs[tx := t.(rows := t.rows + [NewRow(lib, db.nextId, prev, payload)], locks := t.locks + {key})])
    case Create(tx, ws) =>
      if tx !in db.txs || ws in db.known || Creating(db, ws) then db
      else db.(txs := db.txs[tx := db.txs[tx].(seeding := db.txs[tx].seeding[ws := GENESIS])])
    case SeedRow(tx, ws, body) =>
      if tx !in db.txs || ws !in db.txs[tx].seeding then db
      else
        var t := db.txs[tx];
        var row := NewRow(lib, db.nextId, t.seeding[ws], Payload(ws, body));
        db.(nextId := db.nextId + 1,
            txs := db.txs[tx := t.(rows := t.rows + [row], seeding := t.seeding[ws := row.hash])])
    case Commit(tx) =>
      if tx !in db.txs then db
      else Db(db.committed + db.txs[tx].rows, db.nextId, db.txs - {tx}, db.known + db.txs[tx].seeding.Keys)
    case Abort(tx) => db.(txs := db.txs - {tx})
  }

  function Run(lib: Library, steps: seq<Step>): Db {
    if steps == [] then Db([], 0, map[], {})
    else Next(lib, Run(lib, steps[..|steps| - 1]), steps[|steps| - 1])
  }

  // ---- no fork ----

  predicate Belongs(lib: Library, db: Db, t: Tx, ws: Workspace) {
    ws in t.seeding || (lib.lockKey(ws) in t.locks && ws in db.known)
  }

  /** The committed rows of a workspace form a chain. */
  ghost predicate WorkspaceOk(lib: Library, db: Db, ws: Workspace) {
    var rows := Of(db.committed, ws);
    IsChain(lib, rows) && BelowId(rows, db.nextId) && (rows != [] ==> ws in db.known)
  }

  /** What transaction `u` has written to a workspace extends the committed chain, and only
      the lock's holder or the workspace's creator has written anything. */
  ghost predicate TxOk(lib: Library, db: Db, u: TxId, ws: Workspace) {
    u in db.txs ==>
      var t := db.txs[u];
      var own := Of(t.rows, ws);
      && IsChain(lib, Of(db.committed, ws) + own) && BelowId(own, db.nextId)
      && (own != [] ==> Belongs(lib, db, t, ws))
      && (ws in t.seeding ==> ws !in db.known && t.seeding[ws] == if own == [] then GENESIS else own[|own| - 1].hash)
  }

  predicate Apart(db: Db, u: TxId, v: TxId) {
    u in db.txs && v in db.txs && u != v ==>
      db.txs[u].locks !! db.txs[v].locks && db.txs[u].seeding.Keys !! db.txs[v].seeding.Keys
  }

  ghost predicate Ok(lib: Library, db: Db) {
    && (forall ws: Workspace :: WorkspaceOk(lib, db, ws))
    && (forall u: TxId, ws: Workspace :: TxOk(lib, db, u, ws))
    && (forall u: TxId, v: TxId :: Apart(db, u, v))
  }

  lemma ApartStep(lib: Library, db: Db, step: Step, u: TxId, v: TxId)
    requires Ok(lib, db)
    ensures Apart(Next(lib, db, step), u, v)
  {
    assert Apart(db, u, v);
  }

  lemma OneWriter(lib: Library, db: Db, u: TxId, v: TxId, ws: Workspace)
    requires Ok(lib, db) && u in db.txs && v in db.txs && u != v
    requires Of(db.txs[u].rows, ws) != []
    ensures Of(db.txs[v].rows, ws) == [] && ws !in db.txs[v].seeding
  {
    assert TxOk(lib, db, u, ws) && TxOk(lib, db, v, ws) && Apart(db, u, v);
  }

  lemma OfOne(rows: seq<LogRow>, r: LogRow, ws: Workspace)
    ensures Of(rows + [r], ws) == if r.payload.workspace == ws then Of(rows, ws) + [r] else Of(rows, ws)
  {
    assert (rows + [r])[..|rows|] == rows;
  }

  lemma TxOkAppend(lib: Library, db: Db, tx: TxId, payload: Payload, ws: Workspace)
    requires Ok(lib, db)
    ensures TxOk(lib, Next(lib, db, Append(tx, payload)), tx, ws)
  {
    hide IsChain, Of, Latest;
    assert TxOk(lib, db, tx, ws) && WorkspaceOk(lib, db, ws);
    if tx in db.txs {
      var t, committed := db.txs[tx], Of(db.committed, ws);
      var prev := HeadHash(Latest(db.committed + t.rows, payload.workspace));
      var row := NewRow(lib, db.nextId, prev, payload);
      OfOne(t.rows, row, ws);
      if payload.workspace == ws {
        OfAppend(db.committed, t.rows, ws);
        LatestIsLast(lib, db.committed + t.rows, ws);
        ChainExtends(lib, committed + Of(t.rows, ws), db.nextId, payload);
        assert committed + Of(t.rows, ws) + [row] == committed + (Of(t.rows, ws) + [row]);
      }
    }
  }

  lemma TxOkSeed(lib: Library, db: Db, tx: TxId, seeded: Workspace, body: string, ws: Workspace)
    requires Ok(lib, db)
    ensures TxOk(lib, Next(lib, db, SeedRow(tx, seeded, body)), tx, ws)
  {
    hide IsChain, Of;
    assert TxOk(lib, db, tx, ws) && WorkspaceOk(lib, db, ws);
    if tx in db.txs && seeded in db.txs[tx].seeding {
      var t, committed := db.txs[tx], Of(db.committed, ws);
      var row := NewRow(lib, db.nextId, t.seeding[seeded], Payload(seeded, body));
      OfOne(t.rows, row, ws);
      if seeded == ws {
        assert committed == [];
        assert committed + Of(t.rows, ws) == Of(t.rows, ws);
        ChainExtends(lib, Of(t.rows, ws), db.nextId, Payload(seeded, body));
        assert committed + (Of(t.rows, ws) + [row]) == Of(t.rows, ws) + [row];
      }
    }
  }

  lemma CommitKeeps(lib: Library, db: Db, tx: TxId, u: TxId, ws: Workspace)
    requires Ok(lib, db)
    ensures WorkspaceOk(lib, Next(lib, db, Commit(tx)), ws)
    ensures TxOk(lib, Next(lib, db, Commit(tx)), u, ws)
  {
    hide IsChain, Of;
    assert WorkspaceOk(lib, db, ws) && TxOk(lib, db, tx, ws) && TxOk(lib, db, u, ws) && Apart(db, u, tx);
    if tx in db.txs {
      var committed, own := Of(db.committed, ws), Of(db.txs[tx].rows, ws);
      OfAppend(db.committed, db.txs[tx].rows, ws);
      assert Of(Next(lib, db, Commit(tx)).committed, ws) == committed + own;
      if own == [] {
        assert committed + own == committed;
      } else if u in db.txs && u != tx {
        OneWriter(lib, db, tx, u, ws);
        assert committed + own + [] == committed + own;
      }
    }
  }

  lemma TxOkOther(lib: Library, db: Db, step: Step, u: TxId, ws: Workspace)
    requires Ok(lib, db) && !step.Commit?
    requires (step.Append? || step.SeedRow?) ==> step.tx != u
    ensures TxOk(lib, Next(lib, db, step), u, ws)
  {
    hide IsChain, Latest, NewRow;
    assert TxOk(lib, db, u, ws) && WorkspaceOk(lib, db, ws);
    if step.Begin? {
      assert Of(db.committed, ws) + [] == Of(db.committed, ws);
    }
  }

  lemma WorkspaceOkStep(lib: Library, db: Db, step: Step, ws: Workspace)
    requires Ok(lib, db) && !step.Commit?
    ensures WorkspaceOk(lib, Next(lib, db, step), ws)
  {
    hide IsChain, Latest, NewRow, Of;
    assert WorkspaceOk(lib, db, ws);
  }

  lemma OkStep(lib: Library, db: Db, step: Step)
    requires Ok(lib, db)
    ensures Ok(lib, Next(lib, db, step))
  {
    hide Next, TxOk, WorkspaceOk, Apart;
    var e := Next(lib, db, step);
    forall ws: Workspace
      ensures WorkspaceOk(lib, e, ws)
    {
      if step.Commit? {
        CommitKeeps(lib, db, step.tx, step.tx, ws);
      } else {
        WorkspaceOkStep(lib, db, step, ws);
      }
    }
    forall u: TxId, ws: Workspace
      ensures TxOk(lib, e, u, ws)
    {
      if step.Commit? {
        CommitKeeps(lib, db, step.tx, u, ws);
      } else if step.Append? && step.tx == u {
        TxOkAppend(lib, db, u, step.payload, ws);
      } else if step.SeedRow? && step.tx == u {
        TxOkSeed(lib, db, u, step.ws, step.body, ws);
      } else {
        TxOkOther(lib, db, step, u, ws);
      }
    }
    forall u: TxId, v: TxId
      ensures Apart(e, u, v)
    {
      ApartStep(lib, db, step, u, v);
    }
  }

  lemma {:induction false} AlwaysOk(lib: Library, steps: seq<Step>)
    ensures Ok(lib, Run(lib, steps))
    decreases |steps|
  {
    hide Next;
    if steps != [] {
      AlwaysOk(lib, steps[..|steps| - 1]);
      OkStep(lib, Run(lib, steps[..|steps| - 1]), steps[|steps| - 1]);
    }
  }

  /** The row hashes the previous row's hash, or 64 zeros, followed by its payload. */
  predicate HashedFrom(lib: Library, rows: seq<LogRow>, k: nat)
    requires k < |rows|
  {
    && rows[k].hash == lib.sha(rows[k].prev + lib.encode(rows[k].payload))
    && if k > 0 then rows[k].prev == rows[k - 1].hash
       else |rows[k].prev| == 64 && forall j :: 0 <= j < 64 ==> rows[k].prev[j] == '0'
  }

  lemma LinkMeans(lib: Library, rows: seq<LogRow>, k: nat)
    requires IsChain(lib, rows) && k < |rows|
    ensures HashedFrom(lib, rows, k)
  {
    hide Zeros;
    assert Linked(lib, rows, k);
  }

  /** In every interleaving of transactions, committed or aborted, the committed rows of
      each workspace form one chain from the genesis hash, in strictly increasing id order,
      and the next writer finds its end. */
  lemma NoFork(lib: Library, steps: seq<Step>, ws: Workspace)
    ensures var rows := Of(Run(lib, steps).committed, ws);
            && IsChain(lib, rows)
            && (forall i, j :: 0 <= i < j < |rows| ==> rows[i].id < rows[j].id)
            && (forall k :: 0 <= k < |rows| ==> HashedFrom(lib, rows, k))
            && Latest(Run(lib, steps).committed, ws) == if rows == [] then None else Some(rows[|rows| - 1])
  {
    hide IsChain, Run, Of, Latest, HashedFrom;
    AlwaysOk(lib, steps);
    assert WorkspaceOk(lib, Run(lib, steps), ws);
    var rows := Of(Run(lib, steps).committed, ws);
    forall i, j | 0 <= i < j < |rows|
      ensures rows[i].id < rows[j].id
    {
      ChainAscends(lib, rows, i, j);
    }
    forall k | 0 <= k < |rows|
      ensures HashedFrom(lib, rows, k)
    {
      LinkMeans(lib, rows, k);
    }
    LatestIsLast(lib, Run(lib, steps).committed, ws);
  }

  // ---- the head commits to the history ----

  predicate SameHashSameInput(lib: Library, a: seq<LogRow>, b: seq<LogRow>, i: nat, j: nat)
    requires i < |a| && j < |b|
  {
    var x, y := Input(lib, a[i].prev, a[i].payload), Input(lib, b[j].prev, b[j].payload);
    lib.sha(x) == lib.sha(y) ==> x == y
  }

  /** No two of the strings that the two logs hash collide. */
  ghost predicate NoCollision(lib: Library, a: seq<LogRow>, b: seq<LogRow>) {
    forall i, j :: 0 <= i < |a| && 0 <= j < |b| ==> SameHashSameInput(lib, a, b, i, j)
  }

  ghost predicate Faithful(lib: Library, a: seq<LogRow>, b: seq<LogRow>) {
    && (forall i :: 0 <= i < |a| ==> |a[i].hash| == 64)
    && (forall i :: 0 <= i < |b| ==> |b[i].hash| == 64)
    && (forall i, j :: 0 <= i < |a| && 0 <= j < |b| && lib.encode(a[i].payload) == lib.encode(b[j].payload) ==>
          a[i].payload == b[j].payload)
  }

  lemma PrevLength(lib: Library, rows: seq<LogRow>, k: nat)
    requires IsChain(lib, rows) && k < |rows| && forall i :: 0 <= i < |rows| ==> |rows[i].hash| == 64
    ensures |rows[k].prev| == 64
  {
    assert Linked(lib, rows, k);
  }

  /** Equal hashes at two positions mean equal payloads there and equal previous hashes. */
  lemma SplitInput(lib: Library, a: seq<LogRow>, b: seq<LogRow>, i: nat, j: nat)
    requires IsChain(lib, a) && IsChain(lib, b) && NoCollision(lib, a, b) && Faithful(lib, a, b)
    requires i < |a| && j < |b| && a[i].hash == b[j].hash
    ensures a[i].prev == b[j].prev && a[i].payload == b[j].payload
  {
    assert Linked(lib, a, i) && Linked(lib, b, j) && SameHashSameInput(lib, a, b, i, j);
    PrevLength(lib, a, i);
    PrevLength(lib, b, j);
    var x, y := Input(lib, a[i].prev, a[i].payload), Input(lib, b[j].prev, b[j].payload);
    assert x[..64] == a[i].prev && y[..64] == b[j].prev;
    assert x[64..] == lib.encode(a[i].payload) && y[64..] == lib.encode(b[j].payload);
  }

  /** Two valid logs with the same head hold the same payloads in the same order, and as
      many of them, unless the hash collides on two strings that they hash or yields the
      genesis string on one of them. */
  lemma {:induction false} HeadCommitsToHistory(lib: Library, a: seq<LogRow>, b: seq<LogRow>)
    requires IsChain(lib, a) && IsChain(lib, b) && NoCollision(lib, a, b) && Faithful(lib, a, b)
    requires |a| == |b| ||
             forall i :: (0 <= i < |a| ==> a[i].hash != GENESIS) && (0 <= i < |b| ==> b[i].hash != GENESIS)
    requires (if a == [] then GENESIS else a[|a| - 1].hash) == (if b == [] then GENESIS else b[|b| - 1].hash)
    ensures |a| == |b| && forall k :: 0 <= k < |a| ==> a[k].payload == b[k].payload
    decreases |a|
  {
    hide IsChain, NoCollision, Faithful, NewRow;
    if a != [] && b != [] {
      var m, n := |a| - 1, |b| - 1;
      SplitInput(lib, a, b, m, n);
      HeadBefore(lib, a);
      HeadBefore(lib, b);
      ChainPrefix(lib, a, m);
      ChainPrefix(lib, b, n);
      HypothesesPrefix(lib, a, b, m, n);
      HeadCommitsToHistory(lib, a[..m], b[..n]);
    }
  }

  lemma HeadBefore(lib: Library, rows: seq<LogRow>)
    requires IsChain(lib, rows) && rows != []
    ensures var m := |rows| - 1;
            rows[m].prev == if rows[..m] == [] then GENESIS else rows[..m][m - 1].hash
  {
    assert Linked(lib, rows, |rows| - 1);
  }

  lemma HypothesesPrefix(lib: Library, a: seq<LogRow>, b: seq<LogRow>, m: nat, n: nat)
    requires NoCollision(lib, a, b) && Faithful(lib, a, b) && m <= |a| && n <= |b|
    ensures NoCollision(lib, a[..m], b[..n]) && Faithful(lib, a[..m], b[..n])
  {
    forall i, j | 0 <= i < m && 0 <= j < n
      ensures SameHashSameInput(lib, a[..m], b[..n], i, j)
    {
      assert SameHashSameInput(lib, a, b, i, j);
    }
  }
}
