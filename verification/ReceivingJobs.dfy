/**
 Native receiving jobs: `prepare` signs and retains one transaction per subject
 under the advisory lock of the subject's nonce lane, `resume` hands retained
 bytes to the network.  Any number of workers interleave at every `await`, each
 may throw or crash anywhere (which rolls its transaction back and frees its
 lock), what signing answers is arbitrary, and the chain may reorganize.
 */
module ReceivingJobs {
  import opened Wrappers
  import opened ReceivingKind
  import Rewards

  datatype Subject = Subject(kind: Kind, id: nat, revision: Option<nat>)

  datatype Request = Request(target: nat, data: nat, reward: int)

  /** A signed transaction: its lane and nonce, its one call, its gas terms; `rest` is whatever else the bytes hold. */
  datatype Tx = Tx(lane: nat, nonce: nat, target: nat, data: nat, gas: int, maxFee: int, rest: nat)

  datatype Row = Row(subject: Subject, request: Request, raw: Tx)

  /**
   `laneOf` is the truncated hash that names a subject's lane, `lockOf` the 32-bit
   hash PostgreSQL takes of the lane's lock name; neither is assumed injective
   here.  `fits` is the check of a request's target and calldata.
   */
  datatype Config = Config(laneOf: Subject -> nat, lockOf: nat -> nat, fits: (Subject, Request) -> bool)

  /** What `validate` demands of a row of subject s. */
  predicate Valid(cfg: Config, s: Subject, row: Row) {
    && row.subject == s && (cfg.fits)(s, row.request)
    && row.raw.lane == cfg.laneOf(s) && row.raw.nonce == 0
    && row.raw.target == row.request.target && row.raw.data == row.request.data
    && Rewards.RequireCovered(row.request.reward, row.raw.gas, row.raw.maxFee).Success?
  }

  /** The request a host still sees, against the retained one. */
  predicate Matches(seen: Option<Request>, row: Row) {
    seen.Some? ==> seen.value == row.request
  }

  // ------------------------------------------------------------------- state

  datatype Worker =
    | Preparing(s: Subject)
    | Locked(s: Subject)
    | Looked(s: Subject, kept: Option<Row>)
    | Asked(s: Subject, kept: Option<Row>, seen: Option<Request>)
    | Signed(s: Subject, row: Row)
    | Rechecked(s: Subject, row: Row)
    | Written(s: Subject, row: Row)          // inserted, not committed
    | Prepared(s: Subject, result: Option<Row>)
    | Resuming(s: Subject)
    | Loaded(s: Subject, row: Row)
    | Clear(s: Subject, row: Row)            // the lane nonce was unused when read
    | Resumed(s: Subject, row: Row, confirmed: bool)

  datatype State = State(rows: seq<Row>, held: map<nat, nat>, workers: map<nat, Worker>,
                         sent: set<Tx>, executed: seq<Tx>)

  const START := State([], map[], map[], {}, [])

  /** The lane's nonce on the canonical chain. */
  function NonceOf(executed: seq<Tx>, lane: nat): nat {
    if executed == [] then 0
    else NonceOf(executed[..|executed| - 1], lane) + if executed[|executed| - 1].lane == lane then 1 else 0
  }

  predicate Absent(rows: seq<Row>, s: Subject) {
    forall i :: 0 <= i < |rows| ==> rows[i].subject != s
  }

  /** The SELECT by identity found this: at most one row. */
  predicate Found(rows: seq<Row>, s: Subject, kept: Option<Row>) {
    if kept.None? then Absent(rows, s)
    else kept.value in rows && kept.value.subject == s
         && forall i, j :: 0 <= i < |rows| && 0 <= j < |rows| && rows[i].subject == s && rows[j].subject == s ==> i == j
  }

  datatype Action =
    | StartPrepare(p: nat, s: Subject)
    | Acquire(p: nat)
    | Look(p: nat, kept: Option<Row>)
    | Ask(p: nat, seen: Option<Request>)
    | Reuse(p: nat)
    | Satisfied(p: nat)
    | Sign(p: nat, raw: Tx)
    | Recheck(p: nat, current: Option<Request>)
    | Insert(p: nat)
    | Commit(p: nat)
    | StartResume(p: nat, s: Subject)
    | Load(p: nat, row: Row)
    | Receipt(p: nat)
    | Settled(p: nat)
    | CheckNonce(p: nat, current: Option<Request>)
    | Broadcast(p: nat)
    | Stop(p: nat)
    | Include(tx: Tx)
    | Reorganize(k: nat)

  predicate OfWorker(a: Action) {
    !a.Include? && !a.Reorganize?
  }

  /** The call an action belongs to; the chain's own actions belong to none. */
  function Actor(a: Action): Option<nat> {
    if OfWorker(a) then Some(a.p) else None
  }

  predicate Enabled(cfg: Config, st: State, a: Action) {
    match a
    case StartPrepare(p, s) => p !in st.workers
    case StartResume(p, s) => p !in st.workers
    case Include(tx) => tx in st.sent && tx.nonce == NonceOf(st.executed, tx.lane)
    case Reorganize(k) => k <= |st.executed|
    case _ => a.p in st.workers && WorkerEnabled(cfg, st, st.workers[a.p], a)
  }

  /** The branch a worker is at, for the actions of a running worker. */
  predicate WorkerEnabled(cfg: Config, st: State, w: Worker, a: Action)
    requires OfWorker(a)
  {
    match a
    case StartPrepare(_, _) => false
    case StartResume(_, _) => false
    case Acquire(_) => w.Preparing? && cfg.lockOf(cfg.laneOf(w.s)) !in st.held
    case Look(_, kept) => w.Locked? && Found(st.rows, w.s, kept)
    case Ask(_, seen) => w.Looked? && (seen.Some? ==> (cfg.fits)(w.s, seen.value))
    case Reuse(_) => w.Asked? && w.kept.Some? && Valid(cfg, w.s, w.kept.value) && Matches(w.seen, w.kept.value)
    case Satisfied(_) => w.Asked? && w.kept.None? && w.seen.None?
    case Sign(_, raw) =>
      && w.Asked? && w.kept.None? && w.seen.Some?
      && NonceOf(st.executed, cfg.laneOf(w.s)) == 0
      && Valid(cfg, w.s, Row(w.s, w.seen.value, raw))
    case Recheck(_, current) =>
      && w.Signed? && current.Some? && Matches(current, w.row)
      && NonceOf(st.executed, cfg.laneOf(w.s)) == 0
    case Insert(_) => w.Rechecked?
    case Commit(_) => w.Written?
    case Load(_, row) => w.Resuming? && Found(st.rows, w.s, Some(row)) && Valid(cfg, w.s, row)
    case Receipt(_) => w.Loaded? && w.row.raw in st.executed
    case Settled(_) => w.Loaded?
    case CheckNonce(_, current) =>
      && w.Loaded? && current.Some? && Matches(current, w.row)
      && NonceOf(st.executed, cfg.laneOf(w.s)) == 0
    case Broadcast(_) => w.Clear?
    case Stop(_) => true
  }

  function Free(st: State, p: nat): map<nat, nat> {
    map k | k in st.held && st.held[k] != p :: st.held[k]
  }

  function Become(st: State, p: nat, w: Worker): State {
    st.(workers := st.workers[p := w])
  }

  function Apply(cfg: Config, st: State, a: Action): State
    requires Enabled(cfg, st, a)
  {
    match a
    case StartPrepare(p, s) => Become(st, p, Preparing(s))
    case Acquire(p) =>
      var s := st.workers[p].s;
      Become(st, p, Locked(s)).(held := st.held[cfg.lockOf(cfg.laneOf(s)) := p])
    case Look(p, kept) => Become(st, p, Looked(st.workers[p].s, kept))
    case Ask(p, seen) => Become(st, p, Asked(st.workers[p].s, st.workers[p].kept, seen))
    case Reuse(p) => Become(st, p, Prepared(st.workers[p].s, st.workers[p].kept)).(held := Free(st, p))
    case Satisfied(p) => Become(st, p, Prepared(st.workers[p].s, None)).(held := Free(st, p))
    case Sign(p, raw) =>
      var s := st.workers[p].s;
      Become(st, p, Signed(s, Row(s, st.workers[p].seen.value, raw)))
    case Recheck(p, _) => Become(st, p, Rechecked(st.workers[p].s, st.workers[p].row))
    case Insert(p) => Become(st, p, Written(st.workers[p].s, st.workers[p].row))
    case Commit(p) =>
      var w := st.workers[p];
      Become(st, p, Prepared(w.s, Some(w.row))).(rows := st.rows + [w.row], held := Free(st, p))
    case StartResume(p, s) => Become(st, p, Resuming(s))
    case Load(p, row) => Become(st, p, Loaded(st.workers[p].s, row))
    case Receipt(p) => Become(st, p, Resumed(st.workers[p].s, st.workers[p].row, true))
    case Settled(p) => Become(st, p, Resumed(st.workers[p].s, st.workers[p].row, false))
    case CheckNonce(p, _) => Become(st, p, Clear(st.workers[p].s, st.workers[p].row))
    case Broadcast(p) =>
      var w := st.workers[p];
      Become(st, p, Resumed(w.s, w.row, false)).(sent := st.sent + {w.row.raw})
    case Stop(p) => st.(workers := st.workers - {p}, held := Free(st, p))
    case Include(tx) => st.(executed := st.executed + [tx])
    case Reorganize(k) => st.(executed := st.executed[..k])
  }

  // --------------------------------------------------------------- invariant

  /** Inside the transaction, with the lane's lock. */
  predicate HoldsLock(w: Worker) {
    w.Locked? || w.Looked? || w.Asked? || w.Signed? || w.Rechecked? || w.Written?
  }

  /** What a worker knows of the table. */
  predicate WorkerOk(cfg: Config, rows: seq<Row>, w: Worker) {
    match w
    case Looked(s, kept) => if kept.Some? then kept.value in rows && kept.value.subject == s else Absent(rows, s)
    case Asked(s, kept, _) => if kept.Some? then kept.value in rows && kept.value.subject == s else Absent(rows, s)
    case Signed(s, row) => Absent(rows, s) && Valid(cfg, s, row)
    case Rechecked(s, row) => Absent(rows, s) && Valid(cfg, s, row)
    case Written(s, row) => Absent(rows, s) && Valid(cfg, s, row)
    case Prepared(s, result) => result.Some? ==> result.value in rows && result.value.subject == s
    case Loaded(s, row) => row in rows && row.subject == s
    case Clear(s, row) => row in rows && row.subject == s
    case Resumed(s, row, _) => row in rows && row.subject == s
    case _ => true
  }

  ghost predicate TableInv(cfg: Config, rows: seq<Row>) {
    && (forall i :: 0 <= i < |rows| ==> Valid(cfg, rows[i].subject, rows[i]))
    && (forall i, j :: 0 <= i < |rows| && 0 <= j < |rows| && rows[i].subject == rows[j].subject ==> i == j)
  }

  predicate LockHeld(cfg: Config, held: map<nat, nat>, p: nat, w: Worker) {
    var k := cfg.lockOf(cfg.laneOf(w.s));
    k in held && held[k] == p
  }

  predicate OwnOk(cfg: Config, st: State, p: nat) {
    p in st.workers ==>
      && WorkerOk(cfg, st.rows, st.workers[p])
      && (HoldsLock(st.workers[p]) ==> LockHeld(cfg, st.held, p, st.workers[p]))
  }

  ghost predicate WorkersInv(cfg: Config, st: State) {
    forall p :: p in st.workers ==> OwnOk(cfg, st, p)
  }

  predicate Retained(rows: seq<Row>, tx: Tx) {
    exists i :: 0 <= i < |rows| && rows[i].raw == tx
  }

  /** Every transaction on the chain was sent, uses nonce 0, and comes first in its lane. */
  ghost predicate ChainInv(st: State) {
    && (forall tx :: tx in st.sent ==> Retained(st.rows, tx))
    && (forall i :: 0 <= i < |st.executed| ==> st.executed[i] in st.sent && st.executed[i].nonce == 0)
    && (forall i, j :: 0 <= i < |st.executed| && 0 <= j < |st.executed| && st.executed[i].lane == st.executed[j].lane ==> i == j)
  }

  ghost predicate Inv(cfg: Config, st: State) {
    TableInv(cfg, st.rows) && WorkersInv(cfg, st) && ChainInv(st)
  }

  lemma {:induction false} NonceCounts(executed: seq<Tx>, lane: nat)
    ensures NonceOf(executed, lane) == 0 <==> forall i :: 0 <= i < |executed| ==> executed[i].lane != lane
  {
    if executed != [] {
      var init := executed[..|executed| - 1];
      NonceCounts(init, lane);
      assert forall i :: 0 <= i < |init| ==> init[i] == executed[i];
    }
  }

  /** Worker p moved: nobody else's state or lock changed. */
  ghost predicate Others(st: State, u: State, p: nat) {
    && (forall q :: q in u.workers && q != p ==> q in st.workers && u.workers[q] == st.workers[q])
    && (forall q :: q in st.workers && q != p ==> q in u.workers)
    && (forall k :: k in st.held && st.held[k] != p ==> k in u.held && u.held[k] == st.held[k])
  }

  lemma StepLeavesOthers(cfg: Config, st: State, a: Action)
    requires Enabled(cfg, st, a) && OfWorker(a)
    ensures Others(st, Apply(cfg, st, a), a.p)
  {
  }

  lemma StepLeavesCall(cfg: Config, st: State, a: Action, p: nat)
    requires Enabled(cfg, st, a) && Actor(a) != Some(p) && p in st.workers
    ensures p in Apply(cfg, st, a).workers && Apply(cfg, st, a).workers[p] == st.workers[p]
  {
  }

  lemma StepMovesOwn(cfg: Config, st: State, a: Action)
    requires Enabled(cfg, st, a) && OfWorker(a) && OwnOk(cfg, st, a.p)
    ensures OwnOk(cfg, Apply(cfg, st, a), a.p)
  {
    if a.Commit? {
      var row := st.workers[a.p].row;
      assert (st.rows + [row])[|st.rows|] == row;
    }
  }

  /** Whoever else holds the lock of this subject would be this worker, so a commit contradicts nobody's reading. */
  lemma CommitLeavesReadings(cfg: Config, st: State, p: nat, q: nat)
    requires OwnOk(cfg, st, p) && OwnOk(cfg, st, q) && p != q
    requires p in st.workers && st.workers[p].Written? && q in st.workers
    ensures WorkerOk(cfg, st.rows + [st.workers[p].row], st.workers[q])
  {
  }

  lemma StepKeepsWorkers(cfg: Config, st: State, u: State, a: Action)
    requires WorkersInv(cfg, st) && Enabled(cfg, st, a) && u == Apply(cfg, st, a)
    ensures WorkersInv(cfg, u)
  {
    if OfWorker(a) {
      StepLeavesOthers(cfg, st, a);
      StepMovesOwn(cfg, st, a);
      forall q | q in u.workers && q != a.p
        ensures OwnOk(cfg, u, q)
      {
        assert OwnOk(cfg, st, q);
        if a.Commit? {
          CommitLeavesReadings(cfg, st, a.p, q);
        }
      }
    } else {
      assert forall q :: q in u.workers ==> OwnOk(cfg, st, q) ==> OwnOk(cfg, u, q);
    }
  }

  lemma StepKeepsTable(cfg: Config, st: State, u: State, a: Action)
    requires TableInv(cfg, st.rows) && WorkersInv(cfg, st) && Enabled(cfg, st, a) && u == Apply(cfg, st, a)
    ensures TableInv(cfg, u.rows) && st.rows <= u.rows
  {
    if a.Commit? {
      assert OwnOk(cfg, st, a.p);
    }
  }

  lemma SentIsRetained(cfg: Config, st: State, u: State, a: Action, tx: Tx)
    requires ChainInv(st) && WorkersInv(cfg, st) && Enabled(cfg, st, a) && u == Apply(cfg, st, a)
    requires st.rows <= u.rows && tx in u.sent
    ensures Retained(u.rows, tx)
  {
    if tx in st.sent {
      var i :| 0 <= i < |st.rows| && st.rows[i].raw == tx;
      assert u.rows[i].raw == tx;
    } else {
      assert OwnOk(cfg, st, a.p);
    }
  }

  lemma StepKeepsChain(cfg: Config, st: State, u: State, a: Action)
    requires Inv(cfg, st) && Enabled(cfg, st, a) && u == Apply(cfg, st, a)
    requires st.rows <= u.rows
    ensures ChainInv(u)
  {
    forall tx | tx in u.sent
      ensures Retained(u.rows, tx)
    {
      SentIsRetained(cfg, st, u, a, tx);
    }
    if a.Include? {
      NonceCounts(st.executed, a.tx.lane);
      var i :| 0 <= i < |st.rows| && st.rows[i].raw == a.tx;
      assert Valid(cfg, st.rows[i].subject, st.rows[i]);
    }
  }

  ghost predicate Step(cfg: Config, st: State, u: State, a: Action) {
    Enabled(cfg, st, a) && u == Apply(cfg, st, a)
  }

  /** One step keeps the invariant and only appends to the table. */
  lemma StepKeepsInv(cfg: Config, st: State, u: State, a: Action)
    requires Inv(cfg, st) && Step(cfg, st, u, a)
    ensures Inv(cfg, u) && st.rows <= u.rows
  {
    StepKeepsTable(cfg, st, u, a);
    StepKeepsWorkers(cfg, st, u, a);
    StepKeepsChain(cfg, st, u, a);
  }

  // -------------------------------------------------------------- whole runs

  ghost predicate IsRun(cfg: Config, run: seq<State>, acts: seq<Action>) {
    && |run| == |acts| + 1 && run[0] == START
    && forall i :: 0 <= i < |acts| ==> Step(cfg, run[i], run[i + 1], acts[i])
  }

  lemma {:induction false} RunKeepsInv(cfg: Config, run: seq<State>, acts: seq<Action>, i: nat)
    requires IsRun(cfg, run, acts) && i < |run|
    ensures Inv(cfg, run[i])
  {
    if i > 0 {
      RunKeepsInv(cfg, run, acts, i - 1);
      assert Step(cfg, run[i - 1], run[i - 1 + 1], acts[i - 1]);
      StepKeepsInv(cfg, run[i - 1], run[i], acts[i - 1]);
    }
  }

  /** No subject ever has two retained transactions, although only the lane's lock keeps the insert unique. */
  lemma OneRowPerSubject(cfg: Config, run: seq<State>, acts: seq<Action>, i: nat, x: nat, y: nat)
    requires IsRun(cfg, run, acts) && i < |run| && x < |run[i].rows| && y < |run[i].rows|
    requires run[i].rows[x].subject == run[i].rows[y].subject
    ensures x == y && Valid(cfg, run[i].rows[x].subject, run[i].rows[x])
  {
    RunKeepsInv(cfg, run, acts, i);
  }

  lemma RowsGrow(cfg: Config, run: seq<State>, acts: seq<Action>, i: nat)
    requires IsRun(cfg, run, acts) && i < |acts|
    ensures run[i].rows <= run[i + 1].rows
  {
  }

  lemma {:induction false} RowsOnlyGrow(cfg: Config, run: seq<State>, acts: seq<Action>, i: nat, j: nat)
    requires IsRun(cfg, run, acts) && i <= j < |run|
    ensures run[i].rows <= run[j].rows
    decreases j
  {
    if i < j {
      RowsOnlyGrow(cfg, run, acts, i, j - 1);
      RowsGrow(cfg, run, acts, j - 1);
    }
  }

  /** A retained transaction is the same at every two moments of a run. */
  lemma RetainedIsImmutable(cfg: Config, run: seq<State>, acts: seq<Action>, i: nat, j: nat, a: Row, b: Row)
    requires IsRun(cfg, run, acts) && i < |run| && j < |run|
    requires a in run[i].rows && b in run[j].rows && a.subject == b.subject
    ensures a == b
  {
    var last := if i < j then j else i;
    RowsOnlyGrow(cfg, run, acts, i, last);
    RowsOnlyGrow(cfg, run, acts, j, last);
    var x :| 0 <= x < |run[i].rows| && run[i].rows[x] == a;
    var y :| 0 <= y < |run[j].rows| && run[j].rows[y] == b;
    assert run[last].rows[x] == a && run[last].rows[y] == b;
    OneRowPerSubject(cfg, run, acts, last, x, y);
  }

  /** Whatever races and crashes, every answer of `prepare` for a subject is the one retained transaction. */
  lemma PrepareIsIdempotent(cfg: Config, run: seq<State>, acts: seq<Action>, i: nat, p: nat, j: nat, q: nat)
    requires IsRun(cfg, run, acts) && i < |run| && j < |run|
    requires p in run[i].workers && run[i].workers[p].Prepared? && run[i].workers[p].result.Some?
    requires q in run[j].workers && run[j].workers[q].Prepared? && run[j].workers[q].result.Some?
    requires run[i].workers[p].s == run[j].workers[q].s
    ensures run[i].workers[p].result == run[j].workers[q].result
    ensures run[i].workers[p].result.value in run[i].rows
  {
    RunKeepsInv(cfg, run, acts, i);
    RunKeepsInv(cfg, run, acts, j);
    assert OwnOk(cfg, run[i], p) && OwnOk(cfg, run[j], q);
    RetainedIsImmutable(cfg, run, acts, i, j, run[i].workers[p].result.value, run[j].workers[q].result.value);
  }

  predicate IsRetained(rows: seq<Row>, s: Subject, tx: Tx) {
    exists i :: 0 <= i < |rows| && rows[i].subject == s && rows[i].raw == tx
  }

  /** An answer is retained, and was so already if anything was at an earlier moment. */
  lemma AnswerIsRetained(cfg: Config, run: seq<State>, acts: seq<Action>, j: nat, i: nat, p: nat)
    requires IsRun(cfg, run, acts) && j <= i < |run|
    requires p in run[i].workers && run[i].workers[p].Prepared? && run[i].workers[p].result.Some?
    ensures var w := run[i].workers[p];
            && IsRetained(run[i].rows, w.s, w.result.value.raw)
            && forall tx :: IsRetained(run[j].rows, w.s, tx) ==> tx == w.result.value.raw
  {
    RunKeepsInv(cfg, run, acts, i);
    assert OwnOk(cfg, run[i], p);
    var w := run[i].workers[p];
    forall tx | IsRetained(run[j].rows, w.s, tx)
      ensures tx == w.result.value.raw
    {
      var x :| 0 <= x < |run[j].rows| && run[j].rows[x].subject == w.s && run[j].rows[x].raw == tx;
      RetainedIsImmutable(cfg, run, acts, j, i, run[j].rows[x], w.result.value);
    }
  }

  lemma ReportIsRetained(cfg: Config, run: seq<State>, acts: seq<Action>, i: nat, p: nat)
    requires IsRun(cfg, run, acts) && i < |run|
    requires p in run[i].workers && run[i].workers[p].Resumed?
    ensures IsRetained(run[i].rows, run[i].workers[p].s, run[i].workers[p].row.raw)
  {
    RunKeepsInv(cfg, run, acts, i);
    assert OwnOk(cfg, run[i], p);
  }

  /** A call that found no row under its lock was right, then and before. */
  lemma NothingWasRetained(cfg: Config, run: seq<State>, acts: seq<Action>, j: nat, i: nat, p: nat)
    requires IsRun(cfg, run, acts) && j <= i < |run|
    requires p in run[i].workers && run[i].workers[p].Asked? && run[i].workers[p].kept.None?
    ensures forall tx :: !IsRetained(run[j].rows, run[i].workers[p].s, tx)
  {
    RunKeepsInv(cfg, run, acts, i);
    assert OwnOk(cfg, run[i], p);
    RowsOnlyGrow(cfg, run, acts, j, i);
  }

  /**
   A retained transaction is the one call its request asked for, first in its
   subject's lane, and its gas costs at most the reward of the request.
   */
  lemma RetainedIsWhatWasAsked(cfg: Config, run: seq<State>, acts: seq<Action>, i: nat, x: nat)
    requires IsRun(cfg, run, acts) && i < |run| && x < |run[i].rows|
    ensures var row := run[i].rows[x];
            && row.raw == Tx(cfg.laneOf(row.subject), 0, row.request.target, row.request.data, row.raw.gas, row.raw.maxFee, row.raw.rest)
            && (cfg.fits)(row.subject, row.request) && row.raw.gas > 0 && row.raw.maxFee > 0
            && Rewards.Covers(row.request.reward, row.raw.gas * row.raw.maxFee)
  {
    RunKeepsInv(cfg, run, acts, i);
    var row := run[i].rows[x];
    assert Valid(cfg, row.subject, row);
    Rewards.LeastCovering(row.raw.gas, row.raw.maxFee, row.request.reward);
  }

  /** A worker about to broadcast saw the lane nonce unused at an earlier moment of this call. */
  lemma {:induction false} ClearedSince(cfg: Config, run: seq<State>, acts: seq<Action>, j: nat, p: nat) returns (i: nat)
    requires IsRun(cfg, run, acts) && j < |run| && p in run[j].workers && run[j].workers[p].Clear?
    ensures i < j && acts[i].CheckNonce? && acts[i].p == p
    ensures p in run[i].workers && run[i].workers[p] == Loaded(run[j].workers[p].s, run[j].workers[p].row)
    ensures NonceOf(run[i].executed, cfg.laneOf(run[j].workers[p].s)) == 0
  {
    assert j > 0;
    assert Step(cfg, run[j - 1], run[j - 1 + 1], acts[j - 1]);
    if acts[j - 1].CheckNonce? && acts[j - 1].p == p {
      i := j - 1;
    } else {
      i := ClearedSince(cfg, run, acts, j - 1, p);
    }
  }

  /** A call that reported a confirmation saw its transaction on the chain. */
  lemma {:induction false} ConfirmedWasExecuted(cfg: Config, run: seq<State>, acts: seq<Action>, j: nat, p: nat) returns (i: nat)
    requires IsRun(cfg, run, acts) && j < |run|
    requires p in run[j].workers && run[j].workers[p].Resumed? && run[j].workers[p].confirmed
    ensures i <= j && run[j].workers[p].row.raw in run[i].executed
  {
    assert j > 0;
    assert Step(cfg, run[j - 1], run[j - 1 + 1], acts[j - 1]);
    if acts[j - 1].Receipt? && acts[j - 1].p == p {
      i := j - 1;
    } else {
      i := ConfirmedWasExecuted(cfg, run, acts, j - 1, p);
    }
  }

  /** A broadcast hands over exactly the subject's retained bytes, after the lane nonce read as unused. */
  lemma BroadcastIsRetained(cfg: Config, run: seq<State>, acts: seq<Action>, j: nat) returns (i: nat, x: nat)
    requires IsRun(cfg, run, acts) && j < |acts| && acts[j].Broadcast?
    ensures acts[j].p in run[j].workers && run[j].workers[acts[j].p].Clear?
    ensures var w := run[j].workers[acts[j].p];
            && x < |run[j].rows| && run[j].rows[x].subject == w.s
            && run[j + 1].sent == run[j].sent + {run[j].rows[x].raw}
            && i < j && NonceOf(run[i].executed, cfg.laneOf(w.s)) == 0
  {
    assert Step(cfg, run[j], run[j + 1], acts[j]);
    RunKeepsInv(cfg, run, acts, j);
    assert OwnOk(cfg, run[j], acts[j].p);
    var w := run[j].workers[acts[j].p];
    x :| 0 <= x < |run[j].rows| && run[j].rows[x] == w.row;
    i := ClearedSince(cfg, run, acts, j, acts[j].p);
  }

  /** On the chain a lane executes at most one transaction, and it is a retained one. */
  lemma LaneExecutesAtMostOnce(cfg: Config, run: seq<State>, acts: seq<Action>, i: nat, x: nat, y: nat)
    requires IsRun(cfg, run, acts) && i < |run| && x < |run[i].executed| && y < |run[i].executed|
    requires run[i].executed[x].lane == run[i].executed[y].lane
    ensures x == y && Retained(run[i].rows, run[i].executed[x])
  {
    RunKeepsInv(cfg, run, acts, i);
  }

  ghost predicate LanesDistinct(cfg: Config) {
    forall s, t :: cfg.laneOf(s) == cfg.laneOf(t) ==> s == t
  }

  /**
   With distinct lanes a subject executes only its own retained transaction, and
   it is the same one in any two views of the chain, before and after any
   reorganization.
   */
  lemma SubjectExecutesItsOwn(cfg: Config, run: seq<State>, acts: seq<Action>, i: nat, x: nat, j: nat, y: nat, s: Subject)
    requires IsRun(cfg, run, acts) && LanesDistinct(cfg)
    requires i < |run| && x < |run[i].executed| && run[i].executed[x].lane == cfg.laneOf(s)
    requires j < |run| && y < |run[j].executed| && run[j].executed[y].lane == cfg.laneOf(s)
    ensures run[i].executed[x] == run[j].executed[y]
    ensures exists r :: 0 <= r < |run[i].rows| && run[i].rows[r].subject == s && run[i].rows[r].raw == run[i].executed[x]
  {
    RunKeepsInv(cfg, run, acts, i);
    RunKeepsInv(cfg, run, acts, j);
    assert Retained(run[i].rows, run[i].executed[x]) && Retained(run[j].rows, run[j].executed[y]);
    var r :| 0 <= r < |run[i].rows| && run[i].rows[r].raw == run[i].executed[x];
    var t :| 0 <= t < |run[j].rows| && run[j].rows[t].raw == run[j].executed[y];
    assert Valid(cfg, run[i].rows[r].subject, run[i].rows[r]) && Valid(cfg, run[j].rows[t].subject, run[j].rows[t]);
    RetainedIsImmutable(cfg, run, acts, i, j, run[i].rows[r], run[j].rows[t]);
  }
}
