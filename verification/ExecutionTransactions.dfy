/**
 The retain, retire and record transactions statement by statement, any number
 of them interleaved under READ COMMITTED: a transaction takes one advisory
 lock per nullifier, reads what is committed at each SELECT, keeps its write
 private until COMMIT, and may be rolled back at any point.  Every commit is
 shown to be one atomic transaction of ExecutionTable.
 */
module ExecutionTransactions {
  import opened Wrappers
  import opened ExecutionTable

  /** Advisory locks are taken on a hash of the lock name; hashes may collide. */
  type LockKey = (Address, Hex32) -> int

  /** Where a transaction stands: after which of its statements. */
  datatype Txn =
    | RetainLocking(id: Identity, reserve: bool, taken: set<int>, waiting: seq<Hex32>)
    | RetainNotRetired(id: Identity, reserve: bool, taken: set<int>)
    | RetainNoPrior(id: Identity, taken: set<int>)
    | RetainInserted(id: Identity, taken: set<int>)
    | RetireLocking(id: Identity, taken: set<int>, waiting: seq<Hex32>)
    | RetireSelected(id: Identity, taken: set<int>, found: Option<Row>)
    | RetireVerified(id: Identity, taken: set<int>, found: Option<Row>, proof: Proof)
    | RetireWritten(id: Identity, taken: set<int>, proof: Proof, row: Row)
    | RecordWritten(callHash: Hex32, relayer: Address, hash: Hex32, row: Row)
  {
    function Locks(): set<int> {
      if RecordWritten? then {} else taken
    }

    /** The row, or the unique-index entry, this transaction has locked. */
    predicate LocksRow(c: Hex32) {
      match this
      case RetainInserted(id, _) => id.callHash == c
      case RetireSelected(id, _, found) => found.Some? && id.callHash == c
      case RetireVerified(id, _, found, _) => found.Some? && id.callHash == c
      case RetireWritten(id, _, _, _) => id.callHash == c
      case RecordWritten(call, _, _, _) => call == c
      case _ => false
    }
  }

  /** The committed table and the open transactions. */
  datatype State = State(rows: Table, txns: map<nat, Txn>)

  datatype Event =
    | Quiet                  // nothing committed
    | Committed(op: Op)      // a commit that writes
    | Repeated(op: Op)       // a retain that found its own row
    | RolledBack

  ghost predicate LockFree(s: State, me: nat, key: int) {
    forall o :: o in s.txns && o != me ==> key !in s.txns[o].Locks()
  }

  ghost predicate RowFree(s: State, me: nat, c: Hex32) {
    forall o :: o in s.txns && o != me ==> !s.txns[o].LocksRow(c)
  }

  predicate Sorted(ns: seq<Hex32>) {
    forall i, j :: 0 <= i < j < |ns| ==> ns[i] <= ns[j]
  }

  predicate Permutes(a: seq<Hex32>, b: seq<Hex32>) {
    multiset(a) == multiset(b)
  }

  // --------------------------------------------------------------- statements

  /** BEGIN of a transaction whose arguments passed the shape check. */
  ghost predicate Begin(s: State, u: State, t: nat) {
    && t !in s.txns && t in u.txns && u == s.(txns := s.txns[t := u.txns[t]])
    && match u.txns[t]
       case RetainLocking(id, _, taken, waiting) =>
         ValidIdentity(id) && taken == {} && Sorted(waiting) && Permutes(waiting, id.nullifiers)
       case RetireLocking(id, taken, waiting) =>
         ValidIdentity(id) && Distinct(id.nullifiers) && taken == {} && Sorted(waiting) && Permutes(waiting, id.nullifiers)
       case _ => false
  }

  ghost predicate TakeLock(s: State, u: State, t: nat, key: LockKey) {
    && t in s.txns
    && match s.txns[t]
       case RetainLocking(id, reserve, taken, waiting) =>
         && waiting != [] && LockFree(s, t, key(id.pool, waiting[0]))
         && u == s.(txns := s.txns[t := RetainLocking(id, reserve, taken + {key(id.pool, waiting[0])}, waiting[1..])])
       case RetireLocking(id, taken, waiting) =>
         && waiting != [] && LockFree(s, t, key(id.pool, waiting[0]))
         && u == s.(txns := s.txns[t := RetireLocking(id, taken + {key(id.pool, waiting[0])}, waiting[1..])])
       case _ => false
  }

  /** The two SELECTs of retain. */
  ghost predicate RetainReads(s: State, u: State, t: nat) {
    && t in s.txns
    && match s.txns[t]
       case RetainLocking(id, reserve, taken, waiting) =>
         waiting == [] && !Retired(s.rows, id.callHash)
         && u == s.(txns := s.txns[t := RetainNotRetired(id, reserve, taken)])
       case RetainNotRetired(id, reserve, taken) =>
         Blocking(s.rows, id.pool, id.nullifiers) == {} && reserve
         && u == s.(txns := s.txns[t := RetainNoPrior(id, taken)])
       case _ => false
  }

  /** The prior row is the caller's own: COMMIT without a write. */
  ghost predicate RetainRepeats(s: State, u: State, t: nat) {
    && t in s.txns && s.txns[t].RetainNotRetired?
    && var id := s.txns[t].id;
    && Blocking(s.rows, id.pool, id.nullifiers) == {id.callHash} && s.rows[id.callHash].relayer == id.relayer
    && u == s.(txns := s.txns - {t})
  }

  /** INSERT waits for an uncommitted entry with the same key and fails on a committed one. */
  ghost predicate RetainInserts(s: State, u: State, t: nat) {
    && t in s.txns && s.txns[t].RetainNoPrior?
    && var id := s.txns[t].id;
    && RowFree(s, t, id.callHash) && id.callHash !in s.rows
    && u == s.(txns := s.txns[t := RetainInserted(id, s.txns[t].taken)])
  }

  ghost predicate RetireSelects(s: State, u: State, t: nat) {
    && t in s.txns && s.txns[t].RetireLocking? && s.txns[t].waiting == []
    && var id := s.txns[t].id;
    && var found := if id.callHash in s.rows then Some(s.rows[id.callHash]) else None;
    && (found.Some? ==> RowFree(s, t, id.callHash) && Bound(found.value, id) && found.value.retirement.None?)
    && u == s.(txns := s.txns[t := RetireSelected(id, s.txns[t].taken, found)])
  }

  ghost predicate RetireVerifies(s: State, u: State, t: nat) {
    && t in s.txns && s.txns[t].RetireSelected? && t in u.txns && u.txns[t].RetireVerified?
    && ProofBound(u.txns[t].proof, s.txns[t].id)
    && u == s.(txns := s.txns[t := RetireVerified(s.txns[t].id, s.txns[t].taken, s.txns[t].found, u.txns[t].proof)])
  }

  ghost predicate RetireWrites(s: State, u: State, t: nat) {
    && t in s.txns && s.txns[t].RetireVerified?
    && var id, found, proof := s.txns[t].id, s.txns[t].found, s.txns[t].proof;
    && (found.None? ==> RowFree(s, t, id.callHash) && id.callHash !in s.rows)
    && var row := if found.Some? then found.value.(retirement := Some(proof))
                  else Row(id.relayer, id.pool, id.nullifiers, None, Some(proof));
    && u == s.(txns := s.txns[t := RetireWritten(id, s.txns[t].taken, proof, row)])
  }

  /** The UPDATE of record-submission: begins, waits for the row and matches it. */
  ghost predicate RecordWrites(s: State, u: State, t: nat) {
    && t !in s.txns && t in u.txns && u.txns[t].RecordWritten?
    && var w := u.txns[t];
    && RowFree(s, t, w.callHash) && w.callHash in s.rows
    && s.rows[w.callHash].relayer == w.relayer
    && (s.rows[w.callHash].hash.None? || s.rows[w.callHash].hash == Some(w.hash))
    && w.row == s.rows[w.callHash].(hash := Some(w.hash))
    && u == s.(txns := s.txns[t := w])
  }

  ghost predicate Commit(s: State, u: State, t: nat) {
    && t in s.txns
    && match s.txns[t]
       case RetainInserted(id, _) =>
         u == State(s.rows[id.callHash := Row(id.relayer, id.pool, id.nullifiers, None, None)], s.txns - {t})
       case RetireWritten(id, _, _, row) => u == State(s.rows[id.callHash := row], s.txns - {t})
       case RecordWritten(c, _, _, row) => u == State(s.rows[c := row], s.txns - {t})
       case _ => false
  }

  function CommittedOp(w: Txn): Op
    requires w.RetainInserted? || w.RetireWritten? || w.RecordWritten?
  {
    match w
    case RetainInserted(id, _) => RetainOp(id, true)
    case RetireWritten(id, _, proof, _) => RetireOp(id, Some(proof))
    case RecordWritten(c, r, h, _) => RecordOp(c, r, h)
  }

  /** Crash, thrown error, ROLLBACK, or a read-only end: the transaction disappears. */
  ghost predicate End(s: State, u: State, t: nat) {
    t in s.txns && u == s.(txns := s.txns - {t})
  }

  ghost predicate Step(key: LockKey, s: State, u: State, t: nat, e: Event) {
    match e
    case Quiet =>
      || Begin(s, u, t) || TakeLock(s, u, t, key) || RetainReads(s, u, t) || RetainInserts(s, u, t)
      || RetireSelects(s, u, t) || RetireVerifies(s, u, t) || RetireWrites(s, u, t) || RecordWrites(s, u, t)
    case Repeated(op) =>
      RetainRepeats(s, u, t) && op == RetainOp(s.txns[t].id, s.txns[t].reserve)
    case Committed(op) =>
      Commit(s, u, t) && op == CommittedOp(s.txns[t])
    case RolledBack => End(s, u, t)
  }

  // --------------------------------------------------------------- invariants

  ghost predicate HoldsAll(key: LockKey, id: Identity, taken: set<int>) {
    forall n :: n in id.nullifiers ==> key(id.pool, n) in taken
  }

  /** The advisory locks a retain must hold by now; nothing below relies on those of retire. */
  ghost predicate HoldsLocks(key: LockKey, w: Txn) {
    match w
    case RetainLocking(id, _, taken, waiting) =>
      forall n :: n in id.nullifiers ==> key(id.pool, n) in taken || n in waiting
    case RetainNotRetired(id, _, taken) => HoldsAll(key, id, taken)
    case RetainNoPrior(id, taken) => HoldsAll(key, id, taken)
    case RetainInserted(id, taken) => HoldsAll(key, id, taken)
    case _ => true
  }

  /** What a transaction has read is still what is committed. */
  ghost predicate ReadsHold(rows: Table, w: Txn) {
    match w
    case RetainLocking(id, _, _, _) => ValidIdentity(id)
    case RetainNotRetired(id, _, _) => ValidIdentity(id)
    case RetainNoPrior(id, _) => ValidIdentity(id) && Blocking(rows, id.pool, id.nullifiers) == {}
    case RetainInserted(id, _) =>
      ValidIdentity(id) && Blocking(rows, id.pool, id.nullifiers) == {} && id.callHash !in rows
    case RetireLocking(id, _, _) => ValidIdentity(id) && Distinct(id.nullifiers)
    case RetireSelected(id, _, found) => RetireReadsHold(rows, id, found)
    case RetireVerified(id, _, found, proof) => RetireReadsHold(rows, id, found) && ProofBound(proof, id)
    case RetireWritten(id, _, proof, row) =>
      && ValidIdentity(id) && Distinct(id.nullifiers) && ProofBound(proof, id)
      && if id.callHash in rows
         then Bound(rows[id.callHash], id) && rows[id.callHash].retirement.None?
              && row == rows[id.callHash].(retirement := Some(proof))
         else row == Row(id.relayer, id.pool, id.nullifiers, None, Some(proof))
    case RecordWritten(c, relayer, h, row) =>
      && c in rows && rows[c].relayer == relayer && (rows[c].hash.None? || rows[c].hash == Some(h))
      && row == rows[c].(hash := Some(h))
  }

  ghost predicate RetireReadsHold(rows: Table, id: Identity, found: Option<Row>) {
    && ValidIdentity(id) && Distinct(id.nullifiers)
    && (found.Some? ==> id.callHash in rows && rows[id.callHash] == found.value
                        && Bound(found.value, id) && found.value.retirement.None?)
  }

  ghost predicate Inv(key: LockKey, s: State) {
    && (forall t :: t in s.txns ==> HoldsLocks(key, s.txns[t]) && ReadsHold(s.rows, s.txns[t]))
    && (forall t, o :: t in s.txns && o in s.txns && t != o ==> s.txns[t].Locks() !! s.txns[o].Locks())
    && (forall t, o, c :: t in s.txns && o in s.txns && t != o ==> !(s.txns[t].LocksRow(c) && s.txns[o].LocksRow(c)))
  }

  /** A commit by `w` leaves what another open transaction `v` has read. */
  lemma CommitKeepsReads(key: LockKey, rows: Table, w: Txn, v: Txn)
    requires w.RetainInserted? || w.RetireWritten? || w.RecordWritten?
    requires HoldsLocks(key, w) && ReadsHold(rows, w)
    requires HoldsLocks(key, v) && ReadsHold(rows, v)
    requires w.Locks() !! v.Locks()
    requires forall c :: !(w.LocksRow(c) && v.LocksRow(c))
    ensures ReadsHold(Apply(rows, CommittedOp(w)), v)
  {
    var after := Apply(rows, CommittedOp(w));
    var c := if w.RecordWritten? then w.callHash else w.id.callHash;
    assert w.LocksRow(c);
    assert !v.LocksRow(c);
    assert forall d :: d != c ==> (d in after <==> d in rows) && (d in rows ==> after[d] == rows[d]);
    if v.RetainNoPrior? || v.RetainInserted? {
      forall d | d in after && after[d].pool == v.id.pool && after[d].retirement.None?
        ensures d !in Blocking(after, v.id.pool, v.id.nullifiers)
      {
        OverlapBlocks(after, d, v.id.pool, v.id.nullifiers);
        if d == c && w.RetainInserted? {
          forall n | n in w.id.nullifiers
            ensures n !in v.id.nullifiers
          {
            assert key(w.id.pool, n) in w.Locks();
          }
        } else {
          OverlapBlocks(rows, d, v.id.pool, v.id.nullifiers);
        }
      }
      assert Blocking(after, v.id.pool, v.id.nullifiers) == {};
    }
  }

  lemma CommitIsAtomic(rows: Table, w: Txn)
    requires w.RetainInserted? || w.RetireWritten? || w.RecordWritten?
    requires ReadsHold(rows, w)
    ensures match w
            case RetainInserted(id, _) =>
              Retain(rows, id, true) == Success((Apply(rows, CommittedOp(w)), Retained(true, None)))
            case RetireWritten(id, _, proof, _) =>
              Retire(rows, id, Some(proof)) == Success((Apply(rows, CommittedOp(w)), proof))
            case RecordWritten(c, r, h, _) =>
              RecordSubmission(rows, c, r, h) == Success(Apply(rows, CommittedOp(w)))
  {
  }

  /** What a statement must establish about the transaction it moves. */
  ghost predicate Admissible(key: LockKey, s: State, t: nat, w: Txn) {
    && HoldsLocks(key, w) && ReadsHold(s.rows, w)
    && (forall k :: k in w.Locks() ==> LockFree(s, t, k))
    && (forall c :: w.LocksRow(c) ==> RowFree(s, t, c))
  }

  lemma MoveKeepsInv(key: LockKey, s: State, t: nat, w: Txn)
    requires Inv(key, s) && Admissible(key, s, t, w)
    ensures Inv(key, s.(txns := s.txns[t := w]))
  {
    var u := s.(txns := s.txns[t := w]);
    forall a, b | a in u.txns && b in u.txns && a != b
      ensures u.txns[a].Locks() !! u.txns[b].Locks()
    {
      if a == t || b == t {
        var other := if a == t then b else a;
        forall k | k in w.Locks()
          ensures k !in s.txns[other].Locks()
        {
          assert LockFree(s, t, k);
        }
      }
    }
  }

  lemma BeginIsAdmissible(key: LockKey, s: State, u: State, t: nat)
    requires Begin(s, u, t)
    ensures Admissible(key, s, t, u.txns[t])
  {
    var w := u.txns[t];
    if w.RetainLocking? {
      forall n | n in w.id.nullifiers
        ensures n in w.waiting
      {
        assert n in multiset(w.id.nullifiers);
      }
    }
  }

  /** Locks a transaction already held stay its own when it moves on. */
  lemma OwnLocksFree(key: LockKey, s: State, t: nat, k: int)
    requires Inv(key, s) && t in s.txns && k in s.txns[t].Locks()
    ensures LockFree(s, t, k)
  {
  }

  lemma TakeLockIsAdmissible(key: LockKey, s: State, u: State, t: nat)
    requires Inv(key, s) && TakeLock(s, u, t, key)
    ensures Admissible(key, s, t, u.txns[t])
  {
  }

  lemma AdvanceIsAdmissible(key: LockKey, s: State, u: State, t: nat)
    requires Inv(key, s) && t in s.txns
    requires RetainReads(s, u, t) || RetainInserts(s, u, t) || RetireSelects(s, u, t)
             || RetireVerifies(s, u, t) || RetireWrites(s, u, t)
    ensures Admissible(key, s, t, u.txns[t])
  {
    assert u.txns[t].Locks() == s.txns[t].Locks();
    forall k | k in u.txns[t].Locks()
      ensures LockFree(s, t, k)
    {
      OwnLocksFree(key, s, t, k);
    }
    forall c | u.txns[t].LocksRow(c)
      ensures RowFree(s, t, c)
    {
      assert s.txns[t].LocksRow(c) ==> RowFree(s, t, c);
    }
  }

  lemma CommitKeepsInv(key: LockKey, s: State, u: State, t: nat)
    requires Inv(key, s) && Commit(s, u, t)
    ensures Inv(key, u)
  {
    var w := s.txns[t];
    CommitIsAtomic(s.rows, w);
    forall o | o in u.txns
      ensures ReadsHold(u.rows, u.txns[o])
    {
      CommitKeepsReads(key, s.rows, w, s.txns[o]);
    }
  }

  lemma StepKeepsInv(key: LockKey, s: State, u: State, t: nat, e: Event)
    requires Inv(key, s) && Step(key, s, u, t, e)
    ensures Inv(key, u)
  {
    if e.Committed? {
      CommitKeepsInv(key, s, u, t);
    } else if e.Quiet? {
      if Begin(s, u, t) {
        BeginIsAdmissible(key, s, u, t);
      } else if TakeLock(s, u, t, key) {
        TakeLockIsAdmissible(key, s, u, t);
      } else if !RecordWrites(s, u, t) {
        AdvanceIsAdmissible(key, s, u, t);
      }
      MoveKeepsInv(key, s, t, u.txns[t]);
    }
  }

  /** Every step either leaves the committed table alone or is one atomic transaction that succeeded. */
  lemma StepRefinesTable(key: LockKey, s: State, u: State, t: nat, e: Event)
    requires Inv(key, s) && Step(key, s, u, t, e)
    ensures e.Committed? ==> u.rows == Apply(s.rows, e.op)
    ensures !e.Committed? ==> u.rows == s.rows
    ensures e.Committed? && e.op.RetainOp? ==>
              e.op.reserve && Retain(s.rows, e.op.id, true) == Success((u.rows, Retained(true, None)))
    ensures e.Committed? && e.op.RetireOp? ==> Retire(s.rows, e.op.id, e.op.verified).Success?
    ensures e.Committed? && e.op.RecordOp? ==> RecordSubmission(s.rows, e.op.callHash, e.op.relayer, e.op.hash).Success?
    ensures e.Repeated? ==>
              Retain(s.rows, e.op.id, e.op.reserve) == Success((s.rows, Retained(false, s.rows[e.op.id.callHash].hash)))
  {
  }

  // -------------------------------------------------------------- whole runs

  ghost predicate IsInterleaving(key: LockKey, states: seq<State>, who: seq<nat>, events: seq<Event>) {
    && |states| == |events| + 1 == |who| + 1
    && states[0] == State(map[], map[])
    && forall i :: 0 <= i < |events| ==> Step(key, states[i], states[i + 1], who[i], events[i])
  }

  /** The operations that let a caller through or wrote a row, in the order they took effect. */
  function History(events: seq<Event>): seq<Op> {
    if events == [] then []
    else
      var earlier := History(events[..|events| - 1]);
      var last := events[|events| - 1];
      if last.Committed? || last.Repeated? then earlier + [last.op] else earlier
  }

  /**
   Serializability: whatever the interleaving, crashes and lock collisions, the
   committed table is the result of running the operations that took effect one
   after the other, each of them atomically.
   */
  lemma {:induction false} InterleavingIsSerializable(key: LockKey, states: seq<State>, who: seq<nat>, events: seq<Event>)
    returns (tables: seq<Table>)
    requires IsInterleaving(key, states, who, events)
    ensures Inv(key, states[|events|])
    ensures IsRun(tables, History(events))
    ensures tables[|tables| - 1] == states[|events|].rows
  {
    if events == [] {
      tables := [map[]];
    } else {
      var n := |events| - 1;
      tables := InterleavingIsSerializable(key, states[..n + 1], who[..n], events[..n]);
      assert states[..n + 1][n] == states[n];
      assert Step(key, states[n], states[n + 1], who[n], events[n]);
      StepKeepsInv(key, states[n], states[n + 1], who[n], events[n]);
      StepRefinesTable(key, states[n], states[n + 1], who[n], events[n]);
      if events[n].Committed? || events[n].Repeated? {
        tables := tables + [states[n + 1].rows];
      }
    }
  }

  /** Hence no interleaving ever commits two unreleased rows that share a nullifier. */
  lemma InterleavingKeepsExclusive(key: LockKey, states: seq<State>, who: seq<nat>, events: seq<Event>)
    requires IsInterleaving(key, states, who, events)
    ensures Exclusive(states[|events|].rows)
  {
    var tables := InterleavingIsSerializable(key, states, who, events);
    RunKeepsExclusive(tables, History(events), |tables| - 1);
  }
}
