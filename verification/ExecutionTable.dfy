/**
 The durable table `relay_pool_v4_executions` and the three transactions that
 touch it: retain, retire and record-submission.  Each is given as a function
 of the whole table; class `Store` holds the table and runs them in place.
 ExecutionTransactions.dfy shows that the SQL statements, interleaved, amount
 to these functions.
 */
module ExecutionTable {
  import opened Wrappers

  // A 32-byte hex string and a lower-cased address: only compared and ordered.
  type Hex32 = nat
  type Address = nat

  /** The arguments shared by retain and retire. */
  datatype Identity = Identity(callHash: Hex32, pool: Address, relayer: Address, nullifiers: seq<Hex32>)

  /** What the expired-lease verifier returns. */
  datatype Proof = Proof(callHash: Hex32, pool: Address, nullifiers: seq<Hex32>,
                         blockNumber: nat, blockTimestamp: nat)

  /** One row; `retirement` stands for `released_at` together with `retirement_proof`. */
  datatype Row = Row(relayer: Address, pool: Address, nullifiers: seq<Hex32>,
                     hash: Option<Hex32>, retirement: Option<Proof>)

  type Table = map<Hex32, Row>

  datatype Error =
    | InvalidIdentity | PermanentlyRetired | InputsRetained | DuplicateCall
    | BindingChanged | VerifierFailed | ProofUnbound | ExecutionMismatch

  /** The answer of retain. */
  datatype Retained = Retained(isFresh: bool, hash: Option<Hex32>)

  // ---------------------------------------------------------------- queries

  ghost predicate Overlap(a: seq<Hex32>, b: seq<Hex32>) {
    exists n :: n in a && n in b
  }

  function Shared(a: seq<Hex32>, b: seq<Hex32>): (s: set<Hex32>)
    ensures s != {} <==> Overlap(a, b)
  {
    var s := set n | n in a && n in b;
    assert forall n :: n in a && n in b ==> n in s;
    assert s != {} ==> exists n :: n in s;
    s
  }

  predicate Retired(t: Table, c: Hex32) {
    c in t && t[c].retirement.Some?
  }

  /** The unreleased rows of the pool that hold one of the nullifiers. */
  function Blocking(t: Table, pool: Address, nullifiers: seq<Hex32>): set<Hex32> {
    set c | c in t && t[c].pool == pool && t[c].retirement.None? && Shared(t[c].nullifiers, nullifiers) != {}
  }

  lemma OverlapBlocks(t: Table, c: Hex32, pool: Address, nullifiers: seq<Hex32>)
    requires c in t && t[c].pool == pool
    ensures c in Blocking(t, pool, nullifiers) <==> t[c].retirement.None? && Overlap(t[c].nullifiers, nullifiers)
  {
  }

  // ------------------------------------------------------------ transactions

  predicate ValidIdentity(id: Identity) {
    1 <= |id.nullifiers| <= 4
  }

  function Retain(t: Table, id: Identity, reserve: bool): Result<(Table, Retained), Error> {
    if !ValidIdentity(id) then Failure(InvalidIdentity)
    else if Retired(t, id.callHash) then Failure(PermanentlyRetired)
    else
      var prior := Blocking(t, id.pool, id.nullifiers);
      if prior != {} then
        if prior != {id.callHash} || t[id.callHash].relayer != id.relayer then Failure(InputsRetained)
        else Success((t, Retained(false, t[id.callHash].hash)))
      else if !reserve then Success((t, Retained(true, None)))
      else if id.callHash in t then Failure(DuplicateCall)
      else Success((t[id.callHash := Row(id.relayer, id.pool, id.nullifiers, None, None)], Retained(true, None)))
  }

  predicate Distinct(s: seq<Hex32>) {
    forall i, j :: 0 <= i < j < |s| ==> s[i] != s[j]
  }

  /** The retired row must name the same pool, relayer and nullifiers, in any order. */
  predicate Bound(row: Row, id: Identity) {
    row.pool == id.pool && row.relayer == id.relayer && multiset(row.nullifiers) == multiset(id.nullifiers)
  }

  predicate ProofBound(p: Proof, id: Identity) {
    && p.callHash == id.callHash && p.pool == id.pool
    && multiset(p.nullifiers) == multiset(id.nullifiers)
    && p.blockNumber > 0 && p.blockTimestamp > 0
  }

  /** `verified` is what the verifier would answer; it is asked only where the source asks. */
  function Retire(t: Table, id: Identity, verified: Option<Proof>): Result<(Table, Proof), Error> {
    if !ValidIdentity(id) || !Distinct(id.nullifiers) then Failure(InvalidIdentity)
    else if id.callHash in t && !Bound(t[id.callHash], id) then Failure(BindingChanged)
    else if Retired(t, id.callHash) then Success((t, t[id.callHash].retirement.value))
    else if verified.None? then Failure(VerifierFailed)
    else if !ProofBound(verified.value, id) then Failure(ProofUnbound)
    else
      var row := if id.callHash in t then t[id.callHash].(retirement := verified)
                 else Row(id.relayer, id.pool, id.nullifiers, None, verified);
      Success((t[id.callHash := row], verified.value))
  }

  function RecordSubmission(t: Table, c: Hex32, relayer: Address, h: Hex32): Result<Table, Error> {
    if c in t && t[c].relayer == relayer && (t[c].hash.None? || t[c].hash == Some(h))
    then Success(t[c := t[c].(hash := Some(h))])
    else Failure(ExecutionMismatch)
  }

  // ------------------------------------------------------- what the answers mean

  /** An unreleased row of the caller's pool that shares a nullifier with it. */
  ghost predicate Contends(t: Table, c: Hex32, id: Identity) {
    c in t && t[c].pool == id.pool && t[c].retirement.None? && Overlap(t[c].nullifiers, id.nullifiers)
  }

  /** Nobody holds any of the caller's nullifiers; to reserve, its call must also be new. */
  ghost predicate Claimable(t: Table, id: Identity, reserve: bool) {
    && 1 <= |id.nullifiers| <= 4
    && (id.callHash in t ==> t[id.callHash].retirement.None? && !reserve)
    && forall c :: !Contends(t, c, id)
  }

  /** The only row in the caller's way is its own. */
  ghost predicate OwnsItsInputs(t: Table, id: Identity) {
    && 1 <= |id.nullifiers| <= 4
    && Contends(t, id.callHash, id) && t[id.callHash].relayer == id.relayer
    && forall c :: Contends(t, c, id) ==> c == id.callHash
  }

  /**
   Retain lets a caller through fresh exactly when nobody holds its nullifiers,
   and as a repeat, with the stored hash, exactly when only its own row does.  A
   probe and a repeat change nothing; a claim adds the one row.
   */
  lemma RetainAnswersExactly(t: Table, id: Identity, reserve: bool)
    ensures var r := Retain(t, id, reserve);
            && (r.Success? && r.value.1.isFresh <==> Claimable(t, id, reserve))
            && (r.Success? && !r.value.1.isFresh <==> OwnsItsInputs(t, id))
            && (Claimable(t, id, reserve) ==>
                  r.value == (if reserve then t[id.callHash := Row(id.relayer, id.pool, id.nullifiers, None, None)] else t,
                              Retained(true, None)))
            && (OwnsItsInputs(t, id) ==> r.value == (t, Retained(false, t[id.callHash].hash)))
  {
    var prior := Blocking(t, id.pool, id.nullifiers);
    forall c
      ensures c in prior <==> Contends(t, c, id)
    {
      if c in t && t[c].pool == id.pool { OverlapBlocks(t, c, id.pool, id.nullifiers); }
    }
    assert prior == {} <==> forall c :: !Contends(t, c, id);
    assert Contends(t, id.callHash, id) && (forall c :: Contends(t, c, id) ==> c == id.callHash) ==> prior == {id.callHash};
  }

  /** Which refusal a caller gets. */
  lemma RetainRefusesExactly(t: Table, id: Identity, reserve: bool)
    ensures var r := Retain(t, id, reserve);
            && (r == Failure(InvalidIdentity) <==> !(1 <= |id.nullifiers| <= 4))
            && (r == Failure(PermanentlyRetired) <==>
                  1 <= |id.nullifiers| <= 4 && id.callHash in t && t[id.callHash].retirement.Some?)
            && (r == Failure(DuplicateCall) <==> reserve && id.callHash in t && Claimable(t, id, false))
  {
    RetainAnswersExactly(t, id, false);
    RetainAnswersExactly(t, id, reserve);
  }

  /** The retirement evidence names this very lock: call, pool and nullifiers, at a block. */
  predicate Evidence(p: Proof, id: Identity) {
    && p == Proof(id.callHash, id.pool, p.nullifiers, p.blockNumber, p.blockTimestamp)
    && multiset(p.nullifiers) == multiset(id.nullifiers) && p.blockNumber >= 1 && p.blockTimestamp >= 1
  }

  /** A row can be retired by its own caller: same pool, relayer and nullifiers. */
  predicate RetirableBy(t: Table, id: Identity) {
    && 1 <= |id.nullifiers| <= 4 && (forall i, j :: 0 <= i < |id.nullifiers| && 0 <= j < |id.nullifiers| && id.nullifiers[i] == id.nullifiers[j] ==> i == j)
    && (id.callHash in t ==>
          var row := t[id.callHash];
          row == Row(id.relayer, id.pool, row.nullifiers, row.hash, row.retirement) && multiset(row.nullifiers) == multiset(id.nullifiers))
  }

  /**
   Retire answers the stored proof of a retired row, and otherwise retires on
   bound evidence only; the row keeps its binding and its hash, every other row is
   left alone, and a call never seen is inserted retired.
   */
  lemma RetireAnswersExactly(t: Table, id: Identity, verified: Option<Proof>)
    ensures var r := Retire(t, id, verified); var c := id.callHash;
            && (r.Success? <==> RetirableBy(t, id) && ((c in t && t[c].retirement.Some?) || (verified.Some? && Evidence(verified.value, id))))
            && (r.Success? && c in t && t[c].retirement.Some? ==> r.value == (t, t[c].retirement.value))
            && (r.Success? && c in t && t[c].retirement.None? ==>
                  r.value == (t[c := Row(t[c].relayer, t[c].pool, t[c].nullifiers, t[c].hash, verified)], verified.value))
            && (r.Success? && c !in t ==>
                  r.value == (t[c := Row(id.relayer, id.pool, id.nullifiers, None, verified)], verified.value))
  {
    assert Distinct(id.nullifiers) <==>
           forall i, j :: 0 <= i < |id.nullifiers| && 0 <= j < |id.nullifiers| && id.nullifiers[i] == id.nullifiers[j] ==> i == j;
  }

  /** A hash is stored for the row's own relayer where there is none or the same one. */
  lemma RecordAnswersExactly(t: Table, c: Hex32, relayer: Address, h: Hex32)
    ensures var r := RecordSubmission(t, c, relayer, h);
            && (r.Success? <==> c in t && t[c].relayer == relayer && t[c].hash in {None, Some(h)})
            && (r.Success? ==> r.value == t[c := Row(relayer, t[c].pool, t[c].nullifiers, Some(h), t[c].retirement)])
  {
  }

  /** The table held in place by the store. */
  class Store {
    var rows: Table

    constructor ()
      ensures rows == map[]
    {
      rows := map[];
    }

    method RetainExecution(id: Identity, reserve: bool) returns (r: Result<Retained, Error>)
      modifies this
      ensures match Retain(old(rows), id, reserve)
              case Success(v) => rows == v.0 && r == Success(v.1)
              case Failure(e) => rows == old(rows) && r == Failure(e)
    {
      if |id.nullifiers| < 1 || |id.nullifiers| > 4 { return Failure(InvalidIdentity); }
      if id.callHash in rows && rows[id.callHash].retirement.Some? { return Failure(PermanentlyRetired); }
      var prior := Blocking(rows, id.pool, id.nullifiers);
      if prior != {} {
        if prior != {id.callHash} || rows[id.callHash].relayer != id.relayer { return Failure(InputsRetained); }
        return Success(Retained(false, rows[id.callHash].hash));
      }
      if reserve {
        if id.callHash in rows { return Failure(DuplicateCall); }
        rows := rows[id.callHash := Row(id.relayer, id.pool, id.nullifiers, None, None)];
      }
      return Success(Retained(true, None));
    }

    method RetireSourceLock(id: Identity, verified: Option<Proof>) returns (r: Result<Proof, Error>)
      modifies this
      ensures match Retire(old(rows), id, verified)
              case Success(v) => rows == v.0 && r == Success(v.1)
              case Failure(e) => rows == old(rows) && r == Failure(e)
    {
      if !ValidIdentity(id) || !Distinct(id.nullifiers) { return Failure(InvalidIdentity); }
      var present := id.callHash in rows;
      if present {
        var row := rows[id.callHash];
        if !Bound(row, id) { return Failure(BindingChanged); }
        if row.retirement.Some? { return Success(row.retirement.value); }
      }
      if verified.None? { return Failure(VerifierFailed); }
      if !ProofBound(verified.value, id) { return Failure(ProofUnbound); }
      if present {
        rows := rows[id.callHash := rows[id.callHash].(retirement := verified)];
      } else {
        rows := rows[id.callHash := Row(id.relayer, id.pool, id.nullifiers, None, verified)];
      }
      return Success(verified.value);
    }

    method RecordRelaySubmission(c: Hex32, relayer: Address, h: Hex32) returns (r: Result<(), Error>)
      modifies this
      ensures match RecordSubmission(old(rows), c, relayer, h)
              case Success(t) => rows == t && r == Success(())
              case Failure(e) => rows == old(rows) && r == Failure(e)
    {
      if c !in rows || rows[c].relayer != relayer { return Failure(ExecutionMismatch); }
      if rows[c].hash.Some? && rows[c].hash.value != h { return Failure(ExecutionMismatch); }
      rows := rows[c := rows[c].(hash := Some(h))];
      return Success(());
    }
  }

  // ------------------------------------------------------ what every step keeps

  /** Unreleased rows of one pool hold pairwise disjoint nullifier sets. */
  ghost predicate Exclusive(t: Table) {
    forall c, d :: c in t && d in t && c != d && t[c].pool == t[d].pool
                   && t[c].retirement.None? && t[d].retirement.None?
                   ==> !Overlap(t[c].nullifiers, t[d].nullifiers)
  }

  /** How a row may change: the binding never, the hash and the retirement once. */
  ghost predicate RowEvolves(a: Row, b: Row) {
    && a.pool == b.pool && a.relayer == b.relayer && a.nullifiers == b.nullifiers
    && (a.hash.Some? ==> b.hash == a.hash)
    && (a.retirement.Some? ==> b.retirement == a.retirement)
  }

  ghost predicate Evolves(t: Table, u: Table) {
    forall c :: c in t ==> c in u && RowEvolves(t[c], u[c])
  }

  datatype Op =
    | RetainOp(id: Identity, reserve: bool)
    | RetireOp(id: Identity, verified: Option<Proof>)
    | RecordOp(callHash: Hex32, relayer: Address, hash: Hex32)

  /** The table after a committed transaction; a failed one rolls back. */
  function Apply(t: Table, op: Op): Table {
    match op
    case RetainOp(id, reserve) => (match Retain(t, id, reserve) case Success(v) => v.0 case Failure(_) => t)
    case RetireOp(id, verified) => (match Retire(t, id, verified) case Success(v) => v.0 case Failure(_) => t)
    case RecordOp(c, r, h) => (match RecordSubmission(t, c, r, h) case Success(u) => u case Failure(_) => t)
  }

  lemma ApplyKeepsExclusive(t: Table, op: Op)
    requires Exclusive(t)
    ensures Exclusive(Apply(t, op))
  {
    var u := Apply(t, op);
    if op.RetainOp? {
      forall e | e in t && t[e].pool == op.id.pool && t[e].retirement.None?
        ensures e in Blocking(t, op.id.pool, op.id.nullifiers) <==> Overlap(t[e].nullifiers, op.id.nullifiers)
      {
        OverlapBlocks(t, e, op.id.pool, op.id.nullifiers);
      }
    }
  }

  lemma ApplyEvolves(t: Table, op: Op)
    ensures Evolves(t, Apply(t, op))
  {
  }

  // -------------------------------------------------------------- whole runs

  /** `tables[i]` is the table before the i-th transaction. */
  ghost predicate IsRun(tables: seq<Table>, ops: seq<Op>) {
    && |tables| == |ops| + 1
    && tables[0] == map[]
    && forall i :: 0 <= i < |ops| ==> tables[i + 1] == Apply(tables[i], ops[i])
  }

  lemma {:induction false} RunEvolves(tables: seq<Table>, ops: seq<Op>, i: nat, j: nat)
    requires IsRun(tables, ops) && i <= j < |tables|
    ensures Evolves(tables[i], tables[j])
    decreases j
  {
    if i < j {
      RunEvolves(tables, ops, i, j - 1);
      ApplyEvolves(tables[j - 1], ops[j - 1]);
      assert tables[j] == Apply(tables[j - 1], ops[j - 1]);
    }
  }

  lemma {:induction false} RunKeepsExclusive(tables: seq<Table>, ops: seq<Op>, j: nat)
    requires IsRun(tables, ops) && j < |tables|
    ensures Exclusive(tables[j])
  {
    if j > 0 {
      RunKeepsExclusive(tables, ops, j - 1);
      ApplyKeepsExclusive(tables[j - 1], ops[j - 1]);
      assert tables[j] == Apply(tables[j - 1], ops[j - 1]);
    }
  }

  /** The i-th transaction is a reserving retain that answered `fresh`. */
  ghost predicate FreshClaim(tables: seq<Table>, ops: seq<Op>, i: nat)
    requires IsRun(tables, ops) && i < |ops|
  {
    && ops[i].RetainOp? && ops[i].reserve
    && var r := Retain(tables[i], ops[i].id, true); r.Success? && r.value.1.isFresh
  }

  /** The i-th transaction is a reserving retain that let its caller through, fresh or not. */
  ghost predicate GatePassed(tables: seq<Table>, ops: seq<Op>, i: nat)
    requires IsRun(tables, ops) && i < |ops|
  {
    ops[i].RetainOp? && ops[i].reserve && Retain(tables[i], ops[i].id, true).Success?
  }

  lemma CallClaimedAtMostOnce(tables: seq<Table>, ops: seq<Op>, i: nat, j: nat)
    requires IsRun(tables, ops) && i < j < |ops|
    requires FreshClaim(tables, ops, i) && FreshClaim(tables, ops, j)
    ensures ops[i].id.callHash != ops[j].id.callHash
  {
    assert tables[i + 1] == Apply(tables[i], ops[i]);
    RunEvolves(tables, ops, i + 1, j);
  }

  lemma RetiredStaysUnclaimable(tables: seq<Table>, ops: seq<Op>, i: nat, j: nat, id: Identity, reserve: bool)
    requires IsRun(tables, ops) && i <= j < |tables|
    requires Retired(tables[i], id.callHash)
    ensures Retain(tables[j], id, reserve).Failure?
    ensures id.callHash in tables[j] && tables[j][id.callHash].retirement == tables[i][id.callHash].retirement
  {
    RunEvolves(tables, ops, i, j);
  }

  lemma HashWrittenOnce(tables: seq<Table>, ops: seq<Op>, i: nat, j: nat, c: Hex32)
    requires IsRun(tables, ops) && i <= j < |tables|
    requires c in tables[i] && tables[i][c].hash.Some?
    ensures c in tables[j] && tables[j][c].hash == tables[i][c].hash
  {
    RunEvolves(tables, ops, i, j);
  }

  /** A second claim on a nullifier is possible only after the first claim was retired. */
  lemma ConflictingClaimNeedsRetirement(tables: seq<Table>, ops: seq<Op>, i: nat, j: nat)
    requires IsRun(tables, ops) && i < j < |ops|
    requires FreshClaim(tables, ops, i) && FreshClaim(tables, ops, j)
    requires ops[i].id.pool == ops[j].id.pool && Overlap(ops[i].id.nullifiers, ops[j].id.nullifiers)
    ensures Retired(tables[j], ops[i].id.callHash)
  {
    var c, id := ops[i].id.callHash, ops[j].id;
    assert tables[i + 1] == Apply(tables[i], ops[i]);
    RunEvolves(tables, ops, i + 1, j);
    OverlapBlocks(tables[j], c, id.pool, id.nullifiers);
  }

  // ------------------------------------------------- how far the gate protects

  /** The row a passing caller relies on holds every nullifier the caller presented. */
  predicate Covers(t: Table, id: Identity) {
    id.callHash in t && forall n :: n in id.nullifiers ==> n in t[id.callHash].nullifiers
  }

  /** No other call can be freshly claimed over any presented nullifier. */
  ghost predicate Fenced(t: Table, id: Identity) {
    forall other: Identity :: other.callHash != id.callHash && other.pool == id.pool
                              && Overlap(other.nullifiers, id.nullifiers)
                              ==> var r := Retain(t, other, true); r.Success? ==> !r.value.1.isFresh
  }

  /**
   A caller that passed the gate is fenced exactly when its row covers what it
   presented.  The prior-row query only asks for a shared nullifier, so a
   repeated call that presents more nullifiers than its row holds also passes.
   */
  lemma GateFencesExactlyCovered(t: Table, id: Identity)
    requires Retain(t, id, true).Success?
    ensures var u := Apply(t, RetainOp(id, true));
            id.callHash in u && (Fenced(u, id) <==> Covers(u, id))
  {
    var u := Apply(t, RetainOp(id, true));
    var c := id.callHash;
    if Blocking(t, id.pool, id.nullifiers) != {} { assert c in Blocking(t, id.pool, id.nullifiers); }
    if Covers(u, id) {
      forall other: Identity | other.callHash != c && other.pool == id.pool && Overlap(other.nullifiers, id.nullifiers)
        ensures var r := Retain(u, other, true); r.Success? ==> !r.value.1.isFresh
      {
        var n :| n in other.nullifiers && n in id.nullifiers;
        assert n in u[c].nullifiers;
        assert Shared(u[c].nullifiers, other.nullifiers) != {};
        assert c in Blocking(u, other.pool, other.nullifiers);
      }
    } else {
      var n :| n in id.nullifiers && n !in u[c].nullifiers;
      var d := FreshCall(u.Keys + {c});
      var other := Identity(d, id.pool, id.relayer, [n]);
      forall e | e in u && u[e].pool == id.pool && u[e].retirement.None?
        ensures n !in u[e].nullifiers
      {
        if e != c { OverlapBlocks(t, e, id.pool, id.nullifiers); }
      }
      assert n in other.nullifiers;
      assert Overlap(other.nullifiers, id.nullifiers);
      assert Retain(u, other, true).Success? && Retain(u, other, true).value.1.isFresh;
    }
  }

  /** A call hash outside a finite set. */
  lemma {:induction false} FreshCall(s: set<Hex32>) returns (d: Hex32)
    ensures forall x :: x in s ==> x < d
  {
    if s == {} {
      d := 0;
    } else {
      var y :| y in s;
      d := FreshCall(s - {y});
      d := if y < d then d else y + 1;
      assert forall x :: x in s ==> x in s - {y} || x == y;
    }
  }

  /**
   A run to such a repeat: call 7 is claimed over nullifier 1 and then presented
   with 1 and 2.  A caller that takes the call hash from the call itself never
   does this; `GateExcludesConflicts` is what holds of those.
   */
  lemma UncoveredRepeatPasses()
    ensures var claim, again := Identity(7, 3, 5, [1]), Identity(7, 3, 5, [1, 2]);
            var tables := [map[], Apply(map[], RetainOp(claim, true))];
            && IsRun(tables, [RetainOp(claim, true)])
            && Retain(tables[1], again, true) == Success((tables[1], Retained(false, None)))
            && !Fenced(tables[1], again)
  {
    var id := Identity(7, 3, 5, [1, 2]);
    var t: Table := map[7 := Row(5, 3, [1], None, None)];
    assert Apply(map[], RetainOp(Identity(7, 3, 5, [1]), true)) == t;
    assert 1 in t[7].nullifiers && 1 in id.nullifiers;
    assert Blocking(t, 3, [1, 2]) == {7};
    assert Apply(t, RetainOp(id, true)) == t;
    assert 2 in id.nullifiers && 2 !in t[7].nullifiers;
    GateFencesExactlyCovered(t, id);
  }

  // -------------------------------- exclusion at the gate when calls bind inputs

  /** Every retain presents the pool and nullifiers its call hash commits to. */
  ghost predicate BoundOps(ops: seq<Op>, pools: map<Hex32, Address>, inputs: map<Hex32, seq<Hex32>>) {
    forall i :: 0 <= i < |ops| && !ops[i].RecordOp? ==>
      && ops[i].id.callHash in pools && pools[ops[i].id.callHash] == ops[i].id.pool
      && ops[i].id.callHash in inputs && inputs[ops[i].id.callHash] == ops[i].id.nullifiers
  }

  ghost predicate RowsBound(t: Table, pools: map<Hex32, Address>, inputs: map<Hex32, seq<Hex32>>) {
    forall c :: c in t ==> c in pools && t[c].pool == pools[c] && c in inputs && t[c].nullifiers == inputs[c]
  }

  lemma {:induction false} RunKeepsRowsBound(tables: seq<Table>, ops: seq<Op>, j: nat,
      pools: map<Hex32, Address>, inputs: map<Hex32, seq<Hex32>>)
    requires IsRun(tables, ops) && j < |tables| && BoundOps(ops, pools, inputs)
    ensures RowsBound(tables[j], pools, inputs)
  {
    if j > 0 {
      RunKeepsRowsBound(tables, ops, j - 1, pools, inputs);
      assert tables[j] == Apply(tables[j - 1], ops[j - 1]);
    }
  }

  /**
   Two different calls that share a nullifier of one pool never both pass the
   gate, fresh or repeated, unless the earlier one has been retired in between.
   */
  lemma GateExcludesConflicts(tables: seq<Table>, ops: seq<Op>, i: nat, j: nat,
      pools: map<Hex32, Address>, inputs: map<Hex32, seq<Hex32>>)
    requires IsRun(tables, ops) && i < j < |ops| && BoundOps(ops, pools, inputs)
    requires GatePassed(tables, ops, i) && GatePassed(tables, ops, j)
    requires ops[i].id.callHash != ops[j].id.callHash && ops[i].id.pool == ops[j].id.pool
    requires Overlap(ops[i].id.nullifiers, ops[j].id.nullifiers)
    ensures Retired(tables[j], ops[i].id.callHash)
  {
    var c, id := ops[i].id.callHash, ops[j].id;
    GateFencesExactlyCovered(tables[i], ops[i].id);
    assert tables[i + 1] == Apply(tables[i], ops[i]);
    RunKeepsRowsBound(tables, ops, i + 1, pools, inputs);
    RunEvolves(tables, ops, i + 1, j);
    OverlapBlocks(tables[j], c, id.pool, id.nullifiers);
  }
}
