/**
 The statements can do whatever the tables can: every history of whole
 transactions is an interleaving of their statements.  Together with
 `ExecutionTransactions.InterleavingIsSerializable` this says that the two
 machines have the same histories.
 */
module ExecutionHistories {
  import opened Wrappers
  import opened ExecutionTable
  import opened ExecutionTransactions
  import opened ExecutionProgress

  // ------------------------------------------------------------ sorted nullifiers

  function Inserted(s: seq<Hex32>, x: Hex32): seq<Hex32> {
    if s == [] || x <= s[0] then [x] + s else [s[0]] + Inserted(s[1..], x)
  }

  lemma {:induction false} InsertedIsSorted(s: seq<Hex32>, x: Hex32)
    requires Sorted(s)
    ensures Sorted(Inserted(s, x)) && multiset(Inserted(s, x)) == multiset(s) + multiset{x}
    ensures |Inserted(s, x)| > 0 && Inserted(s, x)[0] == (if s == [] || x <= s[0] then x else s[0])
  {
    if s != [] && x > s[0] {
      InsertedIsSorted(s[1..], x);
      assert s == [s[0]] + s[1..];
      SortedCons(s[0], Inserted(s[1..], x));
    } else {
      SortedCons(x, s);
    }
  }

  lemma SortedCons(x: Hex32, s: seq<Hex32>)
    requires Sorted(s) && (s != [] ==> x <= s[0])
    ensures Sorted([x] + s)
  {
  }

  /** The nullifiers in ascending order. */
  lemma {:induction false} SortOf(ns: seq<Hex32>) returns (sorted: seq<Hex32>)
    ensures Sorted(sorted) && Permutes(sorted, ns) && |sorted| == |ns|
  {
    if ns == [] {
      sorted := [];
    } else {
      var rest := SortOf(ns[1..]);
      InsertedIsSorted(rest, ns[0]);
      sorted := Inserted(rest, ns[0]);
      assert ns == [ns[0]] + ns[1..];
      assert |multiset(sorted)| == |multiset(ns)|;
    }
  }

  // -------------------------------------------------------- one transaction alone

  /** An interleaving, with the transactions it has let through. */
  datatype Story = Story(states: seq<State>, who: seq<nat>, events: seq<Event>)

  ghost predicate Tells(key: LockKey, st: Story, s: State, ops: seq<Op>) {
    IsInterleaving(key, st.states, st.who, st.events) && st.states[|st.events|] == s && History(st.events) == ops
  }

  function More(st: Story, u: State, e: Event): Story {
    Story(st.states + [u], st.who + [0], st.events + [e])
  }

  lemma Tell(key: LockKey, st: Story, s: State, ops: seq<Op>, u: State, e: Event)
    requires Tells(key, st, s, ops) && Step(key, s, u, 0, e)
    ensures Tells(key, More(st, u, e), u, if e.Committed? || e.Repeated? then ops + [e.op] else ops)
  {
    Extend(key, st.states, st.who, st.events, u, 0, e);
    assert (st.events + [e])[..|st.events|] == st.events;
  }

  function Locking(retain: bool, id: Identity, taken: set<int>, waiting: seq<Hex32>): Txn {
    if retain then RetainLocking(id, true, taken, waiting) else RetireLocking(id, taken, waiting)
  }

  /** The transaction alone takes its locks one after the other. */
  lemma {:induction false} TakeAll(key: LockKey, st: Story, rows: Table, ops: seq<Op>, retain: bool, id: Identity, taken: set<int>, waiting: seq<Hex32>)
    returns (more: Story, all: set<int>)
    requires Tells(key, st, State(rows, map[0 := Locking(retain, id, taken, waiting)]), ops)
    ensures Tells(key, more, State(rows, map[0 := Locking(retain, id, all, [])]), ops)
    decreases |waiting|
  {
    if waiting == [] {
      more, all := st, taken;
    } else {
      var s := State(rows, map[0 := Locking(retain, id, taken, waiting)]);
      var u := State(rows, map[0 := Locking(retain, id, taken + {key(id.pool, waiting[0])}, waiting[1..])]);
      assert u.txns == s.txns[0 := u.txns[0]];
      Tell(key, st, s, ops, u, Quiet);
      more, all := TakeAll(key, More(st, u, Quiet), rows, ops, retain, id, taken + {key(id.pool, waiting[0])}, waiting[1..]);
    }
  }

  /** It begins and takes all its locks. */
  lemma LockAll(key: LockKey, st: Story, rows: Table, ops: seq<Op>, retain: bool, id: Identity) returns (more: Story, all: set<int>)
    requires Tells(key, st, State(rows, map[]), ops) && ValidIdentity(id) && (!retain ==> Distinct(id.nullifiers))
    ensures Tells(key, more, State(rows, map[0 := Locking(retain, id, all, [])]), ops)
  {
    var sorted := SortOf(id.nullifiers);
    var u := State(rows, map[0 := Locking(retain, id, {}, sorted)]);
    assert Begin(State(rows, map[]), u, 0);
    Tell(key, st, State(rows, map[]), ops, u, Quiet);
    more, all := TakeAll(key, More(st, u, Quiet), rows, ops, retain, id, {}, sorted);
  }

  /** One more statement of the transaction that is alone. */
  lemma Advance(key: LockKey, st: Story, rows: Table, ops: seq<Op>, w: Txn, v: Txn) returns (more: Story)
    requires Tells(key, st, State(rows, map[0 := w]), ops)
    requires Step(key, State(rows, map[0 := w]), State(rows, map[0 := v]), 0, Quiet)
    ensures Tells(key, more, State(rows, map[0 := v]), ops)
  {
    Tell(key, st, State(rows, map[0 := w]), ops, State(rows, map[0 := v]), Quiet);
    more := More(st, State(rows, map[0 := v]), Quiet);
  }

  lemma RetainRuns(key: LockKey, st: Story, rows: Table, ops: seq<Op>, id: Identity) returns (more: Story)
    requires Tells(key, st, State(rows, map[]), ops)
    requires Retain(rows, id, true).Success?
    ensures Tells(key, more, State(Apply(rows, RetainOp(id, true)), map[]), ops + [RetainOp(id, true)])
  {
    var all;
    more, all := LockAll(key, st, rows, ops, true, id);
    more := Advance(key, more, rows, ops, RetainLocking(id, true, all, []), RetainNotRetired(id, true, all));
    RetainAnswersExactly(rows, id, true);
    var s := State(rows, map[0 := RetainNotRetired(id, true, all)]);
    if Retain(rows, id, true).value.1.isFresh {
      more := Advance(key, more, rows, ops, RetainNotRetired(id, true, all), RetainNoPrior(id, all));
      more := Advance(key, more, rows, ops, RetainNoPrior(id, all), RetainInserted(id, all));
      more := CommitRuns(key, more, rows, ops, RetainInserted(id, all));
    } else {
      var u := State(rows, map[]);
      assert s.txns - {0} == u.txns;
      assert RetainRepeats(s, u, 0);
      Tell(key, more, s, ops, u, Repeated(RetainOp(id, true)));
      more := More(more, u, Repeated(RetainOp(id, true)));
    }
  }

  /** The COMMIT of a transaction that is alone and has written. */
  lemma CommitRuns(key: LockKey, st: Story, rows: Table, ops: seq<Op>, w: Txn) returns (more: Story)
    requires Tells(key, st, State(rows, map[0 := w]), ops) && (w.RetainInserted? || w.RetireWritten? || w.RecordWritten?)
    ensures Tells(key, more, State(Apply(rows, CommittedOp(w)), map[]), ops + [CommittedOp(w)])
  {
    var s := State(rows, map[0 := w]);
    InterleavingKeepsOrder(key, st.states, st.who, st.events, |st.events|);
    var u, e := CommitMoves(s, 0);
    StepRefinesTable(key, s, u, 0, e);
    assert u.txns == map[];
    Tell(key, st, s, ops, u, e);
    more := More(st, u, e);
  }

  lemma RetireRuns(key: LockKey, st: Story, rows: Table, ops: seq<Op>, id: Identity, proof: Proof) returns (more: Story)
    requires Tells(key, st, State(rows, map[]), ops)
    requires Retire(rows, id, Some(proof)).Success? && !Retired(rows, id.callHash)
    ensures Tells(key, more, State(Apply(rows, RetireOp(id, Some(proof))), map[]), ops + [RetireOp(id, Some(proof))])
  {
    var all;
    more, all := LockAll(key, st, rows, ops, false, id);
    var found := if id.callHash in rows then Some(rows[id.callHash]) else None;
    more := Advance(key, more, rows, ops, RetireLocking(id, all, []), RetireSelected(id, all, found));
    more := Advance(key, more, rows, ops, RetireSelected(id, all, found), RetireVerified(id, all, found, proof));
    var row := if found.Some? then found.value.(retirement := Some(proof)) else Row(id.relayer, id.pool, id.nullifiers, None, Some(proof));
    more := Advance(key, more, rows, ops, RetireVerified(id, all, found, proof), RetireWritten(id, all, proof, row));
    more := CommitRuns(key, more, rows, ops, RetireWritten(id, all, proof, row));
  }

  lemma RecordRuns(key: LockKey, st: Story, rows: Table, ops: seq<Op>, c: Hex32, relayer: Address, h: Hex32) returns (more: Story)
    requires Tells(key, st, State(rows, map[]), ops)
    requires RecordSubmission(rows, c, relayer, h).Success?
    ensures Tells(key, more, State(Apply(rows, RecordOp(c, relayer, h)), map[]), ops + [RecordOp(c, relayer, h)])
  {
    var w := RecordWritten(c, relayer, h, rows[c].(hash := Some(h)));
    var u := State(rows, map[0 := w]);
    assert RecordWrites(State(rows, map[]), u, 0);
    Tell(key, st, State(rows, map[]), ops, u, Quiet);
    more := CommitRuns(key, More(st, u, Quiet), rows, ops, w);
  }

  /** The operation lets its caller through or writes; other calls leave no trace in a history. */
  ghost predicate TakesEffect(t: Table, op: Op) {
    match op
    case RetainOp(id, reserve) => reserve && Retain(t, id, true).Success?
    case RetireOp(id, verified) => verified.Some? && Retire(t, id, verified).Success? && !Retired(t, id.callHash)
    case RecordOp(c, r, h) => RecordSubmission(t, c, r, h).Success?
  }

  /** Every history of operations that take effect is an interleaving of their statements, with the same tables. */
  lemma {:induction false} HistoryIsInterleaving(key: LockKey, tables: seq<Table>, ops: seq<Op>) returns (st: Story)
    requires IsRun(tables, ops) && forall i :: 0 <= i < |ops| ==> TakesEffect(tables[i], ops[i])
    ensures Tells(key, st, State(tables[|ops|], map[]), ops)
  {
    if ops == [] {
      st := Story([State(map[], map[])], [], []);
    } else {
      var n := |ops| - 1;
      st := HistoryIsInterleaving(key, tables[..n + 1], ops[..n]);
      assert TakesEffect(tables[n], ops[n]) && tables[n + 1] == Apply(tables[n], ops[n]);
      assert ops[..n] + [ops[n]] == ops;
      match ops[n]
      case RetainOp(id, _) => st := RetainRuns(key, st, tables[n], ops[..n], id);
      case RetireOp(id, verified) => st := RetireRuns(key, st, tables[n], ops[..n], id, verified.value);
      case RecordOp(c, r, h) => st := RecordRuns(key, st, tables[n], ops[..n], c, r, h);
    }
  }
}
