/**
 Waiting among the retain, retire and record transactions: for advisory locks,
 for locked rows and for uncommitted entries of the unique index.  Whether they
 can deadlock depends on the hash of the lock names alone.
 */
module ExecutionProgress {
  import opened Wrappers
  import opened ExecutionTable
  import opened ExecutionTransactions
  import opened AdvisoryLocks

  /** The next statement of `a` waits for `b` to end. */
  ghost predicate WaitsOn(key: LockKey, rows: Table, a: Txn, b: Txn) {
    match a
    case RetainLocking(id, _, _, waiting) => waiting != [] && key(id.pool, waiting[0]) in b.Locks()
    case RetireLocking(id, _, waiting) =>
      if waiting != [] then key(id.pool, waiting[0]) in b.Locks()
      else id.callHash in rows && b.LocksRow(id.callHash)             // SELECT ... FOR UPDATE
    case RetainNoPrior(id, _) => b.LocksRow(id.callHash)              // INSERT
    case RetireVerified(id, _, found, _) => found.None? && b.LocksRow(id.callHash)
    case _ => false
  }

  ghost predicate WaitsWithin(key: LockKey, s: State, group: set<nat>, a: nat)
    requires group <= s.txns.Keys && a in group
  {
    exists b :: b in group && b != a && WaitsOn(key, s.rows, s.txns[a], s.txns[b])
  }

  /** A group of open transactions in which everybody waits for somebody else of the group. */
  ghost predicate Deadlocked(key: LockKey, s: State, group: set<nat>) {
    && group != {} && group <= s.txns.Keys
    && forall a {:trigger WaitsWithin(key, s, group, a)} :: a in group ==> WaitsWithin(key, s, group, a)
  }

  ghost predicate Reachable(key: LockKey, s: State) {
    exists states: seq<State>, who: seq<nat>, events: seq<Event> ::
      IsInterleaving(key, states, who, events) && states[|events|] == s
  }

  ghost predicate DeadlockFree(key: LockKey) {
    forall s: State, group: set<nat> :: Reachable(key, s) ==> !Deadlocked(key, s, group)
  }

  /** Whoever has a row locked waits for nobody. */
  lemma RowHolderNeverWaits(key: LockKey, rows: Table, a: Txn, b: Txn, c: Hex32)
    requires a.LocksRow(c)
    ensures !WaitsOn(key, rows, a, b)
  {
  }

  // ------------------------------------------------------- locks come in order

  ghost predicate TakenBelow(key: LockKey, pool: Address, m: Hex32, k: int, waiting: seq<Hex32>) {
    key(pool, m) == k && forall i :: 0 <= i < |waiting| ==> m <= waiting[i]
  }

  /** What is still to be taken is sorted, and every key taken is that of a nullifier that comes before. */
  ghost predicate TakenInOrder(key: LockKey, pool: Address, taken: set<int>, waiting: seq<Hex32>) {
    Sorted(waiting) && forall k :: k in taken ==> exists m: Hex32 :: TakenBelow(key, pool, m, k, waiting)
  }

  ghost predicate InOrder(key: LockKey, w: Txn) {
    match w
    case RetainLocking(id, _, taken, waiting) => TakenInOrder(key, id.pool, taken, waiting)
    case RetireLocking(id, taken, waiting) => TakenInOrder(key, id.pool, taken, waiting)
    case _ => true
  }

  ghost predicate AllInOrder(key: LockKey, s: State) {
    forall t :: t in s.txns ==> InOrder(key, s.txns[t])
  }

  lemma TakenOneMore(key: LockKey, pool: Address, taken: set<int>, waiting: seq<Hex32>)
    requires TakenInOrder(key, pool, taken, waiting) && waiting != []
    ensures TakenInOrder(key, pool, taken + {key(pool, waiting[0])}, waiting[1..])
  {
    forall k | k in taken + {key(pool, waiting[0])}
      ensures exists m: Hex32 :: TakenBelow(key, pool, m, k, waiting[1..])
    {
      if k in taken {
        var m: Hex32 :| TakenBelow(key, pool, m, k, waiting);
        assert TakenBelow(key, pool, m, k, waiting[1..]);
      } else {
        assert TakenBelow(key, pool, waiting[0], k, waiting[1..]);
      }
    }
  }

  lemma StepKeepsOrder(key: LockKey, s: State, u: State, t: nat, e: Event)
    requires AllInOrder(key, s) && Step(key, s, u, t, e)
    ensures AllInOrder(key, u)
  {
    if e.Quiet? && TakeLock(s, u, t, key) {
      TakenOneMore(key, s.txns[t].id.pool, s.txns[t].taken, s.txns[t].waiting);
      assert InOrder(key, u.txns[t]);
    }
  }

  lemma {:induction false} InterleavingKeepsOrder(key: LockKey, states: seq<State>, who: seq<nat>, events: seq<Event>, i: nat)
    requires IsInterleaving(key, states, who, events) && i <= |events|
    ensures Inv(key, states[i]) && AllInOrder(key, states[i])
  {
    if i > 0 {
      InterleavingKeepsOrder(key, states, who, events, i - 1);
      assert Step(key, states[i - 1], states[i], who[i - 1], events[i - 1]);
      StepKeepsInv(key, states[i - 1], states[i], who[i - 1], events[i - 1]);
      StepKeepsOrder(key, states[i - 1], states[i], who[i - 1], events[i - 1]);
    }
  }

  // ----------------------------------------------------- a deadlock is a ring

  predicate Asks(w: Txn) {
    (w.RetainLocking? || w.RetireLocking?) && w.waiting != []
  }

  ghost function Asked(key: LockKey, w: Txn): int
    requires Asks(w)
  {
    key(w.id.pool, w.waiting[0])
  }

  /** Members of a deadlock wait for advisory locks only. */
  lemma DeadlockedAsk(key: LockKey, s: State, group: set<nat>, a: nat) returns (b: nat)
    requires Deadlocked(key, s, group) && a in group
    ensures Asks(s.txns[a])
    ensures b in group && b != a && Asked(key, s.txns[a]) in s.txns[b].Locks()
  {
    assert WaitsWithin(key, s, group, a);
    b :| b in group && b != a && WaitsOn(key, s.rows, s.txns[a], s.txns[b]);
    assert WaitsWithin(key, s, group, b);
    // somebody who waits has no row locked (RowHolderNeverWaits)
    var c :| c in group && c != b && WaitsOn(key, s.rows, s.txns[b], s.txns[c]);
  }

  lemma HeldBeforeAsked(key: LockKey, w: Txn, k: int)
    requires InOrder(key, w) && Asks(w) && k in w.Locks() && k != Asked(key, w)
    ensures Before(key, k, Asked(key, w))
  {
    var m: Hex32 :| TakenBelow(key, w.id.pool, m, k, w.waiting);
    assert Rises(key, w.id.pool, m, w.waiting[0], k, Asked(key, w));
  }

  lemma DeadlockIsCircular(key: LockKey, s: State, group: set<nat>)
    requires Inv(key, s) && AllInOrder(key, s) && Deadlocked(key, s, group)
    ensures Circular(key)
  {
    var keys: set<int> := set a | a in group && Asks(s.txns[a]) :: Asked(key, s.txns[a]);
    forall k | k in keys
      ensures LeadsOn(key, keys, k)
    {
      var a :| a in group && Asks(s.txns[a]) && Asked(key, s.txns[a]) == k;
      var b := DeadlockedAsk(key, s, group, a);
      var c := DeadlockedAsk(key, s, group, b);
      assert s.txns[b].Locks() !! s.txns[c].Locks();
      HeldBeforeAsked(key, s.txns[b], k);
      assert Asked(key, s.txns[b]) in keys;
    }
    var a :| a in group;
    var b := DeadlockedAsk(key, s, group, a);
    assert Asked(key, s.txns[a]) in keys;
    assert Ring(key, keys);
  }

  // ----------------------------------------------------- a ring is a deadlock

  /** A transaction over two nullifiers of a pool. */
  datatype Pair = Pair(pool: Address, x: Hex32, y: Hex32)

  /** The i-th pair leads to another of the keys. */
  ghost predicate RisesWithin(key: LockKey, keys: set<int>, pairs: seq<Pair>, i: nat)
    requires i < |pairs|
  {
    var e := pairs[i];
    e.x < e.y && key(e.pool, e.x) != key(e.pool, e.y) && key(e.pool, e.y) in keys
  }

  ghost function Start(key: LockKey, e: Pair): int {
    key(e.pool, e.x)
  }

  ghost predicate AllRise(key: LockKey, keys: set<int>, pairs: seq<Pair>) {
    forall i {:trigger RisesWithin(key, keys, pairs, i)} :: 0 <= i < |pairs| ==> RisesWithin(key, keys, pairs, i)
  }

  ghost predicate StartsAt(key: LockKey, pairs: seq<Pair>, i: int, k: int) {
    0 <= i < |pairs| && Start(key, pairs[i]) == k
  }

  ghost predicate NoTwoAlike(key: LockKey, pairs: seq<Pair>) {
    forall i, j, k :: StartsAt(key, pairs, i, k) && StartsAt(key, pairs, j, k) ==> i == j
  }

  /** Every key of the part, and no other, has a pair that starts there. */
  ghost predicate Serves(key: LockKey, part: set<int>, pairs: seq<Pair>) {
    forall k :: k in part <==> exists i :: StartsAt(key, pairs, i, k)
  }

  lemma {:induction false} ChoosePairs(key: LockKey, keys: set<int>, part: set<int>) returns (pairs: seq<Pair>)
    requires Ring(key, keys) && part <= keys
    ensures AllRise(key, keys, pairs) && NoTwoAlike(key, pairs) && Serves(key, part, pairs)
    decreases part
  {
    if part == {} {
      pairs := [];
    } else {
      var k := AnyKey(part);
      var rest := ChoosePairs(key, keys, part - {k});
      assert LeadsOn(key, keys, k);
      var l :| l in keys && Before(key, k, l);
      var p: Address, x: Hex32, y: Hex32 :| Rises(key, p, x, y, k, l);
      pairs := rest + [Pair(p, x, y)];
      AddPair(key, part, rest, Pair(p, x, y));
      forall i | 0 <= i < |pairs|
        ensures RisesWithin(key, keys, pairs, i)
      {
        assert i < |rest| ==> RisesWithin(key, keys, rest, i);
      }
    }
  }

  lemma AnyKey(part: set<int>) returns (k: int)
    requires part != {}
    ensures k in part
  {
    assert (forall x :: x !in part) ==> part == {};
    k :| k in part;
  }

  lemma AddPair(key: LockKey, part: set<int>, rest: seq<Pair>, e: Pair)
    requires Start(key, e) in part && NoTwoAlike(key, rest) && Serves(key, part - {Start(key, e)}, rest)
    ensures NoTwoAlike(key, rest + [e]) && Serves(key, part, rest + [e])
  {
    var pairs := rest + [e];
    assert forall i, k :: StartsAt(key, pairs, i, k) <==> StartsAt(key, rest, i, k) || (i == |rest| && k == Start(key, e));
    assert StartsAt(key, pairs, |rest|, Start(key, e));
    forall k
      ensures k in part <==> exists i :: StartsAt(key, pairs, i, k)
    {
      if k != Start(key, e) {
        assert k in part <==> k in part - {Start(key, e)};
        assert (exists i :: StartsAt(key, rest, i, k)) <==> exists i :: StartsAt(key, pairs, i, k);
      }
    }
  }

  /** A probing retain of both nullifiers that has taken the first lock. */
  ghost function Holding(key: LockKey, e: Pair, t: nat): Txn {
    RetainLocking(Identity(t, e.pool, 0, [e.x, e.y]), false, {Start(key, e)}, [e.y])
  }

  /** The same when it has just begun. */
  function Begun(e: Pair, t: nat): Txn {
    RetainLocking(Identity(t, e.pool, 0, [e.x, e.y]), false, {}, [e.x, e.y])
  }

  ghost function Standoff(key: LockKey, pairs: seq<Pair>, n: nat): State
    requires n <= |pairs|
  {
    State(map[], map t: nat | 0 <= t < n :: Holding(key, pairs[t], t))
  }

  lemma Extend(key: LockKey, states: seq<State>, who: seq<nat>, events: seq<Event>, u: State, t: nat, e: Event)
    requires IsInterleaving(key, states, who, events) && Step(key, states[|events|], u, t, e)
    ensures IsInterleaving(key, states + [u], who + [t], events + [e])
  {
    var more := states + [u];
    forall i | 0 <= i < |events| + 1
      ensures Step(key, more[i], more[i + 1], (who + [t])[i], (events + [e])[i])
    {
      if i < |events| {
        assert Step(key, states[i], states[i + 1], who[i], events[i]);
      }
    }
  }

  /** One transaction after the other begins and takes its first lock. */
  lemma {:induction false} ReachStandoff(key: LockKey, keys: set<int>, pairs: seq<Pair>, n: nat)
    returns (states: seq<State>, who: seq<nat>, events: seq<Event>)
    requires AllRise(key, keys, pairs) && NoTwoAlike(key, pairs) && n <= |pairs|
    ensures IsInterleaving(key, states, who, events) && states[|events|] == Standoff(key, pairs, n)
  {
    if n == 0 {
      states, who, events := [State(map[], map[])], [], [];
    } else {
      states, who, events := ReachStandoff(key, keys, pairs, n - 1);
      assert RisesWithin(key, keys, pairs, n - 1);
      var b := NextBegins(key, pairs, n);
      Extend(key, states, who, events, b, n - 1, Quiet);
      states, who, events := states + [b], who + [n - 1], events + [Quiet];
      NextLocks(key, pairs, n, b);
      Extend(key, states, who, events, Standoff(key, pairs, n), n - 1, Quiet);
      states, who, events := states + [Standoff(key, pairs, n)], who + [n - 1], events + [Quiet];
    }
  }

  lemma NextBegins(key: LockKey, pairs: seq<Pair>, n: nat) returns (b: State)
    requires 1 <= n <= |pairs| && pairs[n - 1].x < pairs[n - 1].y
    ensures b == State(map[], Standoff(key, pairs, n - 1).txns[n - 1 := Begun(pairs[n - 1], n - 1)])
    ensures Step(key, Standoff(key, pairs, n - 1), b, n - 1, Quiet)
  {
    b := State(map[], Standoff(key, pairs, n - 1).txns[n - 1 := Begun(pairs[n - 1], n - 1)]);
    assert Begin(Standoff(key, pairs, n - 1), b, n - 1);
  }

  lemma NextLocks(key: LockKey, pairs: seq<Pair>, n: nat, b: State)
    requires NoTwoAlike(key, pairs) && 1 <= n <= |pairs|
    requires b == State(map[], Standoff(key, pairs, n - 1).txns[n - 1 := Begun(pairs[n - 1], n - 1)])
    ensures Step(key, b, Standoff(key, pairs, n), n - 1, Quiet)
  {
    var e, u := pairs[n - 1], Standoff(key, pairs, n);
    assert [e.x, e.y][1..] == [e.y] && {} + {Start(key, e)} == {Start(key, e)};
    forall o | o in b.txns && o != n - 1
      ensures Start(key, e) !in b.txns[o].Locks()
    {
      assert StartsAt(key, pairs, n - 1, Start(key, e));
      assert StartsAt(key, pairs, o, Start(key, pairs[o]));
    }
    assert u.txns == b.txns[n - 1 := Holding(key, e, n - 1)];
    assert TakeLock(b, u, n - 1, key);
  }

  lemma StandoffIsDeadlocked(key: LockKey, keys: set<int>, pairs: seq<Pair>)
    requires keys != {} && AllRise(key, keys, pairs) && Serves(key, keys, pairs)
    ensures Deadlocked(key, Standoff(key, pairs, |pairs|), Standoff(key, pairs, |pairs|).txns.Keys)
  {
    var s := Standoff(key, pairs, |pairs|);
    forall a | a in s.txns.Keys
      ensures WaitsWithin(key, s, s.txns.Keys, a)
    {
      EveryoneWaits(key, keys, pairs, a);
    }
    var k := AnyKey(keys);
    var i :| StartsAt(key, pairs, i, k);
    assert i in s.txns.Keys;
  }

  lemma EveryoneWaits(key: LockKey, keys: set<int>, pairs: seq<Pair>, a: nat)
    requires AllRise(key, keys, pairs) && Serves(key, keys, pairs) && a < |pairs|
    ensures WaitsWithin(key, Standoff(key, pairs, |pairs|), Standoff(key, pairs, |pairs|).txns.Keys, a)
  {
    var s := Standoff(key, pairs, |pairs|);
    assert RisesWithin(key, keys, pairs, a);
    var l := key(pairs[a].pool, pairs[a].y);
    assert l in keys;
    var b :| StartsAt(key, pairs, b, l);
    assert s.txns[a] == Holding(key, pairs[a], a) && s.txns[b] == Holding(key, pairs[b], b);
    assert WaitsOn(key, s.rows, s.txns[a], s.txns[b]);
  }

  lemma CircularDeadlocks(key: LockKey)
    requires Circular(key)
    ensures !DeadlockFree(key)
  {
    var keys: set<int> :| Ring(key, keys);
    var pairs := ChoosePairs(key, keys, keys);
    var states, who, events := ReachStandoff(key, keys, pairs, |pairs|);
    StandoffIsDeadlocked(key, keys, pairs);
    assert Reachable(key, Standoff(key, pairs, |pairs|));
  }

  /**
   Retain, retire and record never deadlock, however many run at once and
   whatever they wait for, exactly when the orders in which the pools take their
   lock keys do not run in a circle.
   */
  lemma DeadlockFreeExactlyNotCircular(key: LockKey)
    ensures DeadlockFree(key) <==> !Circular(key)
  {
    if Circular(key) {
      CircularDeadlocks(key);
    } else {
      forall s: State, group: set<nat> | Reachable(key, s)
        ensures !Deadlocked(key, s, group)
      {
        ReachableIsInOrder(key, s);
        if Deadlocked(key, s, group) {
          DeadlockIsCircular(key, s, group);
        }
      }
    }
  }

  lemma ReachableIsInOrder(key: LockKey, s: State)
    requires Reachable(key, s)
    ensures Inv(key, s) && AllInOrder(key, s)
  {
    var states: seq<State>, who: seq<nat>, events: seq<Event> :|
      IsInterleaving(key, states, who, events) && states[|events|] == s;
    InterleavingKeepsOrder(key, states, who, events, |events|);
  }

  /** When no key serves two pools: exactly when in each pool the nullifiers that share a key are neighbours. */
  lemma DeadlockFreeExactlyContiguous(key: LockKey)
    requires PoolsApart(key)
    ensures DeadlockFree(key) <==> Contiguous(key)
  {
    DeadlockFreeExactlyNotCircular(key);
    CircularExactlySeparated(key);
  }

  lemma DistinctKeysNeverDeadlock(key: LockKey)
    requires DistinctKeys(key)
    ensures DeadlockFree(key)
  {
    DeadlockFreeExactlyNotCircular(key);
    DistinctIsNotCircular(key);
  }

  // -------------------------------------------------------- everybody can finish

  /** The next statement waits for somebody. */
  ghost predicate Blocked(key: LockKey, s: State, t: nat)
    requires t in s.txns
  {
    WaitsWithin(key, s, s.txns.Keys, t)
  }

  /** The next statement throws, or there is nothing to write. */
  ghost predicate EndsHere(rows: Table, w: Txn) {
    match w
    case RetainLocking(id, _, _, waiting) => waiting == [] && Retired(rows, id.callHash)
    case RetainNotRetired(id, reserve, _) =>
      var prior := Blocking(rows, id.pool, id.nullifiers);
      if prior == {} then !reserve else prior != {id.callHash} || rows[id.callHash].relayer != id.relayer
    case RetainNoPrior(id, _) => id.callHash in rows
    case RetireLocking(id, _, waiting) =>
      waiting == [] && id.callHash in rows && (!Bound(rows[id.callHash], id) || rows[id.callHash].retirement.Some?)
    case RetireVerified(id, _, found, _) => found.None? && id.callHash in rows
    case _ => false
  }

  /** A step of a transaction that is open, and is rolled back only where it has to end. */
  ghost predicate Proceeds(key: LockKey, s: State, u: State, t: nat, e: Event) {
    t in s.txns && Step(key, s, u, t, e) && (e.RolledBack? ==> EndsHere(s.rows, s.txns[t]))
  }

  /** While transactions are open, one of them waits for nobody. */
  lemma SomeoneProceeds(key: LockKey, s: State) returns (t: nat)
    requires !Circular(key) && Reachable(key, s) && s.txns != map[]
    ensures t in s.txns && !Blocked(key, s, t)
  {
    DeadlockFreeExactlyNotCircular(key);
    var group := s.txns.Keys;
    assert group == {} ==> s.txns == map[];
    assert !Deadlocked(key, s, group);
    t :| t in group && !WaitsWithin(key, s, group, t);
  }

  lemma NobodyHolds(key: LockKey, s: State, t: nat)
    requires t in s.txns && !Blocked(key, s, t)
    ensures forall o :: o in s.txns && o != t ==> !WaitsOn(key, s.rows, s.txns[t], s.txns[o])
  {
  }

  /** Whoever waits for nobody has a step. */
  lemma UnblockedMoves(key: LockKey, s: State, t: nat) returns (u: State, e: Event)
    requires Inv(key, s) && t in s.txns && !Blocked(key, s, t)
    ensures Proceeds(key, s, u, t, e)
  {
    NobodyHolds(key, s, t);
    var w := s.txns[t];
    if EndsHere(s.rows, w) {
      u, e := s.(txns := s.txns - {t}), RolledBack;
    } else if w.RetainInserted? || w.RetireWritten? || w.RecordWritten? {
      u, e := CommitMoves(s, t);
    } else if Asks(w) {
      u := LockMoves(key, s, t);
      e := Quiet;
    } else if w.RetainNotRetired? && Blocking(s.rows, w.id.pool, w.id.nullifiers) != {} {
      u, e := s.(txns := s.txns - {t}), Repeated(RetainOp(w.id, w.reserve));
    } else if w.RetainLocking? || w.RetainNotRetired? || w.RetainNoPrior? {
      u := RetainMoves(key, s, t);
      e := Quiet;
    } else {
      u := RetireMoves(key, s, t);
      e := Quiet;
    }
  }

  lemma CommitMoves(s: State, t: nat) returns (u: State, e: Event)
    requires t in s.txns && (s.txns[t].RetainInserted? || s.txns[t].RetireWritten? || s.txns[t].RecordWritten?)
    ensures e == Committed(CommittedOp(s.txns[t])) && Commit(s, u, t)
  {
    e := Committed(CommittedOp(s.txns[t]));
    var rows := match s.txns[t]
      case RetainInserted(id, _) => s.rows[id.callHash := Row(id.relayer, id.pool, id.nullifiers, None, None)]
      case RetireWritten(id, _, _, row) => s.rows[id.callHash := row]
      case RecordWritten(c, _, _, row) => s.rows[c := row];
    u := State(rows, s.txns - {t});
  }

  lemma LockMoves(key: LockKey, s: State, t: nat) returns (u: State)
    requires t in s.txns && Asks(s.txns[t])
    requires forall o :: o in s.txns && o != t ==> !WaitsOn(key, s.rows, s.txns[t], s.txns[o])
    ensures TakeLock(s, u, t, key)
  {
    var w := s.txns[t];
    var taken := w.taken + {Asked(key, w)};
    assert LockFree(s, t, Asked(key, w));
    u := s.(txns := s.txns[t := if w.RetainLocking? then RetainLocking(w.id, w.reserve, taken, w.waiting[1..])
                                else RetireLocking(w.id, taken, w.waiting[1..])]);
  }

  lemma RetainMoves(key: LockKey, s: State, t: nat) returns (u: State)
    requires t in s.txns && !Asks(s.txns[t]) && !EndsHere(s.rows, s.txns[t])
    requires forall o :: o in s.txns && o != t ==> !WaitsOn(key, s.rows, s.txns[t], s.txns[o])
    requires s.txns[t].RetainLocking? || s.txns[t].RetainNoPrior?
             || (s.txns[t].RetainNotRetired? && Blocking(s.rows, s.txns[t].id.pool, s.txns[t].id.nullifiers) == {})
    ensures RetainReads(s, u, t) || RetainInserts(s, u, t)
  {
    var w := s.txns[t];
    u := s.(txns := s.txns[t := if w.RetainLocking? then RetainNotRetired(w.id, w.reserve, w.taken)
                                else if w.RetainNotRetired? then RetainNoPrior(w.id, w.taken)
                                else RetainInserted(w.id, w.taken)]);
  }

  lemma RetireMoves(key: LockKey, s: State, t: nat) returns (u: State)
    requires t in s.txns && !Asks(s.txns[t]) && !EndsHere(s.rows, s.txns[t])
    requires forall o :: o in s.txns && o != t ==> !WaitsOn(key, s.rows, s.txns[t], s.txns[o])
    requires s.txns[t].RetireLocking? || s.txns[t].RetireSelected? || s.txns[t].RetireVerified?
    ensures RetireSelects(s, u, t) || RetireVerifies(s, u, t) || RetireWrites(s, u, t)
  {
    var w := s.txns[t];
    var id := w.id;
    if w.RetireLocking? {
      u := s.(txns := s.txns[t := RetireSelected(id, w.taken, if id.callHash in s.rows then Some(s.rows[id.callHash]) else None)]);
      assert RetireSelects(s, u, t);
    } else if w.RetireSelected? {
      var proof := Proof(id.callHash, id.pool, id.nullifiers, 1, 1);
      u := s.(txns := s.txns[t := RetireVerified(id, w.taken, w.found, proof)]);
      assert RetireVerifies(s, u, t);
    } else {
      var row := if w.found.Some? then w.found.value.(retirement := Some(w.proof))
                 else Row(id.relayer, id.pool, id.nullifiers, None, Some(w.proof));
      u := s.(txns := s.txns[t := RetireWritten(id, w.taken, w.proof, row)]);
      assert RetireWrites(s, u, t);
    }
  }

  /** Statements a transaction has before it, COMMIT included. */
  function StepsLeft(w: Txn): nat {
    match w
    case RetainLocking(_, _, _, waiting) => |waiting| + 4
    case RetainNotRetired(_, _, _) => 3
    case RetainNoPrior(_, _) => 2
    case RetireLocking(_, _, waiting) => |waiting| + 4
    case RetireSelected(_, _, _) => 3
    case RetireVerified(_, _, _, _) => 2
    case _ => 1
  }

  /** The same over the transactions below n. */
  function Work(txns: map<nat, Txn>, n: nat): nat {
    if n == 0 then 0 else Work(txns, n - 1) + (if n - 1 in txns then StepsLeft(txns[n - 1]) else 0)
  }

  lemma StepShortens(key: LockKey, s: State, u: State, t: nat, e: Event)
    requires t in s.txns && Step(key, s, u, t, e)
    ensures u.txns.Keys <= s.txns.Keys && forall o :: o in s.txns && o != t ==> o in u.txns && u.txns[o] == s.txns[o]
    ensures t in u.txns ==> StepsLeft(u.txns[t]) < StepsLeft(s.txns[t])
  {
  }

  lemma {:induction false} WorkFalls(a: map<nat, Txn>, b: map<nat, Txn>, t: nat, n: nat)
    requires t in a && b.Keys <= a.Keys && forall o :: o in a && o != t ==> o in b && b[o] == a[o]
    requires t in b ==> StepsLeft(b[t]) < StepsLeft(a[t])
    ensures Work(b, n) <= Work(a, n) && (t < n ==> Work(b, n) < Work(a, n))
  {
    if n > 0 {
      WorkFalls(a, b, t, n - 1);
    }
  }

  /**
   When the lock orders do not run in a circle, then at any point of any
   interleaving the open transactions can all come to their end by their own
   statements: nobody else need begin, and only those are rolled back whose
   statement throws or that have nothing to write.
   */
  lemma {:induction false} EveryoneCanFinish(key: LockKey, states: seq<State>, who: seq<nat>, events: seq<Event>, n: nat)
    returns (allStates: seq<State>, allWho: seq<nat>, allEvents: seq<Event>)
    requires IsInterleaving(key, states, who, events) && !Circular(key)
    requires forall t :: t in states[|events|].txns ==> t < n
    ensures IsInterleaving(key, allStates, allWho, allEvents)
    ensures states <= allStates && who <= allWho && events <= allEvents
    ensures forall i :: |events| <= i < |allEvents| ==> Proceeds(key, allStates[i], allStates[i + 1], allWho[i], allEvents[i])
    ensures allStates[|allEvents|].txns == map[]
    decreases Work(states[|events|].txns, n)
  {
    var s := states[|events|];
    if s.txns == map[] {
      allStates, allWho, allEvents := states, who, events;
    } else {
      InterleavingKeepsOrder(key, states, who, events, |events|);
      assert Reachable(key, s);
      var t := SomeoneProceeds(key, s);
      var u, e := UnblockedMoves(key, s, t);
      StepShortens(key, s, u, t, e);
      WorkFalls(s.txns, u.txns, t, n);
      Extend(key, states, who, events, u, t, e);
      allStates, allWho, allEvents := EveryoneCanFinish(key, states + [u], who + [t], events + [e], n);
      assert allStates[|events|] == (states + [u])[|events|] && allStates[|events| + 1] == (states + [u])[|events| + 1];
      assert allWho[|events|] == (who + [t])[|events|] && allEvents[|events|] == (events + [e])[|events|];
    }
  }
}
