/**
 The order in which retain and retire take their advisory locks: per pool, by
 ascending nullifier.  PostgreSQL is handed a hash of the lock name (pool and
 nullifier), so what is ordered is the name and what is locked is the key.
 */
module AdvisoryLocks {
  import opened ExecutionTable
  import opened ExecutionTransactions

  /** A transaction over nullifiers x and y of the pool asks for key `l` while it holds key `k`. */
  ghost predicate Rises(key: LockKey, p: Address, x: Hex32, y: Hex32, k: int, l: int) {
    x < y && key(p, x) == k && key(p, y) == l && k != l
  }

  /** Some transaction may hold key `k` while it asks for key `l`. */
  ghost predicate Before(key: LockKey, k: int, l: int) {
    exists p: Address, x: Hex32, y: Hex32 :: Rises(key, p, x, y, k, l)
  }

  ghost predicate LeadsOn(key: LockKey, keys: set<int>, k: int) {
    exists l :: l in keys && Before(key, k, l)
  }

  /** A set of keys each of which may be held while another of them is asked for. */
  ghost predicate Ring(key: LockKey, keys: set<int>) {
    keys != {} && forall k :: k in keys ==> LeadsOn(key, keys, k)
  }

  /** The orders of the pools, seen through the hash, run in a circle. */
  ghost predicate Circular(key: LockKey) {
    exists keys: set<int> :: Ring(key, keys)
  }

  // ------------------------------------------------------- when they do not

  /** The keys can be numbered so that every transaction takes them in rising order. */
  ghost predicate Ranked(key: LockKey, rank: int -> nat) {
    forall p: Address, x: Hex32, y: Hex32 :: x < y && key(p, x) != key(p, y) ==> rank(key(p, x)) < rank(key(p, y))
  }

  lemma {:induction false} HighestRank(keys: set<int>, rank: int -> nat) returns (m: int)
    requires keys != {}
    ensures m in keys && forall k :: k in keys ==> rank(k) <= rank(m)
  {
    assert (forall x :: x !in keys) ==> keys == {};
    var x :| x in keys;
    if keys == {x} {
      m := x;
    } else {
      var r := HighestRank(keys - {x}, rank);
      m := if rank(r) < rank(x) then x else r;
      assert forall k :: k in keys ==> k in keys - {x} || k == x;
    }
  }

  lemma RankedIsNotCircular(key: LockKey, rank: int -> nat)
    requires Ranked(key, rank)
    ensures !Circular(key)
  {
    forall keys: set<int> | keys != {}
      ensures !Ring(key, keys)
    {
      var m := HighestRank(keys, rank);
      forall l | Before(key, m, l)
        ensures rank(m) < rank(l)
      {
        var p: Address, x: Hex32, y: Hex32 :| Rises(key, p, x, y, m, l);
      }
      assert !LeadsOn(key, keys, m);
    }
  }

  /** No key serves two pools. */
  ghost predicate PoolsApart(key: LockKey) {
    forall p: Address, q: Address, x: Hex32, y: Hex32 :: key(p, x) == key(q, y) ==> p == q
  }

  /** The outer two share a key that the one between them does not. */
  ghost predicate Separates(key: LockKey, p: Address, x: Hex32, y: Hex32, z: Hex32) {
    key(p, x) == key(p, z) && key(p, y) != key(p, x)
  }

  /** In every pool the nullifiers that share a key are neighbours in the order. */
  ghost predicate Contiguous(key: LockKey) {
    forall p: Address, x: Hex32, y: Hex32, z: Hex32 :: x < y < z ==> !Separates(key, p, x, y, z)
  }

  /** Some nullifier that has the key. */
  ghost function Representative(key: LockKey, k: int): Hex32 {
    if exists p: Address, x: Hex32 :: key(p, x) == k then
      var p: Address, x: Hex32 :| key(p, x) == k; x
    else 0
  }

  lemma ContiguousIsRanked(key: LockKey)
    requires PoolsApart(key) && Contiguous(key)
    ensures Ranked(key, k => Representative(key, k))
  {
    forall p: Address, x: Hex32, y: Hex32 | x < y && key(p, x) != key(p, y)
      ensures Representative(key, key(p, x)) < Representative(key, key(p, y))
    {
      var a := RepresentativeOf(key, p, x);
      var b := RepresentativeOf(key, p, y);
      // the neighbours of x all come before the neighbours of y
      assert b < x < y ==> !Separates(key, p, b, x, y);
      assert x < y < a ==> !Separates(key, p, x, y, a);
      assert x < b < a ==> !Separates(key, p, x, b, a);
    }
  }

  lemma RepresentativeOf(key: LockKey, p: Address, x: Hex32) returns (a: Hex32)
    requires PoolsApart(key)
    ensures a == Representative(key, key(p, x)) && key(p, a) == key(p, x)
  {
    a := Representative(key, key(p, x));
    var q: Address :| key(q, a) == key(p, x);
  }

  lemma SeparatedIsCircular(key: LockKey, p: Address, x: Hex32, y: Hex32, z: Hex32)
    requires x < y < z && Separates(key, p, x, y, z)
    ensures Circular(key)
  {
    var k, l := key(p, x), key(p, y);
    assert Rises(key, p, x, y, k, l);
    assert Rises(key, p, y, z, l, k);
    assert LeadsOn(key, {k, l}, k);
    assert LeadsOn(key, {k, l}, l);
    assert Ring(key, {k, l});
  }

  /** When no key serves two pools, only a separated pair makes a circle. */
  lemma CircularExactlySeparated(key: LockKey)
    requires PoolsApart(key)
    ensures Circular(key) <==> !Contiguous(key)
  {
    if Contiguous(key) {
      ContiguousIsRanked(key);
      RankedIsNotCircular(key, k => Representative(key, k));
    } else {
      var p: Address, x: Hex32, y: Hex32, z: Hex32 :| x < y < z && Separates(key, p, x, y, z);
      SeparatedIsCircular(key, p, x, y, z);
    }
  }

  /** Different lock names have different keys. */
  ghost predicate DistinctKeys(key: LockKey) {
    forall p: Address, q: Address, x: Hex32, y: Hex32 :: key(p, x) == key(q, y) ==> p == q && x == y
  }

  lemma DistinctIsNotCircular(key: LockKey)
    requires DistinctKeys(key)
    ensures !Circular(key)
  {
    assert PoolsApart(key) && Contiguous(key) by {
      forall p: Address, x: Hex32, y: Hex32, z: Hex32 | x < y < z
        ensures !Separates(key, p, x, y, z)
      {
      }
    }
    CircularExactlySeparated(key);
  }
}
