/**
 What a payout worker talks to: its local journal, the node and the chain.
 Every call is an `await` that may throw or be the last thing the process does,
 and the chain moves before each of them.
 */
module JournalNode {
  import opened Wrappers
  import opened Journal

  type Answer<T> = Result<T, ()>

  /** What an `await` that writes nothing may change: transactions get mined. */
  ghost predicate Watched(a: Ledger, b: Ledger) {
    && Later(a, b) && b.submissions == a.submissions && b.checkpoints == a.checkpoints
    && b.sent == a.sent && b.lost == a.lost
  }

  /** Of a decided step it is known for good whether it succeeded. */
  lemma SuccessIsKnown(a: Ledger, b: Ledger, k: Key)
    requires Decided(a, k) && Watched(a, b)
    ensures Decided(b, k) && (Succeeded(b, k) <==> Succeeded(a, k))
  {
    assert Submissions(b, k) == Submissions(a, k);
  }

  /** While nothing is undecided, nothing gets funded. */
  ghost predicate Rests(a: Ledger, b: Ledger) {
    NothingPending(a) ==> NothingPending(b) && b.fundedBy == a.fundedBy
  }

  /** Whatever is undecided is this transaction. */
  ghost predicate OnlyPending(l: Ledger, h: Hash) {
    && (forall k, x :: x in Submissions(l, k) && x != h ==> OutcomeOf(l, x) != Pending)
    && forall i :: 0 <= i < |l.sent| && l.sent[i].hash != h ==> OutcomeOf(l, l.sent[i].hash) != Pending
  }

  predicate NoWithdrawalPending(l: Ledger) {
    forall i :: 0 <= i < |l.sent| && l.sent[i].key.step == PoolWithdraw ==> OutcomeOf(l, l.sent[i].hash) != Pending
  }

  /** While no withdrawal is undecided, nothing gets funded. */
  ghost predicate FundsNothing(a: Ledger, b: Ledger) {
    NoWithdrawalPending(a) ==> NoWithdrawalPending(b) && b.fundedBy == a.fundedBy
  }

  lemma MinedFundsNothing(l: Ledger, x: Hash, ok: bool)
    ensures FundsNothing(l, Mined(l, x, ok))
  {
    MinedIsLater(l, x, ok);
  }

  lemma SendFundsNothing(before: Ledger, l: Ledger, k: Key, h: Hash)
    requires FundsNothing(Broadcasted(before, k, h), l)
    ensures k.step != PoolWithdraw ==> FundsNothing(before, l) && FundsNothing(before, Journalled(l, k, h)) && FundsNothing(before, l.(lost := true))
  {
  }

  lemma MinedRests(l: Ledger, x: Hash, ok: bool)
    ensures Rests(l, Mined(l, x, ok))
  {
    MinedIsLater(l, x, ok);
    var m := Mined(l, x, ok);
    if NothingPending(l) {
      forall k, h | h in Submissions(m, k)
        ensures OutcomeOf(m, h) != Pending
      {
        assert Decided(l, k) && h in Submissions(l, k);
      }
    }
  }

  lemma CheckpointRests(l: Ledger, k: Key, h: Hash)
    requires Checkpointed(l, k, h).Success?
    ensures Rests(l, Checkpointed(l, k, h).value)
  {
    var m := Checkpointed(l, k, h).value;
    if NothingPending(l) {
      forall o, x | x in Submissions(m, o)
        ensures OutcomeOf(m, x) != Pending
      {
        assert Decided(l, o) && x in Submissions(l, o);
      }
    }
  }

  lemma LastDecided(a: Ledger, b: Ledger, h: Hash)
    requires Watched(a, b) && OnlyPending(a, h) && OutcomeOf(b, h) != Pending
    ensures NothingPending(b)
  {
    assert forall k :: Submissions(b, k) == Submissions(a, k);
  }

  lemma SentIsOnlyPending(before: Ledger, l: Ledger, k: Key, h: Hash)
    requires NothingPending(before) && Watched(Broadcasted(before, k, h), l)
    ensures OnlyPending(Journalled(l, k, h), h)
  {
    var taken, j := Broadcasted(before, k, h), Journalled(l, k, h);
    assert forall x :: OutcomeOf(taken, x) == OutcomeOf(before, x) && OutcomeOf(j, x) == OutcomeOf(l, x);
    forall o, x | x in Submissions(j, o) && x != h
      ensures OutcomeOf(j, x) != Pending
    {
      assert x in Submissions(before, o) && Decided(before, o);
    }
  }

  /** One transaction more was sent, for this step. */
  ghost predicate SentOne(a: Ledger, b: Ledger, k: Key, h: Hash) {
    |b.sent| == |a.sent| + 1 && a.sent <= b.sent && b.sent[|a.sent|].key == k && b.sent[|a.sent|].hash == h
  }

  /** No transaction was decided against. */
  ghost predicate NoneReverted(a: Ledger, b: Ledger) {
    forall h :: OutcomeOf(b, h) == Failed ==> OutcomeOf(a, h) == Failed
  }

  lemma MinedIsWatched(a: Ledger, b: Ledger, x: Hash, ok: bool)
    requires Watched(a, b)
    ensures Watched(a, Mined(b, x, ok))
  {
  }

  /** The chain has decided some transactions, in a calm period none of them against us. */
  ghost predicate ChainMoved(a: Ledger, b: Ledger, calm: bool) {
    Watched(a, b) && FundsNothing(a, b) && (calm ==> NoneReverted(a, b))
  }

  lemma NothingMoves(l: Ledger)
    ensures ChainMoved(l, l, true) && ChainMoved(l, l, false)
  {
  }

  lemma MinedMoves(a: Ledger, b: Ledger, x: Hash, ok: bool, calm: bool)
    requires ChainMoved(a, b, calm) && (calm ==> ok)
    ensures ChainMoved(a, Mined(b, x, ok), calm)
  {
    MinedIsWatched(a, b, x, ok);
    MinedFundsNothing(b, x, ok);
    if calm {
      MinedRevertsNone(b, x);
    }
  }

  lemma MinedRevertsNone(l: Ledger, x: Hash)
    ensures NoneReverted(l, Mined(l, x, true))
  {
  }

  /** A transaction the node has and the journal does not: both continuations are safe. */
  ghost predicate InFlight(l: Ledger, first: Option<Intent>, k: Key, h: Hash) {
    Safe(l.(lost := true), first) && Safe(Journalled(l, k, h), first)
  }

  lemma MinedKeepsInFlight(l: Ledger, first: Option<Intent>, k: Key, h: Hash, x: Hash, ok: bool)
    requires InFlight(l, first, k, h)
    ensures InFlight(Mined(l, x, ok), first, k, h)
  {
    MinedKeepsSafe(l.(lost := true), first, x, ok);
    MinedKeepsSafe(Journalled(l, k, h), first, x, ok);
    assert Mined(l.(lost := true), x, ok) == Mined(l, x, ok).(lost := true);
    assert Mined(Journalled(l, k, h), x, ok) == Journalled(Mined(l, x, ok), k, h);
  }

  lemma SendIsInFlight(l: Ledger, first: Option<Intent>, k: Key, h: Hash)
    requires Safe(l, first) && Unused(l, h) && AllFailed(l, k) && Home(first, k) == k
    ensures InFlight(Broadcasted(l, k, h), first, k, h)
  {
    LostSendKeepsSafe(l, first, k, h);
    JournalledSendKeepsSafe(l, first, k, h);
  }

  /** From before the send to either continuation. */
  lemma InFlightEnds(before: Ledger, taken: Ledger, l: Ledger, first: Option<Intent>, k: Key, h: Hash)
    requires taken == Broadcasted(before, k, h) && Watched(taken, l)
    ensures Later(before, l.(lost := true)) && SentOnly(before, l.(lost := true), {k.step})
    ensures Later(before, Journalled(l, k, h)) && SentOnly(before, Journalled(l, k, h), {k.step})
    ensures h in Submissions(Journalled(l, k, h), k)
    ensures forall o :: o != k ==> Submissions(Journalled(l, k, h), o) == Submissions(before, o)
  {
    assert forall o :: Submissions(taken, o) == Submissions(before, o) && Submissions(l, o) == Submissions(before, o);
    assert forall x :: OutcomeOf(taken, x) == OutcomeOf(before, x);
    var j := Journalled(l, k, h);
    assert forall x :: OutcomeOf(j, x) == OutcomeOf(l, x);
    assert Submissions(j, k) == (if h in Submissions(l, k) then Submissions(l, k) else [h] + Submissions(l, k));
    assert forall o :: o != k ==> Submissions(j, o) == Submissions(l, o);
  }

  lemma StillAlive(before: Ledger, l: Ledger, k: Key, h: Hash)
    requires Unused(before, h) && Watched(Broadcasted(before, k, h), l) && NoneReverted(Broadcasted(before, k, h), l)
    ensures OutcomeOf(Journalled(l, k, h), h) != Failed && Journalled(l, k, h).lost == before.lost
  {
    assert OutcomeOf(Broadcasted(before, k, h), h) == Pending;
  }

  function AllHashes(l: Ledger): set<Hash> {
    l.outcomes.Keys + (set i | 0 <= i < |l.sent| :: l.sent[i].hash) + (set k, h | k in l.submissions && h in l.submissions[k] :: h)
  }

  /** A hash above all of these. */
  method Above(hashes: set<Hash>) returns (h: Hash)
    ensures forall x :: x in hashes ==> x < h
  {
    h := 0;
    var todo := hashes;
    while exists x :: x in todo
      invariant todo <= hashes && forall x :: x in hashes && x !in todo ==> x < h
      decreases |todo|
    {
      var x :| x in todo;
      todo := todo - {x};
      if x >= h { h := x + 1; }
    }
  }

  lemma AboveIsUnused(l: Ledger, h: Hash)
    requires forall x :: x in AllHashes(l) ==> x < h
    ensures Unused(l, h)
  {
    forall x | x in l.outcomes
      ensures x < h
    {
      assert x in AllHashes(l);
    }
    forall i | 0 <= i < |l.sent|
      ensures l.sent[i].hash < h
    {
      assert l.sent[i].hash in AllHashes(l);
    }
    forall k, x | k in l.submissions && x in l.submissions[k]
      ensures x < h
    {
      assert x in AllHashes(l);
    }
  }

  /** The statuses of the first intents, one after the other. */
  function Each(intents: seq<Intent>, statuses: seq<int>): seq<(Intent, int)>
    requires |statuses| <= |intents|
  {
    seq(|statuses|, i requires 0 <= i < |statuses| => (intents[i], statuses[i]))
  }

  lemma EachThen(intents: seq<Intent>, statuses: seq<int>, next: int)
    requires |statuses| < |intents|
    ensures Each(intents, statuses + [next]) == Each(intents, statuses) + [(intents[|statuses|], next)]
  {
  }

  /** Nothing was heard but this, in this order; all of it if `whole`. */
  predicate Heard(before: seq<(Intent, int)>, after: seq<(Intent, int)>, said: seq<(Intent, int)>, whole: bool) {
    before <= after <= before + said && (whole ==> after == before + said)
  }

  lemma HeardThen(a: seq<(Intent, int)>, b: seq<(Intent, int)>, c: seq<(Intent, int)>, x: seq<(Intent, int)>, y: seq<(Intent, int)>, whole: bool)
    requires b == a + x && Heard(b, c, y, whole)
    ensures Heard(a, c, x + y, whole)
  {
    assert b + y == a + (x + y);
  }

  class Node {
    var ledger: Ledger

    /** History: whose status was read, and what it was. */
    var heard: seq<(Intent, int)>

    /** In a calm period no call throws or is cut off, and what gets mined succeeds. */
    const calm: bool

    /** The first intent of a V4 batch; None for the V6 worker. */
    const first: Option<Intent>

    constructor (first: Option<Intent>, calm: bool)
      ensures ledger == EMPTY && heard == [] && this.first == first && this.calm == calm
    {
      this.first, this.calm := first, calm;
      ledger, heard := EMPTY, [];
    }

    /** An `await`: the chain moves, and the call may throw. */
    method Await() returns (r: Answer<()>)
      requires Safe(ledger, first)
      modifies this`ledger
      ensures Safe(ledger, first) && Watched(old(ledger), ledger) && Rests(old(ledger), ledger) && FundsNothing(old(ledger), ledger)
      ensures calm ==> r.Success? && NoneReverted(old(ledger), ledger)
    {
      var n: nat := *;
      ghost var start := ledger;
      NothingMoves(start);
      while n > 0
        invariant Safe(ledger, first) && ChainMoved(start, ledger, calm) && Rests(start, ledger)
      {
        var h: Hash, ok: bool := *, *;
        MinedKeepsSafe(ledger, first, h, ok || calm);
        MinedMoves(start, ledger, h, ok || calm, calm);
        MinedRests(ledger, h, ok || calm);
        ledger := Mined(ledger, h, ok || calm);
        n := n - 1;
      }
      var threw: bool := *;
      return if threw && !calm then Failure(()) else Success(());
    }

    /** Adapter status: whatever the contract says. */
    method ReadAdapterStatus(intent: Intent) returns (r: Answer<int>)
      requires Safe(ledger, first)
      modifies this
      ensures Safe(ledger, first) && Watched(old(ledger), ledger) && Rests(old(ledger), ledger)
      ensures heard == old(heard) + if r.Success? then [(intent, r.value)] else []
      ensures calm ==> r.Success?
    {
      var _ :- Await();
      var status: int := *;
      heard := heard + [(intent, status)];
      return Success(status);
    }

    /** The escrows of a batch are funded together by its withdrawal. */
    method ReadEscrowFunded(batch: Key) returns (r: Answer<bool>)
      requires Safe(ledger, first)
      modifies this`ledger
      ensures Safe(ledger, first) && Watched(old(ledger), ledger)
      ensures r.Success? ==> r.value == (batch in ledger.fundedBy)
      ensures Rests(old(ledger), ledger)
      ensures calm ==> r.Success?
    {
      var _ :- Await();
      return Success(batch in ledger.fundedBy);
    }

    method ReadOutcome(h: Hash) returns (r: Answer<Outcome>)
      requires Safe(ledger, first)
      modifies this`ledger
      ensures Safe(ledger, first) && Watched(old(ledger), ledger)
      ensures r.Success? ==> r.value == OutcomeOf(ledger, h)
      ensures Rests(old(ledger), ledger)
      ensures calm ==> r.Success?
    {
      var _ :- Await();
      return Success(OutcomeOf(ledger, h));
    }

    method RecordCheckpoint(k: Key, h: Hash) returns (r: Answer<()>)
      requires Safe(ledger, first) && h in Submissions(ledger, Home(first, k)) && OutcomeOf(ledger, h) == Successful
      modifies this`ledger
      ensures Safe(ledger, first) && Later(old(ledger), ledger)
      ensures ledger.submissions == old(ledger).submissions && ledger.sent == old(ledger).sent && Rests(old(ledger), ledger)
      ensures ledger.checkpoints == old(ledger).checkpoints || ledger.checkpoints == old(ledger).checkpoints[k := h]
      ensures r.Success? ==> k in ledger.checkpoints && ledger.checkpoints[k] == h
      ensures calm ==> r.Success?
    {
      var _ :- Await();
      // a checkpoint already there cannot name another transaction
      CheckpointKeepsSafe(ledger, first, k, h);
      CheckpointRests(ledger, k, h);
      ledger := Checkpointed(ledger, k, h).value;
      return Success(());
    }

    /** Mined or not, before the journal hears of it. */
    method AwaitInFlight(k: Key, h: Hash)
      requires InFlight(ledger, first, k, h)
      modifies this`ledger
      ensures InFlight(ledger, first, k, h) && Watched(old(ledger), ledger) && FundsNothing(old(ledger), ledger)
      ensures calm ==> NoneReverted(old(ledger), ledger)
    {
      var n: nat := *;
      ghost var start := ledger;
      NothingMoves(start);
      while n > 0
        invariant InFlight(ledger, first, k, h) && ChainMoved(start, ledger, calm)
      {
        var x: Hash, ok: bool := *, *;
        MinedKeepsInFlight(ledger, first, k, h, x, ok || calm);
        MinedMoves(start, ledger, x, ok || calm, calm);
        ledger := Mined(ledger, x, ok || calm);
        n := n - 1;
      }
    }

    /** The hash of a newly signed transaction. */
    method SignedHash() returns (h: Hash)
      ensures calm ==> Unused(ledger, h)
    {
      h := *;
      if calm {
        h := Above(AllHashes(ledger));
        AboveIsUnused(ledger, h);
      }
    }

    /** The node takes the transaction, and the chain moves. */
    method Hand(k: Key, h: Hash)
      requires Safe(ledger, first) && AllFailed(ledger, k) && Home(first, k) == k && Unused(ledger, h)
      modifies this`ledger
      ensures InFlight(ledger, first, k, h)
      ensures var taken := Broadcasted(old(ledger), k, h);
              Watched(taken, ledger) && FundsNothing(taken, ledger) && (calm ==> NoneReverted(taken, ledger))
    {
      SendIsInFlight(ledger, first, k, h);
      ledger := Broadcasted(ledger, k, h);
      AwaitInFlight(k, h);
    }

    /**
     The node takes the transaction, then its hash is journalled.  Cut off in
     between, the send stays unknown to the journal.
     */
    method Submit(k: Key) returns (r: Answer<Hash>)
      requires Safe(ledger, first) && AllFailed(ledger, k) && Home(first, k) == k
      modifies this`ledger
      ensures Safe(ledger, first) && Later(old(ledger), ledger) && SentOnly(old(ledger), ledger, {k.step})
      ensures forall o :: o != k ==> Submissions(ledger, o) == Submissions(old(ledger), o)
      ensures ledger.checkpoints == old(ledger).checkpoints
      ensures r.Success? ==> r.value in Submissions(ledger, k)
      ensures r.Success? ==> SentOne(old(ledger), ledger, k, r.value)
      ensures Follows(old(ledger), ledger, [k])
      ensures calm ==> r.Success? && OutcomeOf(ledger, r.value) != Failed && ledger.lost == old(ledger).lost
      ensures NothingPending(old(ledger)) && r.Success? ==> OnlyPending(ledger, r.value)
      ensures k.step != PoolWithdraw ==> FundsNothing(old(ledger), ledger)
    {
      var _ :- Await();
      var h := SignedHash();
      ghost var before := ledger;
      SilenceFollows(old(ledger), before, [k]);
      if !Unused(ledger, h) { return Failure(()); }
      r := Take(k, h);
      FollowsSame(before, ledger, old(ledger), ledger, [k]);
    }

    method Take(k: Key, h: Hash) returns (r: Answer<Hash>)
      requires Safe(ledger, first) && AllFailed(ledger, k) && Home(first, k) == k && Unused(ledger, h)
      modifies this`ledger
      ensures Safe(ledger, first) && Later(old(ledger), ledger) && SentOnly(old(ledger), ledger, {k.step})
      ensures forall o :: o != k ==> Submissions(ledger, o) == Submissions(old(ledger), o)
      ensures ledger.checkpoints == old(ledger).checkpoints
      ensures r.Success? ==> r.value == h && h in Submissions(ledger, k) && SentOne(old(ledger), ledger, k, h)
      ensures Follows(old(ledger), ledger, [k])
      ensures calm ==> r.Success? && OutcomeOf(ledger, h) != Failed && ledger.lost == old(ledger).lost
      ensures NothingPending(old(ledger)) && r.Success? ==> OnlyPending(ledger, h)
      ensures k.step != PoolWithdraw ==> FundsNothing(old(ledger), ledger)
    {
      ghost var before := ledger;
      Hand(k, h);
      InFlightEnds(before, Broadcasted(before, k, h), ledger, first, k, h);
      SendFundsNothing(before, ledger, k, h);
      OneFollows(before, ledger, k);
      var cutOff: bool := *;
      if cutOff && !calm {
        ledger := ledger.(lost := true);
        return Failure(());
      }
      if calm {
        StillAlive(before, ledger, k, h);
      }
      if NothingPending(before) {
        SentIsOnlyPending(before, ledger, k, h);
      }
      ledger := Journalled(ledger, k, h);
      return Success(h);
    }

    /** Waits for the receipt; only a success is handed back. */
    method AwaitReceipt(h: Hash) returns (r: Answer<()>)
      requires Safe(ledger, first)
      modifies this`ledger
      ensures Safe(ledger, first) && Watched(old(ledger), ledger)
      ensures r.Success? ==> OutcomeOf(ledger, h) == Successful
      ensures FundsNothing(old(ledger), ledger)
      ensures calm && OutcomeOf(old(ledger), h) != Failed ==> r.Success?
    {
      var _ :- Await();
      if calm {
        MinedKeepsSafe(ledger, first, h, true);
        MinedFundsNothing(ledger, h, true);
        ledger := Mined(ledger, h, true);
      }
      if OutcomeOf(ledger, h) != Successful { return Failure(()); }
      return Success(());
    }

    method Broadcast(k: Key) returns (r: Answer<Hash>)
      requires Safe(ledger, first) && AllFailed(ledger, k) && Home(first, k) == k
      modifies this`ledger
      ensures Safe(ledger, first) && Later(old(ledger), ledger) && SentOnly(old(ledger), ledger, {k.step})
      ensures forall o :: o != k ==> Submissions(ledger, o) == Submissions(old(ledger), o)
      ensures ledger.checkpoints == old(ledger).checkpoints
      ensures r.Success? ==> r.value in Submissions(ledger, k) && OutcomeOf(ledger, r.value) == Successful
      ensures r.Success? ==> SentOne(old(ledger), ledger, k, r.value)
      ensures Follows(old(ledger), ledger, [k])
      ensures calm ==> r.Success? && ledger.lost == old(ledger).lost
      ensures NothingPending(old(ledger)) && r.Success? ==> NothingPending(ledger)
      ensures NothingPending(old(ledger)) && k.step != PoolWithdraw ==> ledger.fundedBy == old(ledger).fundedBy
    {
      assert NothingPending(ledger) ==> NoWithdrawalPending(ledger);
      var h :- Submit(k);
      ghost var sent := ledger;
      var _ :- AwaitReceipt(h);
      if OnlyPending(sent, h) {
        LastDecided(sent, ledger, h);
      }
      return Success(h);
    }

    /** Reads outcomes newest first up to the first success; a pending one is an error. */
    method FindSuccess(list: seq<Hash>) returns (r: Answer<Option<Hash>>)
      requires Safe(ledger, first)
      modifies this`ledger
      ensures Safe(ledger, first) && Watched(old(ledger), ledger)
      ensures r == Success(None) ==> forall h :: h in list ==> OutcomeOf(ledger, h) == Failed
      ensures r.Success? && r.value.Some? ==> r.value.value in list && OutcomeOf(ledger, r.value.value) == Successful
      ensures Rests(old(ledger), ledger)
      ensures calm && (forall h :: h in list ==> OutcomeOf(old(ledger), h) != Pending) ==> r.Success?
    {
      for i := 0 to |list|
        invariant Safe(ledger, first) && Watched(old(ledger), ledger) && Rests(old(ledger), ledger)
        invariant forall j :: 0 <= j < i ==> OutcomeOf(ledger, list[j]) == Failed
      {
        var outcome :- ReadOutcome(list[i]);
        if outcome == Pending { return Failure(()); }
        if outcome == Successful { return Success(Some(list[i])); }
      }
      return Success(None);
    }
  }
}
