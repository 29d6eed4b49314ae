/**
 The V4 batch worker: several intents, one shared Pool withdrawal.  The hash of
 a send is journalled intent by intent, so a process cut off in the loop leaves
 it with the first few only; recovery still finds it under the first.
 */
module BatchV4 {
  import opened Wrappers
  import opened Journal
  import opened JournalNode

  datatype Done = AwaitingDownstream | WithdrawalConfirmed

  function W(intent: Intent): Key {
    Key(intent, PoolWithdraw)
  }

  predicate ValidBatch(intents: seq<Intent>) {
    && 2 <= |intents| <= 10
    && forall i, j :: 0 <= i < j < |intents| ==> intents[i] != intents[j]
  }

  /** Whatever is journalled for an intent of the batch is journalled for the first one. */
  ghost predicate FirstKnows(l: Ledger, intents: seq<Intent>) {
    forall i, h :: 0 <= i < |intents| && h in Submissions(l, W(intents[i])) ==> h in Submissions(l, W(intents[0]))
  }

  ghost predicate BatchSafe(l: Ledger, intents: seq<Intent>) {
    ValidBatch(intents) && Safe(l, Some(intents[0])) && FirstKnows(l, intents)
  }

  /** Every withdrawal checkpoint of the batch carries the same hash. */
  lemma CheckpointsAgree(l: Ledger, intents: seq<Intent>, i: nat, j: nat)
    requires BatchSafe(l, intents) && i < |intents| && j < |intents|
    requires W(intents[i]) in l.checkpoints && W(intents[j]) in l.checkpoints
    ensures l.checkpoints[W(intents[i])] == l.checkpoints[W(intents[j])]
  {
  }

  /** A success found under any intent is the one success of the batch. */
  lemma SuccessIsShared(l: Ledger, intents: seq<Intent>, i: nat, g: Hash, h: Hash)
    requires BatchSafe(l, intents) && i < |intents|
    requires g in Submissions(l, W(intents[i])) && OutcomeOf(l, g) == Successful
    requires h in Submissions(l, W(intents[0])) && OutcomeOf(l, h) == Successful
    ensures g == h
  {
    AtMostOneSuccess(l, Some(intents[0]), W(intents[0]), g, h);
  }

  /** Nothing sent, nothing journalled. */
  ghost predicate Quiet(a: Ledger, b: Ledger) {
    Later(a, b) && a.sent == b.sent && a.submissions == b.submissions
  }

  lemma QuietKeepsBatchSafe(a: Ledger, b: Ledger, intents: seq<Intent>)
    requires BatchSafe(a, intents) && Safe(b, Some(intents[0])) && a.submissions == b.submissions
    ensures BatchSafe(b, intents)
  {
    assert forall k :: Submissions(b, k) == Submissions(a, k);
  }

  ghost predicate AllDecided(l: Ledger, intents: seq<Intent>) {
    forall i :: 0 <= i < |intents| ==> Decided(l, W(intents[i]))
  }

  lemma LaterDecided(a: Ledger, b: Ledger, intents: seq<Intent>)
    requires AllDecided(a, intents) && Later(a, b) && (forall i :: 0 <= i < |intents| ==> Submissions(b, W(intents[i])) == Submissions(a, W(intents[i])))
    ensures AllDecided(b, intents)
  {
    forall i | 0 <= i < |intents|
      ensures Decided(b, W(intents[i]))
    {
      assert Decided(a, W(intents[i]));
    }
  }

  /** Records a success found in the journal, locally and then remotely. */
  method Settle(node: Node, ghost intents: seq<Intent>, k: Key, h: Hash) returns (r: Answer<()>)
    requires BatchSafe(node.ledger, intents) && node.first == Some(intents[0])
    requires h in Submissions(node.ledger, Home(node.first, k)) && OutcomeOf(node.ledger, h) == Successful
    modifies node`ledger
    ensures BatchSafe(node.ledger, intents) && Quiet(old(node.ledger), node.ledger)
    ensures forall o :: o != k ==> (o in node.ledger.checkpoints <==> o in old(node.ledger).checkpoints)
    ensures r.Success? ==> k in node.ledger.checkpoints && node.ledger.checkpoints[k] == h
    ensures node.calm ==> r.Success?
  {
    ghost var start := node.ledger;
    r := node.RecordCheckpoint(k, h);
    ghost var recorded := node.ledger;
    QuietKeepsBatchSafe(start, recorded, intents);
    if r.Success? {
      r := node.Await();
      QuietKeepsBatchSafe(recorded, node.ledger, intents);
      QuietTwice(start, recorded, node.ledger);
    }
  }

  /** The journalled submissions of one step, newest first: settled on the first success. */
  method ReplaySubmitted(node: Node, ghost intents: seq<Intent>, k: Key) returns (r: Answer<Option<Hash>>)
    requires BatchSafe(node.ledger, intents) && node.first == Some(intents[0])
    requires k.step == PoolWithdraw ==> k.intent in intents
    modifies node`ledger
    ensures BatchSafe(node.ledger, intents) && Quiet(old(node.ledger), node.ledger)
    ensures forall o :: o != k ==> (o in node.ledger.checkpoints <==> o in old(node.ledger).checkpoints)
    ensures r == Success(None) ==> AllFailed(node.ledger, k)
    ensures r.Success? && r.value.Some? ==>
              r.value.value in Submissions(node.ledger, k) && OutcomeOf(node.ledger, r.value.value) == Successful
    ensures r.Success? && r.value.Some? ==> k in node.ledger.checkpoints
    ensures node.calm && Decided(old(node.ledger), k) ==> r.Success?
  {
    ghost var start := node.ledger;
    var found := LookUp(node, k);
    QuietKeepsBatchSafe(start, node.ledger, intents);
    if found.Failure? { return Failure(()); }
    if found.value.None? { return Success(None); }
    FirstVouches(node.ledger, intents, k, found.value.value);
    var _ :- Settle(node, intents, k, found.value.value);
    return Success(found.value);
  }

  /** Reads the journal of a step and then the outcomes. */
  method LookUp(node: Node, k: Key) returns (r: Answer<Option<Hash>>)
    requires Safe(node.ledger, node.first)
    modifies node`ledger
    ensures Safe(node.ledger, node.first) && Watched(old(node.ledger), node.ledger)
    ensures r == Success(None) ==> AllFailed(node.ledger, k)
    ensures r.Success? && r.value.Some? ==>
              r.value.value in Submissions(node.ledger, k) && OutcomeOf(node.ledger, r.value.value) == Successful
    ensures node.calm && Decided(old(node.ledger), k) ==> r.Success?
  {
    var _ :- node.Await();
    r := node.FindSuccess(Submissions(node.ledger, k));
  }

  lemma FirstVouches(l: Ledger, intents: seq<Intent>, k: Key, h: Hash)
    requires BatchSafe(l, intents) && h in Submissions(l, k) && (k.step == PoolWithdraw ==> k.intent in intents)
    ensures h in Submissions(l, Home(Some(intents[0]), k))
  {
    if k.step == PoolWithdraw {
      var i :| 0 <= i < |intents| && intents[i] == k.intent;
      assert h in Submissions(l, W(intents[i]));
      assert Home(Some(intents[0]), k) == W(intents[0]);
    }
  }

  /** The journal and the checkpoints of withdrawals are as they were. */
  ghost predicate LeavesWithdrawals(a: Ledger, b: Ledger) {
    && (forall k: Key :: k.step == PoolWithdraw ==> Submissions(b, k) == Submissions(a, k))
    && (forall k: Key :: k.step == PoolWithdraw ==> (k in b.checkpoints <==> k in a.checkpoints))
    && (forall k: Key :: k.step == PoolWithdraw && k in a.checkpoints ==> b.checkpoints[k] == a.checkpoints[k])
  }

  /** Journal and checkpoints of every other step are as they were. */
  ghost predicate OthersSame(a: Ledger, b: Ledger, k: Key) {
    && (forall o :: o != k ==> Submissions(b, o) == Submissions(a, o))
    && (forall o :: o != k ==> (o in b.checkpoints <==> o in a.checkpoints))
  }

  lemma OthersLeaveWithdrawals(a: Ledger, b: Ledger, k: Key)
    requires Later(a, b) && OthersSame(a, b, k) && k.step != PoolWithdraw
    ensures LeavesWithdrawals(a, b)
  {
  }

  /** Replays the acceptance from the journal, or sends it when the adapter has not seen it. */
  method ReplayOrAccept(node: Node, ghost intents: seq<Intent>, k: Key, maySendIt: bool) returns (r: Answer<()>)
    requires BatchSafe(node.ledger, intents) && node.first == Some(intents[0]) && k.step == AcceptQuote
    modifies node`ledger
    ensures BatchSafe(node.ledger, intents) && Later(old(node.ledger), node.ledger)
    ensures SentOnly(old(node.ledger), node.ledger, {AcceptQuote})
    ensures !maySendIt ==> node.ledger.sent == old(node.ledger).sent
    ensures Follows(old(node.ledger), node.ledger, [k])
    ensures OthersSame(old(node.ledger), node.ledger, k)
    ensures r.Success? ==> k in node.ledger.checkpoints
    ensures node.calm && Decided(old(node.ledger), k) ==> (r.Success? <==> maySendIt || Succeeded(old(node.ledger), k))
  {
    ghost var start := node.ledger;
    var replayed := ReplaySubmitted(node, intents, k);
    ghost var seen := node.ledger;
    SilenceFollows(start, seen, [k]);
    if replayed.Failure? { return Failure(()); }
    if replayed.value.Some? { return Success(()); }
    if !maySendIt { return Failure(()); }
    r := SendAcceptance(node, intents, k);
    FollowsSame(seen, node.ledger, start, node.ledger, [k]);
  }

  method SendAcceptance(node: Node, ghost intents: seq<Intent>, k: Key) returns (r: Answer<()>)
    requires BatchSafe(node.ledger, intents) && node.first == Some(intents[0]) && k.step == AcceptQuote && AllFailed(node.ledger, k)
    modifies node`ledger
    ensures BatchSafe(node.ledger, intents) && Later(old(node.ledger), node.ledger)
    ensures SentOnly(old(node.ledger), node.ledger, {AcceptQuote})
    ensures Follows(old(node.ledger), node.ledger, [k])
    ensures OthersSame(old(node.ledger), node.ledger, k)
    ensures r.Success? ==> k in node.ledger.checkpoints
    ensures node.calm ==> r.Success?
  {
    ghost var before := node.ledger;
    var sent := node.Broadcast(k);
    ghost var taken := node.ledger;
    AcceptLeavesWithdrawals(before, taken, intents, k);
    if sent.Failure? { return Failure(()); }
    r := Settle(node, intents, k, sent.value);
    FollowsSame(before, taken, before, node.ledger, [k]);
  }

  lemma AcceptLeavesWithdrawals(a: Ledger, b: Ledger, intents: seq<Intent>, k: Key)
    requires BatchSafe(a, intents) && Safe(b, Some(intents[0])) && k.step == AcceptQuote
    requires forall o :: o != k ==> Submissions(b, o) == Submissions(a, o)
    requires b.checkpoints == a.checkpoints
    ensures LeavesWithdrawals(a, b) && BatchSafe(b, intents)
  {
  }

  /** An acceptance that goes through at this status: seen if it has a checkpoint, journalled as a success, or still to be sent. */
  ghost predicate AcceptanceGoes(l: Ledger, intent: Intent, status: int) {
    var k := Key(intent, AcceptQuote);
    0 <= status <= 7 && if k in l.checkpoints then status >= 1 else status < 1 || Succeeded(l, k)
  }

  /** What the status of an intent calls for. */
  function Acceptance(intent: Intent, status: int): seq<Key> {
    if status < 1 then [Key(intent, AcceptQuote)] else []
  }

  function AcceptPlan(intents: seq<Intent>, statuses: seq<int>): seq<Key>
    requires |statuses| <= |intents|
  {
    if statuses == [] then []
    else
      var n := |statuses| - 1;
      AcceptPlan(intents, statuses[..n]) + Acceptance(intents[n], statuses[n])
  }

  lemma AcceptPlanThen(intents: seq<Intent>, statuses: seq<int>, next: int)
    requires |statuses| < |intents|
    ensures AcceptPlan(intents, statuses + [next]) == AcceptPlan(intents, statuses) + Acceptance(intents[|statuses|], next)
  {
    assert (statuses + [next])[..|statuses|] == statuses;
  }

  method EnsureAccepted(node: Node, ghost intents: seq<Intent>, intent: Intent) returns (r: Answer<()>, status: int)
    requires BatchSafe(node.ledger, intents) && node.first == Some(intents[0])
    modifies node
    ensures BatchSafe(node.ledger, intents) && Later(old(node.ledger), node.ledger)
    ensures SentOnly(old(node.ledger), node.ledger, {AcceptQuote})
    ensures Follows(old(node.ledger), node.ledger, Acceptance(intent, status))
    ensures OthersSame(old(node.ledger), node.ledger, Key(intent, AcceptQuote))
    ensures r.Success? ==> Key(intent, AcceptQuote) in node.ledger.checkpoints
    ensures node.calm && Decided(old(node.ledger), Key(intent, AcceptQuote)) ==>
              (r.Success? <==> AcceptanceGoes(old(node.ledger), intent, status))
    ensures Heard(old(node.heard), node.heard, [(intent, status)], r.Success? || node.calm)
  {
    ghost var start := node.ledger;
    var k := Key(intent, AcceptQuote);
    var read := node.ReadAdapterStatus(intent);
    QuietKeepsBatchSafe(start, node.ledger, intents);
    if Decided(start, k) { SuccessIsKnown(start, node.ledger, k); }
    SilenceFollows(start, node.ledger, Acceptance(intent, 0));
    if read.Failure? { return Failure(()), 0; }
    status := read.value;
    ghost var seen := node.ledger;
    r := AcceptAt(node, intents, intent, status);
    FollowsSame(seen, node.ledger, start, node.ledger, Acceptance(intent, status));
  }

  /** The acceptance of an intent whose adapter reads this status. */
  method AcceptAt(node: Node, ghost intents: seq<Intent>, intent: Intent, status: int) returns (r: Answer<()>)
    requires BatchSafe(node.ledger, intents) && node.first == Some(intents[0])
    modifies node`ledger
    ensures BatchSafe(node.ledger, intents) && Later(old(node.ledger), node.ledger)
    ensures SentOnly(old(node.ledger), node.ledger, {AcceptQuote})
    ensures Follows(old(node.ledger), node.ledger, Acceptance(intent, status))
    ensures OthersSame(old(node.ledger), node.ledger, Key(intent, AcceptQuote))
    ensures r.Success? ==> Key(intent, AcceptQuote) in node.ledger.checkpoints
    ensures node.calm && Decided(old(node.ledger), Key(intent, AcceptQuote)) ==>
              (r.Success? <==> AcceptanceGoes(old(node.ledger), intent, status))
  {
    var k := Key(intent, AcceptQuote);
    ghost var start := node.ledger;
    SilenceFollows(start, start, Acceptance(intent, status));
    if status < 0 || status > 7 { return Failure(()); }
    if k in node.ledger.checkpoints {
      // an acceptance the adapter has not seen cannot have a checkpoint
      if status < 1 { return Failure(()); }
      r := node.Await();
      QuietKeepsBatchSafe(start, node.ledger, intents);
      SilenceFollows(start, node.ledger, Acceptance(intent, status));
    } else {
      r := ReplayOrAccept(node, intents, k, status < 1);
      if status >= 1 { SilenceFollows(start, node.ledger, Acceptance(intent, status)); }
    }
  }

  // ------------------------------------------------------ the shared withdrawal

  /** An intent without a checkpoint whose journal misses the hash the others have settled on. */
  predicate Misses(l: Ledger, intent: Intent, h: Hash) {
    W(intent) !in l.checkpoints && h !in Submissions(l, W(intent))
  }

  predicate SettledOn(l: Ledger, intents: seq<Intent>, h: Hash) {
    exists i :: 0 <= i < |intents| && W(intents[i]) in l.checkpoints && l.checkpoints[W(intents[i])] == h
  }

  predicate NoneMisses(l: Ledger, intents: seq<Intent>, h: Hash) {
    forall i :: 0 <= i < |intents| ==> !Misses(l, intents[i], h)
  }

  /** A batch that can no longer be completed by recovery. */
  predicate Stuck(l: Ledger, intents: seq<Intent>) {
    exists i, j :: 0 <= i < |intents| && 0 <= j < |intents|
                   && W(intents[i]) in l.checkpoints && Misses(l, intents[j], l.checkpoints[W(intents[i])])
  }

  predicate HasCheckpoint(l: Ledger, intents: seq<Intent>) {
    exists i :: 0 <= i < |intents| && W(intents[i]) in l.checkpoints
  }

  /** Records the shared hash for every intent, locally and remotely. */
  method RecordForAll(node: Node, intents: seq<Intent>, h: Hash) returns (r: Answer<()>)
    requires BatchSafe(node.ledger, intents) && node.first == Some(intents[0])
    requires h in Submissions(node.ledger, W(intents[0])) && OutcomeOf(node.ledger, h) == Successful
    modifies node`ledger
    ensures BatchSafe(node.ledger, intents) && Quiet(old(node.ledger), node.ledger)
    ensures r.Success? ==> Shared(node.ledger, intents, |intents|, h)
    ensures node.calm ==> r.Success?
  {
    for i := 0 to |intents|
      invariant BatchSafe(node.ledger, intents) && Quiet(old(node.ledger), node.ledger)
      invariant Shared(node.ledger, intents, i, h)
    {
      var _ :- Settle(node, intents, W(intents[i]), h);
    }
    return Success(());
  }

  /** The first n intents have this withdrawal as their checkpoint. */
  predicate Shared(l: Ledger, intents: seq<Intent>, n: nat, h: Hash) {
    forall i :: 0 <= i < n && i < |intents| ==> W(intents[i]) in l.checkpoints && l.checkpoints[W(intents[i])] == h
  }

  /** Every intent has a checkpoint for one and the same withdrawal, which succeeded. */
  ghost predicate Completed(l: Ledger, intents: seq<Intent>) {
    exists h :: Shared(l, intents, |intents|, h) && OutcomeOf(l, h) == Successful
  }

  lemma SharedIsCompleted(l: Ledger, intents: seq<Intent>, h: Hash)
    requires BatchSafe(l, intents) && Shared(l, intents, |intents|, h)
    ensures Completed(l, intents)
  {
  }

  /** Some checkpoint exists: the others follow it if their journals know the hash. */
  method FollowCheckpoint(node: Node, intents: seq<Intent>, shared: Hash) returns (r: Answer<()>)
    requires BatchSafe(node.ledger, intents) && node.first == Some(intents[0])
    requires SettledOn(node.ledger, intents, shared)
    modifies node`ledger
    ensures BatchSafe(node.ledger, intents) && Quiet(old(node.ledger), node.ledger)
    ensures r.Success? ==> NoneMisses(old(node.ledger), intents, shared)
    ensures Stuck(old(node.ledger), intents) ==> r.Failure? && Stuck(node.ledger, intents)
    ensures r.Success? ==> Shared(node.ledger, intents, |intents|, shared)
    // when nothing throws, being stuck is all that can go wrong
    ensures node.calm ==> (r.Success? <==> !Stuck(old(node.ledger), intents))
  {
    ghost var start := node.ledger;
    NothingMissed(start, intents, shared);
    var _ :- JournalsKnow(node, intents, shared);
    SharedVouched(node.ledger, intents, shared);
    r := RecordForAll(node, intents, shared);
  }

  /** Every intent without a checkpoint has journalled the shared hash. */
  method JournalsKnow(node: Node, intents: seq<Intent>, shared: Hash) returns (r: Answer<()>)
    requires BatchSafe(node.ledger, intents) && node.first == Some(intents[0])
    modifies node`ledger
    ensures BatchSafe(node.ledger, intents) && Watched(old(node.ledger), node.ledger)
    ensures Stuck(old(node.ledger), intents) ==> Stuck(node.ledger, intents)
    ensures r.Success? ==> NoneMisses(old(node.ledger), intents, shared)
    ensures node.calm && SettledOn(old(node.ledger), intents, shared) && NoneMisses(old(node.ledger), intents, shared) ==> r.Success?
  {
    ghost var start := node.ledger;
    if SettledOn(start, intents, shared) {
      SharedVouched(start, intents, shared);
    }
    for i := 0 to |intents|
      invariant Safe(node.ledger, node.first) && Watched(start, node.ledger)
      invariant forall k :: 0 <= k < i ==> !Misses(start, intents[k], shared)
    {
      if W(intents[i]) !in node.ledger.checkpoints {
        var outcome := node.ReadOutcome(shared);
        WatchedKeepsStuck(start, node.ledger, intents);
        if outcome.Failure? || shared !in Submissions(node.ledger, W(intents[i])) || outcome.value != Successful {
          return Failure(());
        }
      }
    }
    WatchedKeepsStuck(start, node.ledger, intents);
    return Success(());
  }

  lemma NothingMissed(l: Ledger, intents: seq<Intent>, h: Hash)
    requires BatchSafe(l, intents) && SettledOn(l, intents, h)
    ensures NoneMisses(l, intents, h) <==> !Stuck(l, intents)
  {
    var i :| 0 <= i < |intents| && W(intents[i]) in l.checkpoints && l.checkpoints[W(intents[i])] == h;
    forall j | 0 <= j < |intents| && W(intents[j]) in l.checkpoints
      ensures l.checkpoints[W(intents[j])] == h
    {
      CheckpointsAgree(l, intents, i, j);
    }
  }

  lemma SharedVouched(l: Ledger, intents: seq<Intent>, h: Hash)
    requires BatchSafe(l, intents) && SettledOn(l, intents, h)
    ensures h in Submissions(l, W(intents[0])) && OutcomeOf(l, h) == Successful
  {
  }

  /** Nothing settled: look through every journal for a success. */
  method ReplayAll(node: Node, intents: seq<Intent>) returns (r: Answer<Option<Hash>>)
    requires BatchSafe(node.ledger, intents) && node.first == Some(intents[0])
    modifies node`ledger
    ensures BatchSafe(node.ledger, intents) && Quiet(old(node.ledger), node.ledger)
    ensures r == Success(None) ==> AllFailedFrom(node.ledger, intents, 0)
    ensures r.Success? && r.value.Some? ==>
              r.value.value in Submissions(node.ledger, W(intents[0])) && OutcomeOf(node.ledger, r.value.value) == Successful
    ensures node.calm && AllDecided(old(node.ledger), intents) ==> r.Success?
  {
    var replayed :- ReplayEach(node, intents);
    if replayed == {} { return Success(None); }
    // two different successes cannot be found
    var h :| h in replayed;
    OneSuccess(node.ledger, intents, replayed, h);
    return Success(Some(h));
  }

  /** The successes the journals hold. */
  method ReplayEach(node: Node, intents: seq<Intent>) returns (r: Answer<set<Hash>>)
    requires BatchSafe(node.ledger, intents) && node.first == Some(intents[0])
    modifies node`ledger
    ensures BatchSafe(node.ledger, intents) && Quiet(old(node.ledger), node.ledger)
    ensures r.Success? ==> Findings(node.ledger, intents, |intents|, r.value)
    ensures node.calm && AllDecided(old(node.ledger), intents) ==> r.Success?
  {
    ghost var start := node.ledger;
    var replayed: set<Hash> := {};
    for i := 0 to |intents|
      invariant BatchSafe(node.ledger, intents)
      invariant Replaying(start, node.ledger, intents, i, replayed)
    {
      ghost var before := node.ledger;
      var next := ReplayNext(node, intents, i, replayed);
      QuietTwice(start, before, node.ledger);
      if next.Failure? { return Failure(()); }
      replayed := next.value;
    }
    return Success(replayed);
  }

  /** Between two journals. */
  ghost predicate Replaying(start: Ledger, l: Ledger, intents: seq<Intent>, i: nat, replayed: set<Hash>) {
    && Quiet(start, l) && Findings(l, intents, i, replayed)
    && (AllDecided(start, intents) ==> AllDecided(l, intents))
  }

  lemma QuietTwice(a: Ledger, b: Ledger, c: Ledger)
    requires Quiet(a, b) && Quiet(b, c)
    ensures Quiet(a, c)
  {
  }

  /** One more journal looked through. */
  method ReplayNext(node: Node, intents: seq<Intent>, i: nat, replayed: set<Hash>) returns (r: Answer<set<Hash>>)
    requires BatchSafe(node.ledger, intents) && node.first == Some(intents[0]) && i < |intents|
    requires Findings(node.ledger, intents, i, replayed)
    modifies node`ledger
    ensures BatchSafe(node.ledger, intents) && Quiet(old(node.ledger), node.ledger)
    ensures r.Success? ==> Findings(node.ledger, intents, i + 1, r.value)
    ensures AllDecided(old(node.ledger), intents) ==> AllDecided(node.ledger, intents) && (node.calm ==> r.Success?)
  {
    ghost var before := node.ledger;
    assert AllDecided(before, intents) ==> Decided(before, W(intents[i]));
    var found := ReplaySubmitted(node, intents, W(intents[i]));
    QuietKeepsFindings(before, node.ledger, intents, i, replayed);
    if AllDecided(before, intents) {
      LaterDecided(before, node.ledger, intents);
    }
    if found.Failure? { return Failure(()); }
    if found.value.None? { return Success(replayed); }
    FirstVouches(node.ledger, intents, W(intents[i]), found.value.value);
    return Success(replayed + {found.value.value});
  }

  /** What the first i journals have shown: successes, or else failures only. */
  ghost predicate Findings(l: Ledger, intents: seq<Intent>, i: nat, replayed: set<Hash>) {
    (replayed == {} ==> AllFailedTo(l, intents, i)) && SuccessesOf(l, intents, replayed)
  }

  ghost predicate AllFailedTo(l: Ledger, intents: seq<Intent>, i: nat) {
    forall k :: 0 <= k < i && k < |intents| ==> AllFailed(l, W(intents[k]))
  }

  /** Successes the first intent's journal holds. */
  ghost predicate SuccessesOf(l: Ledger, intents: seq<Intent>, hs: set<Hash>) {
    intents != [] && forall h :: h in hs ==> h in Submissions(l, W(intents[0])) && OutcomeOf(l, h) == Successful
  }

  lemma QuietKeepsFindings(a: Ledger, b: Ledger, intents: seq<Intent>, i: nat, hs: set<Hash>)
    requires Quiet(a, b)
    ensures AllFailedTo(a, intents, i) ==> AllFailedTo(b, intents, i)
    ensures SuccessesOf(a, intents, hs) ==> SuccessesOf(b, intents, hs)
  {
  }

  lemma OneSuccess(l: Ledger, intents: seq<Intent>, hs: set<Hash>, h: Hash)
    requires BatchSafe(l, intents) && SuccessesOf(l, intents, hs) && h in hs
    ensures hs == {h}
  {
  }

  ghost predicate AllFailedFrom(l: Ledger, intents: seq<Intent>, i: nat) {
    forall k :: i <= k < |intents| ==> AllFailed(l, W(intents[k]))
  }

  /** The send, journalled for the first intent. */
  method SubmitShared(node: Node, intents: seq<Intent>) returns (r: Answer<Hash>)
    requires BatchSafe(node.ledger, intents) && node.first == Some(intents[0]) && AllFailedFrom(node.ledger, intents, 0)
    modifies node`ledger
    ensures BatchSafe(node.ledger, intents) && Later(old(node.ledger), node.ledger)
    ensures SentOnly(old(node.ledger), node.ledger, {PoolWithdraw})
    ensures Follows(old(node.ledger), node.ledger, [W(intents[0])])
    ensures r.Success? ==> r.value in Submissions(node.ledger, W(intents[0])) && AllFailedFrom(node.ledger, intents, 1)
    ensures node.calm ==> r.Success? && OutcomeOf(node.ledger, r.value) != Failed
  {
    ghost var start := node.ledger;
    assert AllFailed(start, W(intents[0]));
    r := node.Submit(W(intents[0]));
    forall i, h | 0 <= i < |intents| && h in Submissions(node.ledger, W(intents[i]))
      ensures h in Submissions(node.ledger, W(intents[0]))
    {
      if i > 0 { assert h in Submissions(start, W(intents[i])); }
    }
    forall k | 1 <= k < |intents|
      ensures AllFailed(node.ledger, W(intents[k]))
    {
      assert AllFailed(start, W(intents[k]));
    }
  }

  /** The hash of the send, journalled for a further intent. */
  method JournalAlso(node: Node, intents: seq<Intent>, i: nat, h: Hash) returns (r: Answer<()>)
    requires BatchSafe(node.ledger, intents) && node.first == Some(intents[0]) && 1 <= i < |intents|
    requires h in Submissions(node.ledger, W(intents[0])) && AllFailedFrom(node.ledger, intents, i)
    modifies node`ledger
    ensures BatchSafe(node.ledger, intents) && Later(old(node.ledger), node.ledger)
    ensures node.ledger.sent == old(node.ledger).sent
    ensures h in Submissions(node.ledger, W(intents[0])) && AllFailedFrom(node.ledger, intents, i + 1)
    ensures node.calm && OutcomeOf(old(node.ledger), h) != Failed ==> r.Success? && OutcomeOf(node.ledger, h) != Failed
  {
    ghost var start := node.ledger;
    r := node.Await();
    QuietKeepsBatchSafe(start, node.ledger, intents);
    assert AllFailedFrom(node.ledger, intents, i) by {
      forall k | i <= k < |intents|
        ensures AllFailed(node.ledger, W(intents[k]))
      {
        assert AllFailed(start, W(intents[k]));
      }
    }
    if r.Success? {
      AlsoJournalled(node.ledger, intents, i, h);
      node.ledger := Journalled(node.ledger, W(intents[i]), h);
    }
  }

  lemma AlsoJournalled(l: Ledger, intents: seq<Intent>, i: nat, h: Hash)
    requires BatchSafe(l, intents) && 1 <= i < |intents|
    requires h in Submissions(l, W(intents[0])) && AllFailedFrom(l, intents, i)
    ensures var m := Journalled(l, W(intents[i]), h);
            BatchSafe(m, intents) && Later(l, m) && AllFailedFrom(m, intents, i + 1)
  {
    var m := Journalled(l, W(intents[i]), h);
    assert WasSent(l, Home(Some(intents[0]), W(intents[0])), h);
    AlsoJournalledKeepsSafe(l, Some(intents[0]), W(intents[i]), h);
    forall k | i < k < |intents|
      ensures AllFailed(m, W(intents[k]))
    {
      assert AllFailed(l, W(intents[k]));
    }
  }

  /** Sends the one withdrawal and journals its hash intent by intent before waiting for it. */
  method Withdraw(node: Node, intents: seq<Intent>) returns (r: Answer<Hash>)
    requires BatchSafe(node.ledger, intents) && node.first == Some(intents[0]) && AllFailedFrom(node.ledger, intents, 0)
    modifies node`ledger
    ensures BatchSafe(node.ledger, intents) && Later(old(node.ledger), node.ledger)
    ensures SentOnly(old(node.ledger), node.ledger, {PoolWithdraw})
    ensures Follows(old(node.ledger), node.ledger, [W(intents[0])])
    ensures r.Success? ==>
              r.value in Submissions(node.ledger, W(intents[0])) && OutcomeOf(node.ledger, r.value) == Successful
    ensures node.calm ==> r.Success?
  {
    var h :- SubmitShared(node, intents);
    ghost var submitted := node.ledger;
    var _ :- JournalOthers(node, intents, h);
    ghost var journalled := node.ledger;
    var received := node.AwaitReceipt(h);
    QuietKeepsBatchSafe(journalled, node.ledger, intents);
    FollowsSame(old(node.ledger), submitted, old(node.ledger), node.ledger, [W(intents[0])]);
    return if received.Success? then Success(h) else Failure(());
  }

  /** The hash, journalled for every further intent. */
  method JournalOthers(node: Node, intents: seq<Intent>, h: Hash) returns (r: Answer<()>)
    requires BatchSafe(node.ledger, intents) && node.first == Some(intents[0])
    requires h in Submissions(node.ledger, W(intents[0])) && AllFailedFrom(node.ledger, intents, 1)
    modifies node`ledger
    ensures BatchSafe(node.ledger, intents) && Later(old(node.ledger), node.ledger) && node.ledger.sent == old(node.ledger).sent
    ensures h in Submissions(node.ledger, W(intents[0]))
    ensures node.calm && OutcomeOf(old(node.ledger), h) != Failed ==> r.Success? && OutcomeOf(node.ledger, h) != Failed
  {
    for i := 1 to |intents|
      invariant BatchSafe(node.ledger, intents) && Later(old(node.ledger), node.ledger) && node.ledger.sent == old(node.ledger).sent
      invariant h in Submissions(node.ledger, W(intents[0])) && AllFailedFrom(node.ledger, intents, i)
      invariant node.calm && OutcomeOf(old(node.ledger), h) != Failed ==> OutcomeOf(node.ledger, h) != Failed
    {
      var _ :- JournalAlso(node, intents, i, h);
    }
    return Success(());
  }

  /** No checkpoint yet: take a success from the journals, or send. */
  method ReplayOrWithdraw(node: Node, intents: seq<Intent>) returns (r: Answer<()>)
    requires BatchSafe(node.ledger, intents) && node.first == Some(intents[0])
    modifies node`ledger
    ensures BatchSafe(node.ledger, intents) && Later(old(node.ledger), node.ledger)
    ensures SentOnly(old(node.ledger), node.ledger, {PoolWithdraw})
    ensures Follows(old(node.ledger), node.ledger, [W(intents[0])])
    ensures r.Success? ==> Completed(node.ledger, intents)
    ensures node.calm && AllDecided(old(node.ledger), intents) ==> r.Success?
  {
    ghost var start := node.ledger;
    var replayed := ReplayAll(node, intents);
    ghost var seen := node.ledger;
    SilenceFollows(start, seen, [W(intents[0])]);
    if replayed.Failure? { return Failure(()); }
    var h;
    if replayed.value.Some? {
      h := replayed.value.value;
    } else {
      var sent := Withdraw(node, intents);
      FollowsSame(seen, node.ledger, start, node.ledger, [W(intents[0])]);
      if sent.Failure? { return Failure(()); }
      h := sent.value;
    }
    ghost var settled := node.ledger;
    r := RecordForAll(node, intents, h);
    FollowsSame(start, settled, start, node.ledger, [W(intents[0])]);
    if r.Success? {
      SharedIsCompleted(node.ledger, intents, h);
    }
  }

  /** The position of the first checkpoint of the batch, or its length. */
  method FindCheckpoint(l: Ledger, intents: seq<Intent>) returns (i: nat)
    ensures i <= |intents|
    ensures forall k :: 0 <= k < i ==> W(intents[k]) !in l.checkpoints
    ensures i < |intents| ==> W(intents[i]) in l.checkpoints
  {
    i := 0;
    while i < |intents| && W(intents[i]) !in l.checkpoints
      invariant i <= |intents|
      invariant forall k :: 0 <= k < i ==> W(intents[k]) !in l.checkpoints
    {
      i := i + 1;
    }
  }

  /**
   The shared withdrawal, given the statuses just read.  It is sent only over
   failures, and a batch that is stuck stays so and sends nothing.  When nothing
   throws, a batch with a checkpoint is completed exactly when it is not stuck, and
   one without is completed once its journalled sends are decided.
   */
  method EnsureSharedWithdrawal(node: Node, intents: seq<Intent>, ghost statuses: seq<int>) returns (r: Answer<()>)
    requires BatchSafe(node.ledger, intents) && node.first == Some(intents[0])
    requires AllRead1(statuses, intents)
    modifies node`ledger
    ensures BatchSafe(node.ledger, intents) && Later(old(node.ledger), node.ledger)
    ensures SentOnly(old(node.ledger), node.ledger, {PoolWithdraw})
    ensures Follows(old(node.ledger), node.ledger, [W(intents[0])])
    ensures Stuck(old(node.ledger), intents) ==>
              r.Failure? && Stuck(node.ledger, intents) && node.ledger.sent == old(node.ledger).sent
    ensures r.Success? ==> Completed(node.ledger, intents)
    ensures node.calm && HasCheckpoint(old(node.ledger), intents) ==> (r.Success? <==> !Stuck(old(node.ledger), intents))
    ensures node.calm && AllDecided(old(node.ledger), intents) ==> (r.Success? <==> !Stuck(old(node.ledger), intents))
  {
    ghost var start := node.ledger;
    var read := node.Await();
    QuietKeepsBatchSafe(start, node.ledger, intents);
    assert Stuck(start, intents) <==> Stuck(node.ledger, intents);
    ghost var seen := node.ledger;
    SilenceFollows(start, seen, [W(intents[0])]);
    if read.Failure? { return Failure(()); }
    if AllDecided(start, intents) {
      LaterDecided(start, node.ledger, intents);
    }
    var i := FindCheckpoint(node.ledger, intents);
    if i < |intents| {
      // every other checkpoint of the batch names the same hash (CheckpointsAgree)
      var shared := node.ledger.checkpoints[W(intents[i])];
      r := FollowCheckpoint(node, intents, shared);
      SilenceFollows(start, node.ledger, [W(intents[0])]);
      if r.Success? {
        SharedIsCompleted(node.ledger, intents, shared);
      }
    } else {
      r := ReplayOrWithdraw(node, intents);
      FollowsSame(seen, node.ledger, start, node.ledger, [W(intents[0])]);
    }
  }

  /** The statuses one after the other, up to the first that is none. */
  method ReadStatuses(node: Node, intents: seq<Intent>) returns (r: Answer<seq<int>>, read: seq<int>)
    requires BatchSafe(node.ledger, intents) && node.first == Some(intents[0])
    modifies node
    ensures BatchSafe(node.ledger, intents) && Watched(old(node.ledger), node.ledger)
    ensures r.Success? ==> |r.value| == |intents| && forall i :: 0 <= i < |intents| ==> 0 <= r.value[i] <= 7
    ensures r.Success? ==> r.value == read
    ensures node.calm ==> (r.Success? <==> forall i :: 0 <= i < |read| ==> 0 <= read[i] <= 7)
    ensures |read| <= |intents| && node.heard == old(node.heard) + Each(intents, read)
    ensures AllRead1(read, intents) ==> r.Success?
  {
    ghost var start, heard := node.ledger, node.heard;
    read := [];
    for i := 0 to |intents|
      invariant |read| <= |intents| && node.heard == heard + Each(intents, read)
      invariant Safe(node.ledger, node.first) && Watched(start, node.ledger)
      invariant |read| == i && forall k :: 0 <= k < i ==> 0 <= read[k] <= 7
    {
      var status := node.ReadAdapterStatus(intents[i]);
      WatchedKeepsStuck(start, node.ledger, intents);
      if status.Failure? { r := Failure(()); return; }
      EachThen(intents, read, status.value);
      read := read + [status.value];
      if status.value < 0 || status.value > 7 {
        assert !(0 <= read[i] <= 7);
        r := Failure(());
        return;
      }
    }
    WatchedKeepsStuck(start, node.ledger, intents);
    r := Success(read);
  }

  lemma WatchedKeepsStuck(a: Ledger, b: Ledger, intents: seq<Intent>)
    requires BatchSafe(a, intents) && Watched(a, b) && Safe(b, Some(intents[0]))
    ensures BatchSafe(b, intents) && (Stuck(a, intents) ==> Stuck(b, intents))
  {
  }

  predicate AtLeast(statuses: seq<int>, x: int) {
    forall i :: 0 <= i < |statuses| ==> statuses[i] >= x
  }

  /** The first n intents have a checkpoint for their acceptance. */
  ghost predicate Accepted(l: Ledger, intents: seq<Intent>, n: nat) {
    forall i :: 0 <= i < n && i < |intents| ==> Key(intents[i], AcceptQuote) in l.checkpoints
  }

  lemma LaterAccepted(a: Ledger, b: Ledger, intents: seq<Intent>, n: nat)
    requires Accepted(a, intents, n) && Later(a, b) && n < |intents| && Key(intents[n], AcceptQuote) in b.checkpoints
    ensures Accepted(b, intents, n + 1)
  {
  }

  /** Every acceptance the run looked at goes through. */
  ghost predicate AcceptancesGo(l: Ledger, intents: seq<Intent>, statuses: seq<int>) {
    forall i :: 0 <= i < |statuses| && i < |intents| ==> AcceptanceGoes(l, intents[i], statuses[i])
  }

  ghost predicate AcceptancesDecided(l: Ledger, intents: seq<Intent>) {
    forall i :: 0 <= i < |intents| ==> Decided(l, Key(intents[i], AcceptQuote))
  }

  /** What is known of an acceptance that was not touched. */
  ghost predicate SameAcceptance(a: Ledger, b: Ledger, intent: Intent) {
    var k := Key(intent, AcceptQuote);
    && Submissions(b, k) == Submissions(a, k) && (k in b.checkpoints <==> k in a.checkpoints)
    && (Decided(a, k) ==> Decided(b, k) && (Succeeded(b, k) <==> Succeeded(a, k)))
  }

  ghost predicate SameAcceptancesFrom(a: Ledger, b: Ledger, intents: seq<Intent>, i: nat) {
    forall j :: i <= j < |intents| ==> SameAcceptance(a, b, intents[j])
  }

  lemma NextAcceptance(start: Ledger, a: Ledger, b: Ledger, intents: seq<Intent>, i: nat)
    requires ValidBatch(intents) && i < |intents| && SameAcceptancesFrom(start, a, intents, i)
    requires Later(a, b) && OthersSame(a, b, Key(intents[i], AcceptQuote))
    ensures SameAcceptancesFrom(start, b, intents, i + 1)
  {
    forall j | i + 1 <= j < |intents|
      ensures SameAcceptance(start, b, intents[j])
    {
      assert SameAcceptance(start, a, intents[j]) && intents[i] != intents[j];
    }
  }

  /** Every intent accepted, one after the other; `statuses` ends with the one that stopped the run. */
  method AcceptAll(node: Node, intents: seq<Intent>) returns (r: Answer<()>, statuses: seq<int>)
    requires BatchSafe(node.ledger, intents) && node.first == Some(intents[0])
    modifies node
    ensures BatchSafe(node.ledger, intents) && Later(old(node.ledger), node.ledger)
    ensures SentOnly(old(node.ledger), node.ledger, {AcceptQuote})
    ensures LeavesWithdrawals(old(node.ledger), node.ledger)
    ensures r.Success? ==> |statuses| == |intents| && Accepted(node.ledger, intents, |intents|)
    ensures node.calm && AcceptancesDecided(old(node.ledger), intents) ==>
              (r.Success? <==> AcceptancesGo(old(node.ledger), intents, statuses))
    ensures |statuses| <= |intents| && Follows(old(node.ledger), node.ledger, AcceptPlan(intents, statuses))
    ensures Heard(old(node.heard), node.heard, Each(intents, statuses), r.Success? || node.calm)
  {
    ghost var start, heard := node.ledger, node.heard;
    statuses := [];
    SilenceFollows(start, start, []);
    for i := 0 to |intents|
      invariant BatchSafe(node.ledger, intents) && |statuses| == i
      invariant Accepting(start, node.ledger, intents, statuses)
      invariant Accepted(node.ledger, intents, i)
      invariant SameAcceptancesFrom(start, node.ledger, intents, i)
      invariant node.calm && AcceptancesDecided(start, intents) ==> AcceptancesGo(start, intents, statuses)
      invariant node.heard == heard + Each(intents, statuses)
    {
      ghost var before, middle := node.ledger, node.heard;
      assert SameAcceptance(start, before, intents[i]);
      var status;
      r, status := EnsureAccepted(node, intents, intents[i]);
      GoesThen(start, before, intents, statuses, status);
      AcceptingThen(start, before, node.ledger, intents, statuses, status);
      HeardThen(heard, middle, node.heard, Each(intents, statuses), [(intents[i], status)], r.Success? || node.calm);
      EachThen(intents, statuses, status);
      statuses := statuses + [status];
      if r.Failure? { return; }
      LaterAccepted(before, node.ledger, intents, i);
      NextAcceptance(start, before, node.ledger, intents, i);
    }
    r := Success(());
  }

  /** Between two acceptances: nothing but the acceptances called for was sent, and no withdrawal was touched. */
  ghost predicate Accepting(a: Ledger, b: Ledger, intents: seq<Intent>, statuses: seq<int>) {
    && Later(a, b) && SentOnly(a, b, {AcceptQuote}) && LeavesWithdrawals(a, b)
    && |statuses| <= |intents| && Follows(a, b, AcceptPlan(intents, statuses))
  }

  lemma AcceptingThen(start: Ledger, a: Ledger, b: Ledger, intents: seq<Intent>, statuses: seq<int>, status: int)
    requires Accepting(start, a, intents, statuses) && |statuses| < |intents|
    requires Later(a, b) && SentOnly(a, b, {AcceptQuote}) && OthersSame(a, b, Key(intents[|statuses|], AcceptQuote))
    requires Follows(a, b, Acceptance(intents[|statuses|], status))
    ensures Accepting(start, b, intents, statuses + [status])
  {
    OthersLeaveWithdrawals(a, b, Key(intents[|statuses|], AcceptQuote));
    FollowsThen(start, a, b, AcceptPlan(intents, statuses), Acceptance(intents[|statuses|], status));
    AcceptPlanThen(intents, statuses, status);
  }

  /** Whether one more acceptance goes through is settled by the ledger at the start. */
  lemma GoesThen(start: Ledger, before: Ledger, intents: seq<Intent>, statuses: seq<int>, status: int)
    requires |statuses| < |intents| && SameAcceptance(start, before, intents[|statuses|])
    ensures AcceptancesDecided(start, intents) ==> Decided(before, Key(intents[|statuses|], AcceptQuote))
    ensures AcceptancesDecided(start, intents) && AcceptancesGo(start, intents, statuses) ==>
              (AcceptancesGo(start, intents, statuses + [status]) <==> AcceptanceGoes(before, intents[|statuses|], status))
  {
    var i, all := |statuses|, statuses + [status];
    if AcceptancesDecided(start, intents) {
      assert Decided(start, Key(intents[i], AcceptQuote));
      assert all[i] == status;
      assert AcceptanceGoes(start, intents[i], status) <==> AcceptanceGoes(before, intents[i], status);
    }
  }

  /** What decides the fate of the withdrawal is not touched by acceptances. */
  lemma WithdrawalsUntouched(a: Ledger, b: Ledger, intents: seq<Intent>)
    requires LeavesWithdrawals(a, b) && Later(a, b)
    ensures Stuck(a, intents) <==> Stuck(b, intents)
    ensures HasCheckpoint(a, intents) <==> HasCheckpoint(b, intents)
    ensures AllDecided(a, intents) ==> AllDecided(b, intents)
  {
    assert forall i, h :: 0 <= i < |intents| ==> Misses(a, intents[i], h) == Misses(b, intents[i], h);
    if AllDecided(a, intents) {
      LaterDecided(a, b, intents);
    }
  }

  predicate AllWithin(read: seq<int>, n: nat, low: int, high: int) {
    |read| == n && forall i :: 0 <= i < |read| ==> low <= read[i] <= high
  }

  /** The first reading: done already, impossible, or every status below 2. */
  method FirstReading(node: Node, intents: seq<Intent>) returns (r: Answer<Option<Done>>, initial: seq<int>)
    requires BatchSafe(node.ledger, intents) && node.first == Some(intents[0])
    modifies node
    ensures BatchSafe(node.ledger, intents) && Watched(old(node.ledger), node.ledger)
    ensures r.Success? && r.value.Some? ==> r.value.value == AwaitingDownstream && AllWithin(initial, |intents|, 2, 7)
    ensures r == Success(None) ==> AllWithin(initial, |intents|, 0, 1)
    ensures node.calm ==> (r.Success? <==> AllWithin(initial, |intents|, 2, 7) || AllWithin(initial, |intents|, 0, 1))
    ensures |initial| <= |intents| && node.heard == old(node.heard) + Each(intents, initial)
  {
    var reading;
    reading, initial := ReadStatuses(node, intents);
    if reading.Failure? { r := Failure(()); return; }
    if AtLeast(initial, 2) { r := Success(Some(AwaitingDownstream)); return; }
    if exists i :: 0 <= i < |initial| && initial[i] >= 2 { r := Failure(()); return; }
    var claimed := ClaimBundle(node, intents);
    r := if claimed.Success? then Success(None) else Failure(());
  }

  /** The authorities are claimed and the bundle is validated. */
  method ClaimBundle(node: Node, ghost intents: seq<Intent>) returns (r: Answer<()>)
    requires BatchSafe(node.ledger, intents) && node.first == Some(intents[0])
    modifies node`ledger
    ensures BatchSafe(node.ledger, intents) && Watched(old(node.ledger), node.ledger)
    ensures node.calm ==> r.Success?
  {
    r := node.Await();
    WatchedKeepsStuck(old(node.ledger), node.ledger, intents);
  }

  predicate AllRead1(read: seq<int>, intents: seq<Intent>) {
    |read| == |intents| && forall i :: 0 <= i < |read| ==> read[i] == 1
  }

  /** The statuses a run reads: at first, at each acceptance, and again after them. */
  datatype Readings = Readings(initial: seq<int>, accepting: seq<int>, again: seq<int>)

  /** The readings are what the adapter said of the batch's intents, in this order. */
  predicate HeardInRun(before: seq<(Intent, int)>, after: seq<(Intent, int)>, intents: seq<Intent>, read: Readings, whole: bool) {
    && |read.initial| <= |intents| && |read.accepting| <= |intents| && |read.again| <= |intents|
    && Heard(before, after, Each(intents, read.initial) + (Each(intents, read.accepting) + Each(intents, read.again)), whole)
  }

  /** Acceptance is reached, and every acceptance goes through. */
  ghost predicate GetsAccepted(l: Ledger, intents: seq<Intent>, read: Readings) {
    AllWithin(read.initial, |intents|, 0, 1) && |read.accepting| == |intents| && AcceptancesGo(l, intents, read.accepting)
  }

  /** Everything before the withdrawal: statuses, authorities, acceptances, statuses again. */
  method AcceptPhase(node: Node, intents: seq<Intent>) returns (r: Answer<Option<Done>>, read: Readings)
    requires BatchSafe(node.ledger, intents) && node.first == Some(intents[0])
    modifies node
    ensures BatchSafe(node.ledger, intents) && Later(old(node.ledger), node.ledger)
    ensures SentOnly(old(node.ledger), node.ledger, {AcceptQuote})
    ensures LeavesWithdrawals(old(node.ledger), node.ledger)
    ensures |read.accepting| <= |intents| && Follows(old(node.ledger), node.ledger, AcceptPlan(intents, read.accepting))
    ensures HeardInRun(old(node.heard), node.heard, intents, read, r.Success? || node.calm)
    ensures r.Success? && r.value.Some? ==> r.value.value == AwaitingDownstream
    ensures r == Success(None) <==> AllRead1(read.again, intents)
    ensures node.calm && AcceptancesDecided(old(node.ledger), intents) ==>
              var through := GetsAccepted(old(node.ledger), intents, read);
              && (r.Success? && r.value.Some? <==> AllWithin(read.initial, |intents|, 2, 7) || (through && AllWithin(read.again, |intents|, 2, 7)))
              && (r == Success(None) <==> through && AllRead1(read.again, intents))
  {
    ghost var start, heard := node.ledger, node.heard;
    var initial;
    r, initial := FirstReading(node, intents);
    read := Readings(initial, [], []);
    NotBoth(initial, |intents|);
    SilenceFollows(start, node.ledger, []);
    if r.Failure? || r.value.Some? { return; }
    ghost var middle, between := node.ledger, node.heard;
    SameAfterReading(start, middle, intents);
    var accepting, again;
    r, accepting, again := AcceptThenRead(node, intents);
    FollowsSame(middle, node.ledger, start, node.ledger, AcceptPlan(intents, accepting));
    HeardThen(heard, between, node.heard, Each(intents, initial), Each(intents, accepting) + Each(intents, again), r.Success? || node.calm);
    SameGoes(start, middle, intents, accepting);
    read := Readings(initial, accepting, again);
  }

  lemma NotBoth(statuses: seq<int>, n: nat)
    requires n > 0
    ensures !(AllWithin(statuses, n, 0, 1) && AllWithin(statuses, n, 2, 7))
  {
    if |statuses| == n {
      assert statuses[0] <= 1 || statuses[0] >= 2;
    }
  }

  /** The acceptances, and the statuses after them. */
  method AcceptThenRead(node: Node, intents: seq<Intent>) returns (r: Answer<Option<Done>>, accepting: seq<int>, again: seq<int>)
    requires BatchSafe(node.ledger, intents) && node.first == Some(intents[0])
    modifies node
    ensures BatchSafe(node.ledger, intents) && Later(old(node.ledger), node.ledger)
    ensures SentOnly(old(node.ledger), node.ledger, {AcceptQuote})
    ensures LeavesWithdrawals(old(node.ledger), node.ledger)
    ensures |accepting| <= |intents| && Follows(old(node.ledger), node.ledger, AcceptPlan(intents, accepting))
    ensures |again| <= |intents| && Heard(old(node.heard), node.heard, Each(intents, accepting) + Each(intents, again), r.Success? || node.calm)
    ensures r.Success? && r.value.Some? ==> r.value.value == AwaitingDownstream
    ensures r == Success(None) <==> AllRead1(again, intents)
    ensures node.calm && AcceptancesDecided(old(node.ledger), intents) ==>
              var through := |accepting| == |intents| && AcceptancesGo(old(node.ledger), intents, accepting);
              && (r.Success? && r.value.Some? <==> through && AllWithin(again, |intents|, 2, 7))
              && (r == Success(None) <==> through && AllRead1(again, intents))
  {
    again := [];
    ghost var start, heard := node.ledger, node.heard;
    var accepted;
    accepted, accepting := AcceptAll(node, intents);
    ghost var middle, between := node.ledger, node.heard;
    assert Each(intents, accepting) + Each(intents, []) == Each(intents, accepting);
    if accepted.Failure? { r := Failure(()); return; }
    r, again := ReadAgain(node, intents);
    FollowsSame(start, middle, start, node.ledger, AcceptPlan(intents, accepting));
    StillLeavesWithdrawals(start, middle, node.ledger);
    HeardThen(heard, between, node.heard, Each(intents, accepting), Each(intents, again), true);
  }

  lemma StillLeavesWithdrawals(a: Ledger, b: Ledger, c: Ledger)
    requires LeavesWithdrawals(a, b) && Watched(b, c)
    ensures LeavesWithdrawals(a, c)
  {
  }

  /** The second reading: done already, impossible, or every status 1. */
  method ReadAgain(node: Node, intents: seq<Intent>) returns (r: Answer<Option<Done>>, again: seq<int>)
    requires BatchSafe(node.ledger, intents) && node.first == Some(intents[0])
    modifies node
    ensures BatchSafe(node.ledger, intents) && Watched(old(node.ledger), node.ledger)
    ensures r.Success? && r.value.Some? ==> r.value.value == AwaitingDownstream && AllWithin(again, |intents|, 2, 7)
    ensures r == Success(None) <==> AllRead1(again, intents)
    ensures |again| <= |intents| && node.heard == old(node.heard) + Each(intents, again)
    ensures node.calm && AllWithin(again, |intents|, 2, 7) ==> r.Success? && r.value.Some?
  {
    var reading;
    reading, again := ReadStatuses(node, intents);
    if reading.Failure? { r := Failure(()); return; }
    if AtLeast(again, 2) {
      assert again[0] >= 2;
      r := Success(Some(AwaitingDownstream));
      return;
    }
    if exists i :: 0 <= i < |again| && again[i] != 1 { r := Failure(()); return; }
    assert again[0] == 1;
    r := Success(None);
  }

  lemma SameAfterReading(a: Ledger, b: Ledger, intents: seq<Intent>)
    requires Watched(a, b)
    ensures SameAcceptancesFrom(a, b, intents, 0)
  {
    forall i | 0 <= i < |intents|
      ensures SameAcceptance(a, b, intents[i])
    {
      if Decided(a, Key(intents[i], AcceptQuote)) {
        SuccessIsKnown(a, b, Key(intents[i], AcceptQuote));
      }
    }
  }

  lemma SameGoes(a: Ledger, b: Ledger, intents: seq<Intent>, statuses: seq<int>)
    requires SameAcceptancesFrom(a, b, intents, 0)
    ensures AcceptancesDecided(a, intents) ==> AcceptancesDecided(b, intents)
    ensures AcceptancesDecided(a, intents) ==> (AcceptancesGo(a, intents, statuses) <==> AcceptancesGo(b, intents, statuses))
  {
    if AcceptancesDecided(a, intents) {
      forall i | 0 <= i < |intents|
        ensures Decided(b, Key(intents[i], AcceptQuote))
        ensures forall s :: AcceptanceGoes(a, intents[i], s) <==> AcceptanceGoes(b, intents[i], s)
      {
        assert SameAcceptance(a, b, intents[i]) && Decided(a, Key(intents[i], AcceptQuote));
      }
    }
  }

  /**
   One run over a batch.  A withdrawal is sent only if the last reading of the
   statuses says 1 for all.  A run that confirms the withdrawal leaves every intent
   with a checkpoint for it.  In a calm period, with the journalled acceptances
   decided, the readings and the ledger decide how it ends: downstream if they say
   so, and confirmed exactly if they all come to read 1 and the batch is not stuck,
   provided there is a checkpoint to follow or no journalled withdrawal is undecided.
   */
  method RunBatch(node: Node, intents: seq<Intent>) returns (r: Answer<Done>, read: Readings)
    requires BatchSafe(node.ledger, intents) && node.first == Some(intents[0])
    modifies node
    ensures BatchSafe(node.ledger, intents) && Later(old(node.ledger), node.ledger)
    // what is sent is called for by the readings: acceptances in order, then one withdrawal, each once
    ensures HeardInRun(old(node.heard), node.heard, intents, read, r.Success? || node.calm)
    ensures Follows(old(node.ledger), node.ledger, AcceptPlan(intents, read.accepting) + [W(intents[0])])
    ensures !SentOnly(old(node.ledger), node.ledger, {AcceptQuote}) ==> AllRead1(read.again, intents)
    ensures Stuck(old(node.ledger), intents) ==>
              Stuck(node.ledger, intents) && r != Success(WithdrawalConfirmed)
              && SentOnly(old(node.ledger), node.ledger, {AcceptQuote})
    ensures r == Success(WithdrawalConfirmed) ==> AllRead1(read.again, intents) && Completed(node.ledger, intents)
    ensures node.calm && AcceptancesDecided(old(node.ledger), intents) ==>
              (r == Success(AwaitingDownstream) <==>
                 AllWithin(read.initial, |intents|, 2, 7)
                 || (GetsAccepted(old(node.ledger), intents, read) && AllWithin(read.again, |intents|, 2, 7)))
    ensures node.calm && AcceptancesDecided(old(node.ledger), intents)
            && (HasCheckpoint(old(node.ledger), intents) || AllDecided(old(node.ledger), intents)) ==>
              (r == Success(WithdrawalConfirmed) <==>
                 GetsAccepted(old(node.ledger), intents, read) && AllRead1(read.again, intents) && !Stuck(old(node.ledger), intents))
  {
    ghost var start := node.ledger;
    var phase: Answer<Option<Done>>;
    phase, read := AcceptPhase(node, intents);
    ghost var middle, plan := node.ledger, AcceptPlan(intents, read.accepting);
    WithdrawalsUntouched(start, middle, intents);
    FollowsMore(start, middle, plan, [W(intents[0])]);
    if phase.Failure? { r := Failure(()); return; }
    if phase.value.Some? { r := Success(phase.value.value); return; }
    var withdrawn := EnsureSharedWithdrawal(node, intents, read.again);
    FollowsThen(start, middle, node.ledger, plan, [W(intents[0])]);
    r := if withdrawn.Success? then Success(WithdrawalConfirmed) else Failure(());
  }

  /** Any number of runs of a batch, each cut off wherever it happens to be. */
  method RestartForever(node: Node, intents: seq<Intent>, rounds: nat)
    requires BatchSafe(node.ledger, intents) && node.first == Some(intents[0])
    modifies node
    ensures BatchSafe(node.ledger, intents) && Later(old(node.ledger), node.ledger)
    ensures Stuck(old(node.ledger), intents) ==> Stuck(node.ledger, intents)
  {
    for i := 0 to rounds
      invariant BatchSafe(node.ledger, intents) && Later(old(node.ledger), node.ledger)
      invariant Stuck(old(node.ledger), intents) ==> Stuck(node.ledger, intents)
    {
      var _, _ := RunBatch(node, intents);
    }
  }

  /**
   How a batch gets stuck: the process is cut off after journalling the send for
   the first intent only, the withdrawal succeeds, and the next run is cut off
   after recording the first intent's checkpoint from the journal.
   */
  lemma CutOffTwiceGetsStuck(intents: seq<Intent>, h: Hash)
    requires ValidBatch(intents)
    ensures var sent := Journalled(Broadcasted(EMPTY, W(intents[0]), h), W(intents[0]), h);
            var mined := Mined(sent, h, true);
            var replayed := Checkpointed(mined, W(intents[0]), h);
            && BatchSafe(sent, intents) && BatchSafe(mined, intents)
            && replayed.Success? && BatchSafe(replayed.value, intents) && Stuck(replayed.value, intents)
  {
    var first := Some(intents[0]);
    var k := W(intents[0]);
    assert Safe(EMPTY, first) && Unused(EMPTY, h) && AllFailed(EMPTY, k);
    JournalledSendKeepsSafe(EMPTY, first, k, h);
    var sent := Journalled(Broadcasted(EMPTY, k, h), k, h);
    assert Submissions(sent, k) == [h];
    assert forall o :: o != k ==> Submissions(sent, o) == [];
    MinedKeepsSafe(sent, first, h, true);
    var mined := Mined(sent, h, true);
    assert forall o :: Submissions(mined, o) == Submissions(sent, o);
    CheckpointKeepsSafe(mined, first, k, h);
    var replayed := Checkpointed(mined, k, h).value;
    assert forall o :: Submissions(replayed, o) == Submissions(sent, o);
    assert Misses(replayed, intents[1], h);
  }
}
