/**
 The V6 checkpointed payout worker: one process, restarted any number of times
 and cut off at any `await`.
 */
module RecoveryV6 {
  import opened Wrappers
  import opened Journal
  import opened JournalNode

  /** What the journal can answer without sending: the checkpoint, or a submission that succeeded. */
  method RecoverSubmitted(node: Node, k: Key) returns (r: Answer<Option<Hash>>)
    requires node.first == None && Safe(node.ledger, None)
    modifies node`ledger
    ensures Safe(node.ledger, None) && Later(old(node.ledger), node.ledger) && node.ledger.sent == old(node.ledger).sent
    ensures r == Success(None) ==> AllFailed(node.ledger, k) && k !in node.ledger.checkpoints
    ensures r.Success? && r.value.Some? ==> k in node.ledger.checkpoints && node.ledger.checkpoints[k] == r.value.value
    ensures node.calm && (k in old(node.ledger).checkpoints || Decided(old(node.ledger), k)) ==> r.Success?
    ensures Rests(old(node.ledger), node.ledger) && OnlySteps(old(node.ledger), node.ledger, {k.step})
    ensures r.Success? && Decided(old(node.ledger), k) ==>
              (r.value.Some? <==> k in old(node.ledger).checkpoints || Succeeded(old(node.ledger), k))
    ensures Decided(old(node.ledger), k) && k !in old(node.ledger).checkpoints && !Succeeded(old(node.ledger), k) ==>
              Watched(old(node.ledger), node.ledger)
  {
    assert NothingPending(node.ledger) ==> Decided(node.ledger, k);
    var _ :- node.Await();
    if k in node.ledger.checkpoints { return Success(Some(node.ledger.checkpoints[k])); }
    var _ :- node.Await();
    var found :- node.FindSuccess(Submissions(node.ledger, k));
    if found.None? { return Success(None); }
    var _ :- node.RecordCheckpoint(k, found.value);
    return Success(found);
  }

  /** Journal and checkpoints of the other steps are as they were, and if nothing was undecided nothing is. */
  ghost predicate OnlySteps(a: Ledger, b: Ledger, steps: set<Step>) {
    && (forall o: Key :: o.step !in steps ==> Submissions(b, o) == Submissions(a, o))
    && (forall o: Key :: o.step !in steps ==> (o in b.checkpoints <==> o in a.checkpoints))
    && (NothingPending(a) && PoolWithdraw !in steps ==> b.fundedBy == a.fundedBy)
  }

  method RunTransaction(node: Node, k: Key) returns (r: Answer<Hash>)
    requires node.first == None && Safe(node.ledger, None)
    modifies node`ledger
    ensures Safe(node.ledger, None) && Later(old(node.ledger), node.ledger) && SentOnly(old(node.ledger), node.ledger, {k.step})
    ensures r.Success? ==> k in node.ledger.checkpoints && node.ledger.checkpoints[k] == r.value
    ensures node.calm && (k in old(node.ledger).checkpoints || Decided(old(node.ledger), k)) ==> r.Success?
    ensures NothingPending(old(node.ledger)) && r.Success? ==> NothingPending(node.ledger)
    ensures OnlySteps(old(node.ledger), node.ledger, {k.step})
    ensures Follows(old(node.ledger), node.ledger, [k])
  {
    assert NothingPending(node.ledger) ==> Decided(node.ledger, k);
    var recovered := RecoverSubmitted(node, k);
    SilenceFollows(old(node.ledger), node.ledger, [k]);
    if recovered.Failure? { return Failure(()); }
    if recovered.value.Some? { return Success(recovered.value.value); }
    ghost var seen := node.ledger;
    r := SendAndRecord(node, k);
    FollowsSame(seen, node.ledger, old(node.ledger), node.ledger, [k]);
  }

  /** Over failures: one send, waited for, and its checkpoint. */
  method SendAndRecord(node: Node, k: Key) returns (r: Answer<Hash>)
    requires node.first == None && Safe(node.ledger, None) && AllFailed(node.ledger, k)
    modifies node`ledger
    ensures Safe(node.ledger, None) && Later(old(node.ledger), node.ledger) && SentOnly(old(node.ledger), node.ledger, {k.step})
    ensures r.Success? ==> k in node.ledger.checkpoints && node.ledger.checkpoints[k] == r.value
    ensures node.calm ==> r.Success?
    ensures NothingPending(old(node.ledger)) && r.Success? ==> NothingPending(node.ledger)
    ensures OnlySteps(old(node.ledger), node.ledger, {k.step})
    ensures Follows(old(node.ledger), node.ledger, [k])
  {
    var h :- node.Broadcast(k);
    ghost var sent := node.ledger;
    var recorded := node.RecordCheckpoint(k, h);
    FollowsSame(old(node.ledger), sent, old(node.ledger), node.ledger, [k]);
    return if recorded.Success? then Success(h) else Failure(());
  }

  /** The checkpoints a first reading of the statuses calls for: an acceptance for each of the first n children that read 0. */
  predicate Accepted(l: Ledger, children: seq<Intent>, statuses: seq<int>, n: nat) {
    forall i :: 0 <= i < n && i < |children| && i < |statuses| && statuses[i] == 0 ==> Key(children[i], AcceptQuote) in l.checkpoints
  }

  /** The statuses one after the other, up to a read that throws. */
  method ReadStatuses(node: Node, children: seq<Intent>) returns (r: Answer<()>, statuses: seq<int>)
    requires node.first == None && Safe(node.ledger, None)
    modifies node
    ensures Safe(node.ledger, None) && Watched(old(node.ledger), node.ledger) && Rests(old(node.ledger), node.ledger)
    ensures |statuses| <= |children| && node.heard == old(node.heard) + Each(children, statuses)
    ensures r.Success? <==> |statuses| == |children|
    ensures node.calm ==> r.Success?
  {
    ghost var start, heard := node.ledger, node.heard;
    statuses := [];
    for i := 0 to |children|
      invariant Safe(node.ledger, None) && Watched(start, node.ledger) && Rests(start, node.ledger) && |statuses| == i
      invariant node.heard == heard + Each(children, statuses)
    {
      var status := node.ReadAdapterStatus(children[i]);
      if status.Failure? { r := Failure(()); return; }
      EachThen(children, statuses, status.value);
      statuses := statuses + [status.value];
    }
    r := Success(());
  }

  /** From one quiet ledger to another, by these steps alone. */
  ghost predicate Settling(a: Ledger, b: Ledger, steps: set<Step>) {
    NothingPending(a) && NothingPending(b) ==> OnlySteps(a, b, steps)
  }

  /** What a child's first reading calls for. */
  function Acceptance(child: Intent, read: int): seq<Key> {
    if read == 0 then [Key(child, AcceptQuote)] else []
  }

  /** The acceptances the first n readings call for. */
  function AcceptPlan(children: seq<Intent>, statuses: seq<int>, n: nat): seq<Key> {
    if n == 0 then []
    else AcceptPlan(children, statuses, n - 1)
         + if n <= |children| && n <= |statuses| then Acceptance(children[n - 1], statuses[n - 1]) else []
  }

  lemma {:induction false} LongerPlan(children: seq<Intent>, statuses: seq<int>, i: nat, n: nat) returns (rest: seq<Key>)
    requires i <= n
    ensures AcceptPlan(children, statuses, n) == AcceptPlan(children, statuses, i) + rest
  {
    if i == n {
      rest := [];
    } else {
      rest := LongerPlan(children, statuses, i, n - 1);
      rest := rest + if n <= |children| && n <= |statuses| then Acceptance(children[n - 1], statuses[n - 1]) else [];
    }
  }

  /** What was sent for the first i readings follows the whole plan. */
  lemma FollowsWholePlan(a: Ledger, b: Ledger, children: seq<Intent>, statuses: seq<int>, i: nat, n: nat)
    requires i <= n && Follows(a, b, AcceptPlan(children, statuses, i))
    ensures Follows(a, b, AcceptPlan(children, statuses, n))
  {
    var rest := LongerPlan(children, statuses, i, n);
    FollowsMore(a, b, AcceptPlan(children, statuses, i), rest);
  }

  /** Every child that reads 0 is accepted, and none reads 0 afterwards. */
  method AcceptQuotes(node: Node, children: seq<Intent>) returns (r: Answer<()>, read: seq<int>, again: seq<int>)
    requires node.first == None && Safe(node.ledger, None)
    modifies node
    ensures Safe(node.ledger, None) && Later(old(node.ledger), node.ledger) && SentOnly(old(node.ledger), node.ledger, {AcceptQuote})
    ensures r.Success? ==> |read| == |children| && Accepted(node.ledger, children, read, |children|)
    ensures r.Success? ==> |again| == |children| && forall i :: 0 <= i < |again| ==> again[i] != 0
    ensures Settling(old(node.ledger), node.ledger, {AcceptQuote})
    ensures Follows(old(node.ledger), node.ledger, AcceptPlan(children, read, |children|))
    ensures node.calm && NothingPending(old(node.ledger)) ==> NothingPending(node.ledger) && (r.Success? <==> forall i :: 0 <= i < |again| ==> again[i] != 0)
    // the readings are the children's own, before and after
    ensures |read| <= |children| && |again| <= |children| && node.heard == old(node.heard) + Each(children, read) + Each(children, again)
  {
    again := [];
    ghost var start := node.ledger;
    r, read := ReadStatuses(node, children);
    ghost var seen := node.ledger;
    SilenceFollows(start, seen, AcceptPlan(children, read, |children|));
    if r.Failure? { return; }
    r := AcceptReading(node, children, read);
    ghost var accepted := node.ledger;
    FollowsSame(seen, accepted, start, accepted, AcceptPlan(children, read, |children|));
    if r.Failure? { return; }
    r, again := ReadStatuses(node, children);
    FollowsSame(start, accepted, start, node.ledger, AcceptPlan(children, read, |children|));
    if r.Failure? { return; }
    if exists i :: 0 <= i < |again| && again[i] == 0 { r := Failure(()); return; }
    r := Success(());
  }

  /** The acceptances a reading calls for, one after the other. */
  method AcceptReading(node: Node, children: seq<Intent>, read: seq<int>) returns (r: Answer<()>)
    requires node.first == None && Safe(node.ledger, None) && |read| == |children|
    modifies node`ledger
    ensures Safe(node.ledger, None) && Later(old(node.ledger), node.ledger) && SentOnly(old(node.ledger), node.ledger, {AcceptQuote})
    ensures r.Success? ==> Accepted(node.ledger, children, read, |children|)
    ensures Settling(old(node.ledger), node.ledger, {AcceptQuote})
    ensures NothingPending(old(node.ledger)) && r.Success? ==> NothingPending(node.ledger)
    ensures node.calm && NothingPending(old(node.ledger)) ==> r.Success?
    ensures Follows(old(node.ledger), node.ledger, AcceptPlan(children, read, |children|))
  {
    ghost var start := node.ledger;
    SilenceFollows(start, start, []);
    for i := 0 to |children|
      invariant Safe(node.ledger, None) && Later(start, node.ledger) && SentOnly(start, node.ledger, {AcceptQuote})
      invariant Accepted(node.ledger, children, read, i)
      invariant Settling(start, node.ledger, {AcceptQuote})
      invariant NothingPending(start) ==> NothingPending(node.ledger)
      invariant Follows(start, node.ledger, AcceptPlan(children, read, i))
    {
      ghost var before := node.ledger;
      var accepted := AcceptIfQuoted(node, children[i], read[i]);
      FollowsThen(start, before, node.ledger, AcceptPlan(children, read, i), Acceptance(children[i], read[i]));
      FollowsWholePlan(start, node.ledger, children, read, i + 1, |children|);
      if accepted.Failure? { r := Failure(()); return; }
      LaterAccepted(before, node.ledger, children, read, i);
    }
    r := Success(());
  }

  /** One child: accepted if it read 0. */
  method AcceptIfQuoted(node: Node, child: Intent, read: int) returns (r: Answer<()>)
    requires node.first == None && Safe(node.ledger, None)
    modifies node`ledger
    ensures Safe(node.ledger, None) && Later(old(node.ledger), node.ledger) && SentOnly(old(node.ledger), node.ledger, {AcceptQuote})
    ensures r.Success? && read == 0 ==> Key(child, AcceptQuote) in node.ledger.checkpoints
    ensures OnlySteps(old(node.ledger), node.ledger, {AcceptQuote})
    ensures NothingPending(old(node.ledger)) && r.Success? ==> NothingPending(node.ledger)
    ensures node.calm && NothingPending(old(node.ledger)) ==> r.Success?
    ensures Follows(old(node.ledger), node.ledger, Acceptance(child, read))
  {
    SilenceFollows(node.ledger, node.ledger, []);
    if read != 0 { return Success(()); }
    var run := RunTransaction(node, Key(child, AcceptQuote));
    return if run.Success? then Success(()) else Failure(());
  }

  lemma LaterAccepted(a: Ledger, b: Ledger, children: seq<Intent>, statuses: seq<int>, n: nat)
    requires Accepted(a, children, statuses, n) && Later(a, b)
    requires n < |children| && n < |statuses| && statuses[n] == 0 ==> Key(children[n], AcceptQuote) in b.checkpoints
    ensures Accepted(b, children, statuses, n + 1)
  {
  }

  /** The batch is funded, but the journal knows of no withdrawal that succeeded: one was cut off before it was journalled. */
  ghost predicate WithdrawalLost(l: Ledger, withdraw: Key) {
    withdraw in l.fundedBy && withdraw !in l.checkpoints && !Succeeded(l, withdraw)
  }

  /** Lost, with every journalled withdrawal decided. */
  ghost predicate LostForGood(l: Ledger, withdraw: Key) {
    WithdrawalLost(l, withdraw) && Decided(l, withdraw)
  }

  /** How it gets lost: the withdrawal succeeds, but the process was cut off before its hash was journalled. */
  lemma CutOffLosesWithdrawal(withdraw: Key, h: Hash)
    requires withdraw.step == PoolWithdraw
    ensures var lost := Mined(Broadcasted(EMPTY, withdraw, h).(lost := true), h, true);
            Safe(lost, None) && LostForGood(lost, withdraw)
  {
    assert Safe(EMPTY, None) && Unused(EMPTY, h) && AllFailed(EMPTY, withdraw);
    LostSendKeepsSafe(EMPTY, None, withdraw, h);
    var cut := Broadcasted(EMPTY, withdraw, h).(lost := true);
    MinedKeepsSafe(cut, None, h, true);
    var lost := Mined(cut, h, true);
    assert lost.sent[0].key == withdraw && lost.sent[0].hash == h;
    assert forall k :: Submissions(lost, k) == [];
  }

  /** What the escrows of the batch read, one after the other. */
  method ReadFunding(node: Node, children: seq<Intent>, withdraw: Key) returns (r: Answer<()>, anyFunded: bool, anyUnfunded: bool)
    requires node.first == None && Safe(node.ledger, None)
    modifies node`ledger
    ensures Safe(node.ledger, None) && Watched(old(node.ledger), node.ledger) && Rests(old(node.ledger), node.ledger)
    ensures r.Success? && children != [] && withdraw in old(node.ledger).fundedBy ==> anyFunded
    ensures r.Success? && NothingPending(old(node.ledger)) && children != [] ==>
              (anyFunded <==> withdraw in old(node.ledger).fundedBy) && anyUnfunded == !anyFunded
    ensures node.calm ==> r.Success?
  {
    anyFunded, anyUnfunded := false, false;
    for i := 0 to |children|
      invariant Safe(node.ledger, None) && Watched(old(node.ledger), node.ledger) && Rests(old(node.ledger), node.ledger)
      invariant i > 0 && withdraw in old(node.ledger).fundedBy ==> anyFunded
      invariant i == 0 ==> !anyFunded && !anyUnfunded
      invariant NothingPending(old(node.ledger)) && i > 0 ==>
                  (anyFunded <==> withdraw in old(node.ledger).fundedBy) && anyUnfunded == !anyFunded
    {
      var funded := node.ReadEscrowFunded(withdraw);
      if funded.Failure? { r := Failure(()); return; }
      if funded.value { anyFunded := true; } else { anyUnfunded := true; }
    }
    r := Success(());
  }

  /** Sends the withdrawal only when every escrow reads unfunded. */
  method EnsureWithdrawal(node: Node, children: seq<Intent>, batch: Intent) returns (r: Answer<()>, anyFunded: bool, anyUnfunded: bool)
    requires node.first == None && Safe(node.ledger, None)
    modifies node`ledger
    ensures Safe(node.ledger, None) && Later(old(node.ledger), node.ledger) && SentOnly(old(node.ledger), node.ledger, {PoolWithdraw})
    // even after a lost send: once the escrows are funded no withdrawal is sent again
    ensures children != [] && Key(batch, PoolWithdraw) in old(node.ledger).fundedBy ==> node.ledger.sent == old(node.ledger).sent
    ensures Follows(old(node.ledger), node.ledger, [Key(batch, PoolWithdraw)])
    ensures anyFunded && anyUnfunded ==> r.Failure? && node.ledger.sent == old(node.ledger).sent
    ensures r.Success? ==> Key(batch, PoolWithdraw) in node.ledger.checkpoints
    ensures NothingPending(old(node.ledger)) && r.Success? ==> NothingPending(node.ledger)
    // when nothing throws or is undecided, only a lost withdrawal stops it
    ensures node.calm && NothingPending(old(node.ledger)) && children != [] ==>
              (r.Success? <==> !WithdrawalLost(old(node.ledger), Key(batch, PoolWithdraw)))
    ensures r.Success? && children != [] && NothingPending(old(node.ledger)) ==> Key(batch, PoolWithdraw) in node.ledger.fundedBy
    // and it stays lost, calm or not
    ensures children != [] && LostForGood(old(node.ledger), Key(batch, PoolWithdraw)) ==>
              r.Failure? && LostForGood(node.ledger, Key(batch, PoolWithdraw)) && node.ledger.sent == old(node.ledger).sent
  {
    var withdraw := Key(batch, PoolWithdraw);
    ghost var start := node.ledger;
    var read;
    read, anyFunded, anyUnfunded := ReadFunding(node, children, withdraw);
    ghost var seen := node.ledger;
    FundedExactlyBySuccess(start, None, withdraw);
    SilenceFollows(start, seen, [withdraw]);
    if Decided(start, withdraw) { SuccessIsKnown(start, seen, withdraw); }
    if read.Failure? || (anyFunded && anyUnfunded) { r := Failure(()); return; }
    r := TakeWithdrawal(node, withdraw, anyFunded);
    FollowsSame(seen, node.ledger, start, node.ledger, [withdraw]);
  }

  /** The withdrawal the journal knows of, or a new one if the escrows are unfunded. */
  method TakeWithdrawal(node: Node, withdraw: Key, funded: bool) returns (r: Answer<()>)
    requires node.first == None && Safe(node.ledger, None) && withdraw.step == PoolWithdraw
    modifies node`ledger
    ensures Safe(node.ledger, None) && Later(old(node.ledger), node.ledger) && SentOnly(old(node.ledger), node.ledger, {PoolWithdraw})
    ensures funded ==> node.ledger.sent == old(node.ledger).sent
    ensures Follows(old(node.ledger), node.ledger, [withdraw])
    ensures r.Success? ==> withdraw in node.ledger.checkpoints
    ensures NothingPending(old(node.ledger)) && r.Success? ==> NothingPending(node.ledger) && (!funded ==> withdraw in node.ledger.fundedBy)
    ensures node.calm && NothingPending(old(node.ledger)) ==>
              (r.Success? <==> !funded || withdraw in old(node.ledger).checkpoints || Succeeded(old(node.ledger), withdraw))
    ensures funded && LostForGood(old(node.ledger), withdraw) ==> r.Failure? && LostForGood(node.ledger, withdraw)
  {
    ghost var start := node.ledger;
    assert NothingPending(start) ==> Decided(start, withdraw);
    var recovered := RecoverSubmitted(node, withdraw);
    ghost var seen := node.ledger;
    SilenceFollows(start, seen, [withdraw]);
    if LostForGood(start, withdraw) { SuccessIsKnown(start, seen, withdraw); }
    if recovered.Failure? { return Failure(()); }
    if funded { return if recovered.value.Some? then Success(()) else Failure(()); }
    var run := RunTransaction(node, withdraw);
    FollowsSame(seen, node.ledger, start, node.ledger, [withdraw]);
    if run.Failure? { return Failure(()); }
    CheckpointFunds(node.ledger, withdraw);
    return Success(());
  }

  lemma CheckpointFunds(l: Ledger, withdraw: Key)
    requires Safe(l, None) && withdraw.step == PoolWithdraw && withdraw in l.checkpoints
    ensures withdraw in l.fundedBy
  {
    assert Succeeded(l, withdraw);
    FundedExactlyBySuccess(l, None, withdraw);
  }

  method ConfirmReceipt(node: Node, child: Intent, batch: Intent) returns (r: Answer<int>)
    requires node.first == None && Safe(node.ledger, None)
    modifies node
    ensures Safe(node.ledger, None) && Later(old(node.ledger), node.ledger) && SentOnly(old(node.ledger), node.ledger, {ConfirmEscrowReceipt})
    ensures r.Success? ==> Key(child, ConfirmEscrowReceipt) in node.ledger.checkpoints
    ensures CalmlyFunded(node, old(node.ledger), batch) ==> r.Success? && NothingPending(node.ledger)
    ensures Key(batch, PoolWithdraw) in node.ledger.fundedBy || SentOnly(old(node.ledger), node.ledger, {})
    ensures Follows(old(node.ledger), node.ledger, [Key(child, ConfirmEscrowReceipt)])
    ensures node.heard == old(node.heard) + Told(child, r)
  {
    ghost var start, k := node.ledger, Key(child, ConfirmEscrowReceipt);
    var funded := node.ReadEscrowFunded(Key(batch, PoolWithdraw));
    SilenceFollows(start, node.ledger, [k]);
    if funded.Failure? || !funded.value { return Failure(()); }
    var provenance := node.Await();
    SilenceFollows(start, node.ledger, [k]);
    if provenance.Failure? { return Failure(()); }
    ghost var seen := node.ledger;
    r := RunAndRead(node, Key(child, ConfirmEscrowReceipt));
    FollowsSame(seen, node.ledger, start, node.ledger, [k]);
  }

  /** The status a child told, if it was read. */
  function Told(child: Intent, r: Answer<int>): seq<(Intent, int)> {
    if r.Success? then [(child, r.value)] else []
  }

  /** A transaction of a child, and the status after it. */
  method RunAndRead(node: Node, k: Key) returns (r: Answer<int>)
    requires node.first == None && Safe(node.ledger, None)
    modifies node
    ensures Safe(node.ledger, None) && Later(old(node.ledger), node.ledger) && SentOnly(old(node.ledger), node.ledger, {k.step})
    ensures r.Success? ==> k in node.ledger.checkpoints
    ensures node.calm && NothingPending(old(node.ledger)) ==> r.Success? && NothingPending(node.ledger)
    ensures Follows(old(node.ledger), node.ledger, [k])
    ensures node.heard == old(node.heard) + Told(k.intent, r)
  {
    var run := RunTransaction(node, k);
    ghost var ran := node.ledger;
    if run.Failure? { return Failure(()); }
    r := node.ReadAdapterStatus(k.intent);
    FollowsSame(old(node.ledger), ran, old(node.ledger), node.ledger, [k]);
  }

  /** In a calm period, with nothing undecided and the batch funded. */
  ghost predicate CalmlyFunded(node: Node, start: Ledger, batch: Intent) {
    node.calm && NothingPending(start) && Key(batch, PoolWithdraw) in start.fundedBy
  }

  /** A child's status at first, after its confirmation and after its submission. */
  datatype Readings = Readings(first: int, confirmed: int, submitted: int)

  /** The checkpoints the readings call for; where nothing was called for, the status is the one before. */
  predicate Handled(l: Ledger, child: Intent, read: Readings) {
    && (read.first == 1 ==> Key(child, ConfirmEscrowReceipt) in l.checkpoints)
    && (read.first != 1 ==> read.confirmed == read.first)
    && (read.confirmed == 2 ==> Key(child, SubmitPayout) in l.checkpoints)
    && (read.confirmed != 2 ==> read.submitted == read.confirmed)
  }

  function Confirmation(child: Intent, first: int): seq<Key> {
    if first == 1 then [Key(child, ConfirmEscrowReceipt)] else []
  }

  function Submission(child: Intent, confirmed: int): seq<Key> {
    if confirmed == 2 then [Key(child, SubmitPayout)] else []
  }

  /** The transactions the readings call for. */
  function ChildPlan(child: Intent, read: Readings): seq<Key> {
    Confirmation(child, read.first) + Submission(child, read.confirmed)
  }

  /** Whose the readings are, in the order they are read. */
  function Answers(child: Intent, read: Readings): seq<(Intent, int)> {
    FirstAnswers(child, read.first, read.confirmed) + SecondAnswers(child, read.confirmed, read.submitted)
  }

  function FirstAnswers(child: Intent, first: int, confirmed: int): seq<(Intent, int)> {
    [(child, first)] + if first == 1 then [(child, confirmed)] else []
  }

  function SecondAnswers(child: Intent, confirmed: int, submitted: int): seq<(Intent, int)> {
    if confirmed == 2 then [(child, submitted)] else []
  }

  function AllAnswers(children: seq<Intent>, readings: seq<Readings>): seq<(Intent, int)>
    requires |readings| <= |children|
  {
    if readings == [] then []
    else
      var n := |readings| - 1;
      AllAnswers(children, readings[..n]) + Answers(children[n], readings[n])
  }

  predicate Acceptable(read: Readings) {
    1 <= read.submitted <= 6
  }

  /** One child, from its status: confirmation for 1, then submission for 2. */
  method ConfirmAndSubmit(node: Node, child: Intent, batch: Intent) returns (r: Answer<()>, readings: Readings)
    requires node.first == None && Safe(node.ledger, None)
    modifies node
    ensures Safe(node.ledger, None) && Later(old(node.ledger), node.ledger) && SentOnly(old(node.ledger), node.ledger, {ConfirmEscrowReceipt, SubmitPayout})
    ensures r.Success? ==> Handled(node.ledger, child, readings) && Acceptable(readings)
    ensures CalmlyFunded(node, old(node.ledger), batch) ==> NothingPending(node.ledger) && (r.Success? <==> Acceptable(readings))
    ensures Key(batch, PoolWithdraw) in node.ledger.fundedBy || SentOnly(old(node.ledger), node.ledger, {SubmitPayout})
    ensures Follows(old(node.ledger), node.ledger, ChildPlan(child, readings))
    ensures Heard(old(node.heard), node.heard, Answers(child, readings), r.Success? || CalmlyFunded(node, old(node.ledger), batch))
  {
    ghost var start, heard := node.ledger, node.heard;
    var status, first := ConfirmIfAccepted(node, child, batch);
    ghost var confirmed, middle := node.ledger, node.heard;
    readings := Readings(first, 0, 0);
    FollowsMore(start, confirmed, Confirmation(child, first), []);
    if status.Failure? { r := Failure(()); return; }
    readings := Readings(first, status.value, status.value);
    var after := SubmitIfConfirmed(node, child, status.value);
    HeardThen(heard, middle, node.heard, FirstAnswers(child, first, status.value),
              SecondAnswers(child, status.value, if after.Success? then after.value else status.value), after.Success?);
    FollowsThen(start, confirmed, node.ledger, Confirmation(child, first), Submission(child, readings.confirmed));
    if after.Failure? { r := Failure(()); return; }
    readings := readings.(submitted := after.value);
    r := if after.value < 1 || after.value > 6 then Failure(()) else Success(());
  }

  /** The first status; if it is 1, the receipt is confirmed and the answer is the status after it. */
  method ConfirmIfAccepted(node: Node, child: Intent, batch: Intent) returns (r: Answer<int>, first: int)
    requires node.first == None && Safe(node.ledger, None)
    modifies node
    ensures Safe(node.ledger, None) && Later(old(node.ledger), node.ledger) && SentOnly(old(node.ledger), node.ledger, {ConfirmEscrowReceipt})
    ensures r.Success? && first == 1 ==> Key(child, ConfirmEscrowReceipt) in node.ledger.checkpoints
    ensures r.Success? && first != 1 ==> r.value == first
    ensures CalmlyFunded(node, old(node.ledger), batch) ==> r.Success? && NothingPending(node.ledger)
    ensures Key(batch, PoolWithdraw) in node.ledger.fundedBy || SentOnly(old(node.ledger), node.ledger, {})
    ensures Follows(old(node.ledger), node.ledger, Confirmation(child, first))
    ensures Heard(old(node.heard), node.heard, FirstAnswers(child, first, if r.Success? then r.value else 0), r.Success?)
  {
    first := 0;
    ghost var start := node.ledger;
    r := node.ReadAdapterStatus(child);
    ghost var seen := node.ledger;
    SilenceFollows(start, seen, []);
    if r.Failure? { return; }
    first := r.value;
    if first != 1 { return; }
    r := ConfirmReceipt(node, child, batch);
    FollowsSame(seen, node.ledger, start, node.ledger, Confirmation(child, first));
  }

  /** A status of 2 calls for the submission; the answer is the status after it. */
  method SubmitIfConfirmed(node: Node, child: Intent, status: int) returns (r: Answer<int>)
    requires node.first == None && Safe(node.ledger, None)
    modifies node
    ensures Safe(node.ledger, None) && Later(old(node.ledger), node.ledger) && SentOnly(old(node.ledger), node.ledger, {SubmitPayout})
    ensures r.Success? && status == 2 ==> Key(child, SubmitPayout) in node.ledger.checkpoints
    ensures status != 2 ==> r == Success(status)
    ensures node.calm && NothingPending(old(node.ledger)) ==> r.Success? && NothingPending(node.ledger)
    ensures Follows(old(node.ledger), node.ledger, Submission(child, status))
    ensures Heard(old(node.heard), node.heard, SecondAnswers(child, status, if r.Success? then r.value else status), r.Success?)
  {
    SilenceFollows(node.ledger, node.ledger, []);
    if status != 2 { return Success(status); }
    r := RunAndRead(node, Key(child, SubmitPayout));
  }

  /** The first n children handled. */
  predicate AllHandled(l: Ledger, children: seq<Intent>, readings: seq<Readings>, n: nat) {
    forall i :: 0 <= i < n && i < |children| && i < |readings| ==> Handled(l, children[i], readings[i])
  }

  lemma LaterHandled(a: Ledger, b: Ledger, children: seq<Intent>, readings: seq<Readings>, last: Readings)
    requires AllHandled(a, children, readings, |readings|) && Later(a, b)
    requires |readings| < |children| && Handled(b, children[|readings|], last)
    ensures AllHandled(b, children, readings + [last], |readings| + 1)
  {
    forall i | 0 <= i < |readings|
      ensures Handled(b, children[i], readings[i])
    {
      assert Handled(a, children[i], readings[i]);
    }
  }

  function ChildrenPlan(children: seq<Intent>, readings: seq<Readings>): seq<Key> {
    if readings == [] then []
    else
      var n := |readings| - 1;
      ChildrenPlan(children, readings[..n]) + if n < |children| then ChildPlan(children[n], readings[n]) else []
  }

  lemma ChildrenPlanSnoc(children: seq<Intent>, readings: seq<Readings>, last: Readings)
    requires |readings| < |children|
    ensures ChildrenPlan(children, readings + [last]) == ChildrenPlan(children, readings) + ChildPlan(children[|readings|], last)
    ensures AllAnswers(children, readings + [last]) == AllAnswers(children, readings) + Answers(children[|readings|], last)
  {
    assert (readings + [last])[..|readings|] == readings;
  }

  predicate AllAcceptable(readings: seq<Readings>) {
    forall i :: 0 <= i < |readings| ==> Acceptable(readings[i])
  }

  lemma AcceptableThen(readings: seq<Readings>, last: Readings)
    ensures AllAcceptable(readings + [last]) <==> AllAcceptable(readings) && Acceptable(last)
  {
    var all := readings + [last];
    assert all[|readings|] == last && forall i :: 0 <= i < |readings| ==> all[i] == readings[i];
  }

  /** Between two children: nothing but what their readings call for was sent. */
  ghost predicate Handling(a: Ledger, b: Ledger, children: seq<Intent>, readings: seq<Readings>) {
    && Later(a, b) && SentOnly(a, b, {ConfirmEscrowReceipt, SubmitPayout})
    && Follows(a, b, ChildrenPlan(children, readings))
  }

  lemma HandlingThen(start: Ledger, a: Ledger, b: Ledger, children: seq<Intent>, readings: seq<Readings>, last: Readings)
    requires Handling(start, a, children, readings) && |readings| < |children|
    requires Later(a, b) && SentOnly(a, b, {ConfirmEscrowReceipt, SubmitPayout}) && Follows(a, b, ChildPlan(children[|readings|], last))
    ensures Handling(start, b, children, readings + [last])
    ensures AllAnswers(children, readings + [last]) == AllAnswers(children, readings) + Answers(children[|readings|], last)
  {
    FollowsThen(start, a, b, ChildrenPlan(children, readings), ChildPlan(children[|readings|], last));
    ChildrenPlanSnoc(children, readings, last);
  }

  /** Child after child; the readings end with those of the child that stopped the run. */
  method HandleChildren(node: Node, children: seq<Intent>, batch: Intent) returns (r: Answer<()>, readings: seq<Readings>)
    requires node.first == None && Safe(node.ledger, None)
    modifies node
    ensures Safe(node.ledger, None) && Later(old(node.ledger), node.ledger) && SentOnly(old(node.ledger), node.ledger, {ConfirmEscrowReceipt, SubmitPayout})
    ensures r.Success? ==> |readings| == |children| && AllHandled(node.ledger, children, readings, |children|)
    ensures r.Success? ==> AllAcceptable(readings)
    ensures CalmlyFunded(node, old(node.ledger), batch) ==> (r.Success? <==> AllAcceptable(readings))
    ensures Follows(old(node.ledger), node.ledger, ChildrenPlan(children, readings))
    ensures |readings| <= |children|
    ensures Heard(old(node.heard), node.heard, AllAnswers(children, readings), r.Success? || CalmlyFunded(node, old(node.ledger), batch))
  {
    ghost var start, heard := node.ledger, node.heard;
    readings := [];
    SilenceFollows(start, start, []);
    for i := 0 to |children|
      invariant Safe(node.ledger, None) && Handling(start, node.ledger, children, readings)
      invariant |readings| == i && AllHandled(node.ledger, children, readings, i) && AllAcceptable(readings)
      invariant CalmlyFunded(node, start, batch) ==> CalmlyFunded(node, node.ledger, batch)
      invariant node.heard == heard + AllAnswers(children, readings)
    {
      ghost var before, middle := node.ledger, node.heard;
      var reading;
      r, reading := ConfirmAndSubmit(node, children[i], batch);
      HandlingThen(start, before, node.ledger, children, readings, reading);
      HeardThen(heard, middle, node.heard, AllAnswers(children, readings), Answers(children[i], reading),
                r.Success? || CalmlyFunded(node, before, batch));
      AcceptableThen(readings, reading);
      if r.Failure? {
        readings := readings + [reading];
        return;
      }
      LaterHandled(before, node.ledger, children, readings, reading);
      readings := readings + [reading];
    }
    r := Success(());
  }

  /**
   One execution of a claimed batch, from whatever an earlier one left behind.  In
   a calm period, with nothing undecided, only three things end it early: a child
   that still reads 0, a lost withdrawal, and a final status that is not 1 to 6.
   */
  method RunExecution(node: Node, children: seq<Intent>, batch: Intent)
    returns (r: Answer<()>, read: seq<int>, again: seq<int>, readings: seq<Readings>)
    requires node.first == None && Safe(node.ledger, None)
    modifies node
    ensures Safe(node.ledger, None) && Later(old(node.ledger), node.ledger)
    ensures children != [] && Key(batch, PoolWithdraw) in old(node.ledger).fundedBy ==>
              SentOnly(old(node.ledger), node.ledger, {AcceptQuote, ConfirmEscrowReceipt, SubmitPayout})
    ensures r.Success? ==> Key(batch, PoolWithdraw) in node.ledger.checkpoints
    ensures r.Success? ==> |readings| == |children| && AllHandled(node.ledger, children, readings, |children|) && AllAcceptable(readings)
    // what is sent is called for by the readings: acceptances, one withdrawal, then child by child, each once
    ensures Follows(old(node.ledger), node.ledger,
                    AcceptPlan(children, read, |children|) + [Key(batch, PoolWithdraw)] + ChildrenPlan(children, readings))
    ensures node.calm && NothingPending(old(node.ledger)) && children != [] ==>
              (r.Success? <==> NoneReads0(again) && !WithdrawalLost(old(node.ledger), Key(batch, PoolWithdraw)) && AllAcceptable(readings))
    // and the readings are what the children's own adapter entries said, in this order
    ensures |read| <= |children| && |again| <= |children| && |readings| <= |children|
    ensures Heard(old(node.heard), node.heard, Each(children, read) + Each(children, again) + AllAnswers(children, readings),
                  r.Success? || (node.calm && NothingPending(old(node.ledger)) && children != []))
  {
    readings := [];
    ghost var start, heard := node.ledger, node.heard;
    r, read, again := AcceptAndFund(node, children, batch);
    ghost var funded, plan := node.ledger, AcceptPlan(children, read, |children|) + [Key(batch, PoolWithdraw)];
    FollowsMore(start, funded, plan, ChildrenPlan(children, readings));
    ghost var middle, calmly := node.heard, node.calm && NothingPending(start) && children != [];
    if r.Failure? { return; }
    r, readings := HandleChildren(node, children, batch);
    HeardThen(heard, middle, node.heard, Each(children, read) + Each(children, again), AllAnswers(children, readings), r.Success? || calmly);
    FollowsThen(start, funded, node.ledger, plan, ChildrenPlan(children, readings));
  }

  /** Everything before the children's receipts: the acceptances and the withdrawal. */
  method AcceptAndFund(node: Node, children: seq<Intent>, batch: Intent) returns (r: Answer<()>, read: seq<int>, again: seq<int>)
    requires node.first == None && Safe(node.ledger, None)
    modifies node
    ensures Safe(node.ledger, None) && Later(old(node.ledger), node.ledger)
    ensures children != [] && Key(batch, PoolWithdraw) in old(node.ledger).fundedBy ==> SentOnly(old(node.ledger), node.ledger, {AcceptQuote})
    ensures r.Success? ==> Key(batch, PoolWithdraw) in node.ledger.checkpoints
    ensures Follows(old(node.ledger), node.ledger, AcceptPlan(children, read, |children|) + [Key(batch, PoolWithdraw)])
    ensures node.calm && NothingPending(old(node.ledger)) && children != [] ==>
              (r.Success? <==> NoneReads0(again) && !WithdrawalLost(old(node.ledger), Key(batch, PoolWithdraw)))
    ensures r.Success? && node.calm && NothingPending(old(node.ledger)) && children != [] ==> CalmlyFunded(node, node.ledger, batch)
    ensures |read| <= |children| && |again| <= |children| && node.heard == old(node.heard) + (Each(children, read) + Each(children, again))
  {
    ghost var start := node.ledger;
    r, read, again := AcceptQuotes(node, children);
    ghost var accepted, plan := node.ledger, AcceptPlan(children, read, |children|);
    if NothingPending(start) && NothingPending(accepted) {
      LostBeforeAndAfter(start, accepted, Key(batch, PoolWithdraw));
    }
    FollowsMore(start, accepted, plan, [Key(batch, PoolWithdraw)]);
    if r.Failure? { return; }
    var someFunded, someUnfunded;
    r, someFunded, someUnfunded := EnsureWithdrawal(node, children, batch);
    FollowsThen(start, accepted, node.ledger, plan, [Key(batch, PoolWithdraw)]);
  }

  predicate NoneReads0(statuses: seq<int>) {
    forall i :: 0 <= i < |statuses| ==> statuses[i] != 0
  }

  /** Acceptances neither lose a withdrawal nor find one. */
  lemma LostBeforeAndAfter(a: Ledger, b: Ledger, withdraw: Key)
    requires NothingPending(a) && NothingPending(b) && Later(a, b) && OnlySteps(a, b, {AcceptQuote}) && withdraw.step == PoolWithdraw
    ensures WithdrawalLost(a, withdraw) <==> WithdrawalLost(b, withdraw)
  {
    assert Decided(a, withdraw);
  }

  /** The downstream variant: a pending submission is simply waited for. */
  method RunTerminalTransaction(node: Node, k: Key) returns (r: Answer<Hash>)
    requires node.first == None && Safe(node.ledger, None)
    modifies node`ledger
    ensures Safe(node.ledger, None) && Later(old(node.ledger), node.ledger)
    ensures SentOnly(old(node.ledger), node.ledger, {k.step})
    ensures r.Success? ==> r.value in Submissions(node.ledger, k) && OutcomeOf(node.ledger, r.value) != Failed
    ensures k in old(node.ledger).checkpoints ==>
              node.ledger.sent == old(node.ledger).sent && (r.Success? ==> r.value == old(node.ledger).checkpoints[k])
    ensures Succeeded(old(node.ledger), k) ==> node.ledger.sent == old(node.ledger).sent
    ensures node.calm ==> r.Success?
  {
    var _ :- node.Await();
    if k in node.ledger.checkpoints { return Success(node.ledger.checkpoints[k]); }
    var live :- FindLive(node, k);
    if live.Some? && live.value.1 == Pending { return Success(live.value.0); }
    if live.Some? {
      var _ :- node.RecordCheckpoint(k, live.value.0);
      return Success(live.value.0);
    }
    r := SendAndRecord(node, k);
  }

  /** The newest submission of the step that has not failed, and what has become of it. */
  method FindLive(node: Node, k: Key) returns (r: Answer<Option<(Hash, Outcome)>>)
    requires node.first == None && Safe(node.ledger, None)
    modifies node`ledger
    ensures Safe(node.ledger, None) && Watched(old(node.ledger), node.ledger)
    ensures r == Success(None) ==> AllFailed(node.ledger, k)
    ensures r.Success? && r.value.Some? ==>
              r.value.value.0 in Submissions(node.ledger, k) && OutcomeOf(node.ledger, r.value.value.0) == r.value.value.1 != Failed
    ensures node.calm ==> r.Success?
  {
    var _ :- node.Await();
    var list := Submissions(node.ledger, k);
    for i := 0 to |list|
      invariant Safe(node.ledger, None) && Watched(old(node.ledger), node.ledger)
      invariant forall j :: 0 <= j < i ==> OutcomeOf(node.ledger, list[j]) == Failed
    {
      var outcome :- node.ReadOutcome(list[i]);
      if outcome != Failed { return Success(Some((list[i], outcome))); }
    }
    return Success(None);
  }

  /** The proofs a pass attempts: none for a payout that is not submitted; a refund only while it still is. */
  function Proofs(read: int, quorum: bool, between: int, refundable: bool): seq<Step> {
    if read != 3 then []
    else (if quorum then [ProveCompletion] else []) + (if between == 3 && refundable then [ProveRelayRefund] else [])
  }

  /**
   Only a payout that reads as submitted is proved: completed with a quorum, and
   refunded with one if it then still reads as submitted.  `read` and `between` are
   the status at first and after the completion, the answer is the last one read.
   */
  method RunDownstream(node: Node, intent: Intent, quorum: bool, refundable: bool)
    returns (r: Answer<int>, read: int, between: int, proofs: seq<Step>)
    requires node.first == None && Safe(node.ledger, None)
    modifies node
    ensures Safe(node.ledger, None) && Later(old(node.ledger), node.ledger)
    ensures SentOnly(old(node.ledger), node.ledger, set p | p in proofs)
    ensures r.Success? ==> proofs == Proofs(read, quorum, between, refundable)
    ensures r.Success? && ProveCompletion !in proofs ==> between == read
    ensures r.Success? && ProveRelayRefund !in proofs ==> r.value == between
    ensures node.calm ==> r.Success?
    ensures OnlyOf(intent, old(node.heard), node.heard)
    ensures node.calm ==>
              node.heard == old(node.heard) + [(intent, read)] + (if ProveCompletion in proofs then [(intent, between)] else [])
                            + (if ProveRelayRefund in proofs then [(intent, r.value)] else [])
  {
    read, between, proofs := 0, 0, [];
    var status := node.ReadAdapterStatus(intent);
    if status.Failure? { r := Failure(()); return; }
    read, between := status.value, status.value;
    r := Success(read);
    if read != 3 { return; }
    ghost var start, heard := node.ledger, node.heard;
    var completion, refund, last;
    between, completion := Attempt(node, Key(intent, ProveCompletion), quorum, read);
    ghost var middle := node.ledger;
    last, refund := Attempt(node, Key(intent, ProveRelayRefund), between == 3 && refundable, between);
    SentOnlyBoth(start, middle, node.ledger, set p | p in completion, set p | p in refund);
    proofs := completion + refund;
    r := Success(last);
  }

  /** A proof that is due; an error in it is only noted. */
  method Attempt(node: Node, k: Key, due: bool, status: int) returns (after: int, proofs: seq<Step>)
    requires node.first == None && Safe(node.ledger, None)
    modifies node
    ensures Safe(node.ledger, None) && Later(old(node.ledger), node.ledger) && SentOnly(old(node.ledger), node.ledger, set p | p in proofs)
    ensures proofs == (if due then [k.step] else []) && (!due ==> after == status)
    ensures OnlyOf(k.intent, old(node.heard), node.heard)
    ensures node.calm ==> node.heard == old(node.heard) + if due then [(k.intent, after)] else []
  {
    after, proofs := status, [];
    if !due { return; }
    proofs := [k.step];
    var proved := Prove(node, k);
    if proved.Success? { after := proved.value; }
  }

  /** Nobody's status was read but this intent's. */
  predicate OnlyOf(intent: Intent, before: seq<(Intent, int)>, after: seq<(Intent, int)>) {
    before <= after && forall i :: |before| <= i < |after| ==> after[i].0 == intent
  }

  lemma SentOnlyBoth(a: Ledger, b: Ledger, c: Ledger, x: set<Step>, y: set<Step>)
    requires Later(a, b) && Later(b, c) && SentOnly(a, b, x) && SentOnly(b, c, y)
    ensures SentOnly(a, c, x + y)
  {
    forall i | |a.sent| <= i < |c.sent|
      ensures c.sent[i].key.step in x + y
    {
      if i < |b.sent| { assert c.sent[i] == b.sent[i]; }
    }
  }

  /** One terminal transaction, and the status after it. */
  method Prove(node: Node, k: Key) returns (r: Answer<int>)
    requires node.first == None && Safe(node.ledger, None)
    modifies node
    ensures Safe(node.ledger, None) && Later(old(node.ledger), node.ledger) && SentOnly(old(node.ledger), node.ledger, {k.step})
    ensures node.heard == old(node.heard) + Told(k.intent, r)
    ensures node.calm ==> r.Success?
  {
    var _ :- RunTerminalTransaction(node, k);
    r := node.ReadAdapterStatus(k.intent);
  }

  /**
   Any number of executions and downstream passes, for any batches, each cut
   off wherever it happens to be: the node.ledger is safe after all of them, and no
   checkpoint ever changed.
   */
  method RestartForever(node: Node, rounds: nat)
    requires node.first == None && Safe(node.ledger, None)
    modifies node
    ensures Safe(node.ledger, None) && Later(old(node.ledger), node.ledger)
  {
    for i := 0 to rounds
      invariant Safe(node.ledger, None) && Later(old(node.ledger), node.ledger)
    {
      var children: seq<Intent>, batch: Intent, downstream: bool := *, *, *;
      if downstream {
        var quorum: bool, refundable: bool := *, *;
        var _, _, _, _ := RunDownstream(node, batch, quorum, refundable);
      } else {
        var _, _, _, _ := RunExecution(node, children, batch);
      }
    }
  }
}
