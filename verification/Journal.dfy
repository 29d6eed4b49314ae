/**
 The local journal of a payout worker and the chain it watches: append-only
 submissions and write-once checkpoints per (intent, step), and transaction
 outcomes that become final once.  `sent` and `lost` are history: what was
 handed to the node, and whether a send was ever cut off before it was journalled.
 */
module Journal {
  import opened Wrappers

  type Hash = nat
  type Intent = nat

  datatype Outcome = Pending | Successful | Failed

  datatype Step =
    | AcceptQuote | PoolWithdraw | ConfirmEscrowReceipt | SubmitPayout | ProveCompletion | ProveRelayRefund

  datatype Key = Key(intent: Intent, step: Step)

  /** A send, with what the journal and the chain said at that moment. */
  datatype Sent = Sent(key: Key, hash: Hash, earlier: seq<Hash>, funded: bool, lostBefore: bool)

  /** `fundedBy` holds the successful withdrawals; the escrows of a batch are funded together. */
  datatype Ledger = Ledger(
    submissions: map<Key, seq<Hash>>,     // newest first
    checkpoints: map<Key, Hash>,
    outcomes: map<Hash, Outcome>,
    fundedBy: set<Key>,
    sent: seq<Sent>,
    lost: bool)

  const EMPTY := Ledger(map[], map[], map[], {}, [], false)

  function Submissions(l: Ledger, k: Key): seq<Hash> {
    if k in l.submissions then l.submissions[k] else []
  }

  function OutcomeOf(l: Ledger, h: Hash): Outcome {
    if h in l.outcomes then l.outcomes[h] else Pending
  }

  // ----------------------------------------------------------------- updates

  /** INSERT ... ON CONFLICT (intent_hash, step, transaction_hash) DO NOTHING. */
  function Journalled(l: Ledger, k: Key, h: Hash): Ledger {
    if h in Submissions(l, k) then l else l.(submissions := l.submissions[k := [h] + Submissions(l, k)])
  }

  /** INSERT ... ON CONFLICT DO NOTHING, then the stored hash must be the given one. */
  function Checkpointed(l: Ledger, k: Key, h: Hash): Result<Ledger, ()> {
    if k !in l.checkpoints then Success(l.(checkpoints := l.checkpoints[k := h]))
    else if l.checkpoints[k] == h then Success(l)
    else Failure(())
  }

  /** The chain decides a transaction; a successful withdrawal funds its batch. */
  function Mined(l: Ledger, h: Hash, ok: bool): Ledger {
    if OutcomeOf(l, h) != Pending then l
    else
      l.(outcomes := l.outcomes[h := if ok then Successful else Failed],
         fundedBy := if ok then l.fundedBy + (set i | 0 <= i < |l.sent| && l.sent[i].hash == h && l.sent[i].key.step == PoolWithdraw :: l.sent[i].key)
                     else l.fundedBy)
  }

  /** A signed transaction goes to the node; its hash has not been seen before. */
  function Broadcasted(l: Ledger, k: Key, h: Hash): Ledger {
    l.(sent := l.sent + [Sent(k, h, Submissions(l, k), k in l.fundedBy, l.lost)])
  }

  predicate Unused(l: Ledger, h: Hash) {
    && h !in l.outcomes
    && (forall i :: 0 <= i < |l.sent| ==> l.sent[i].hash != h)
    && (forall k :: k in l.submissions ==> h !in l.submissions[k])
  }

  // --------------------------------------------------------------- invariants

  /** Every submission journalled for the step has been decided by the chain. */
  predicate Decided(l: Ledger, k: Key) {
    forall h :: h in Submissions(l, k) ==> OutcomeOf(l, h) != Pending
  }

  /** Every submission the journal holds for the key has failed. */
  predicate AllFailed(l: Ledger, k: Key) {
    forall h :: h in Submissions(l, k) ==> OutcomeOf(l, h) == Failed
  }

  predicate SendOk(l: Ledger, e: Sent) {
    && (forall h :: h in e.earlier ==> OutcomeOf(l, h) == Failed)
    && (e.key.step == PoolWithdraw && !e.lostBefore ==> !e.funded)
  }

  /** Of the submissions journalled for a key all but the newest have failed. */
  ghost predicate OlderFailed(l: Ledger) {
    forall k, i :: k in l.submissions && 1 <= i < |l.submissions[k]| ==> OutcomeOf(l, l.submissions[k][i]) == Failed
  }

  /**
   The key whose journal vouches for a checkpoint: its own, except that a shared
   withdrawal is vouched for by the first intent of its batch.
   */
  function Home(first: Option<Intent>, k: Key): Key {
    if k.step == PoolWithdraw && first.Some? then Key(first.value, PoolWithdraw) else k
  }

  ghost predicate CheckpointsSucceeded(l: Ledger, first: Option<Intent>) {
    forall k :: k in l.checkpoints ==>
      l.checkpoints[k] in Submissions(l, Home(first, k)) && OutcomeOf(l, l.checkpoints[k]) == Successful
  }

  ghost predicate SendsOk(l: Ledger) {
    && (forall i :: 0 <= i < |l.sent| ==> SendOk(l, l.sent[i]))
    && (forall i, j :: 0 <= i < j < |l.sent| ==> l.sent[i].hash != l.sent[j].hash)
    && WithdrawalsFund(l)
  }

  /** A withdrawal that succeeded has funded its batch. */
  ghost predicate WithdrawalsFund(l: Ledger) {
    forall i :: 0 <= i < |l.sent| && l.sent[i].key.step == PoolWithdraw && OutcomeOf(l, l.sent[i].hash) == Successful
      ==> l.sent[i].key in l.fundedBy
  }

  /** The chain has decided everything that was sent or journalled. */
  ghost predicate NothingPending(l: Ledger) {
    && (forall k :: Decided(l, k))
    && forall i :: 0 <= i < |l.sent| ==> OutcomeOf(l, l.sent[i].hash) != Pending
  }

  ghost predicate Succeeded(l: Ledger, k: Key) {
    exists h :: h in Submissions(l, k) && OutcomeOf(l, h) == Successful
  }

  /** Everything sent is journalled and only a journalled withdrawal has funded its batch. */
  ghost predicate NothingHidden(l: Ledger) {
    && (forall i :: 0 <= i < |l.sent| ==> l.sent[i].hash in Submissions(l, l.sent[i].key))
    && (forall k :: k in l.fundedBy ==> Succeeded(l, k))
  }

  ghost predicate WasSent(l: Ledger, k: Key, h: Hash) {
    exists i :: 0 <= i < |l.sent| && l.sent[i].key == k && l.sent[i].hash == h
  }

  /** Whatever is journalled was sent. */
  ghost predicate JournalIsSent(l: Ledger, first: Option<Intent>) {
    forall k, h {:trigger WasSent(l, Home(first, k), h)} :: h in Submissions(l, k) ==> WasSent(l, Home(first, k), h)
  }

  ghost predicate Safe(l: Ledger, first: Option<Intent>) {
    && OlderFailed(l) && CheckpointsSucceeded(l, first) && SendsOk(l) && JournalIsSent(l, first)
    && (!l.lost ==> NothingHidden(l))
  }

  /** A journalled withdrawal that succeeded has funded its batch; unless a send was lost, nothing else has. */
  lemma FundedExactlyBySuccess(l: Ledger, first: Option<Intent>, k: Key)
    requires Safe(l, first) && k.step == PoolWithdraw && Home(first, k) == k
    ensures Succeeded(l, k) ==> k in l.fundedBy
    ensures !l.lost ==> (Succeeded(l, k) <==> k in l.fundedBy)
  {
    if Succeeded(l, k) {
      var h :| h in Submissions(l, k) && OutcomeOf(l, h) == Successful;
      assert WasSent(l, Home(first, k), h);
    }
  }

  lemma StillSent(a: Ledger, b: Ledger, k: Key, h: Hash)
    requires WasSent(a, k, h) && a.sent <= b.sent
    ensures WasSent(b, k, h)
  {
    var i :| 0 <= i < |a.sent| && a.sent[i].key == k && a.sent[i].hash == h;
    assert b.sent[i] == a.sent[i];
  }

  lemma JournalStaysSent(a: Ledger, b: Ledger, first: Option<Intent>)
    requires JournalIsSent(a, first) && a.sent <= b.sent && forall k :: Submissions(b, k) == Submissions(a, k)
    ensures JournalIsSent(b, first)
  {
    forall k, h | h in Submissions(b, k)
      ensures WasSent(b, Home(first, k), h)
    {
      StillSent(a, b, Home(first, k), h);
    }
  }

  /** What only grows: checkpoints keep their value, outcomes are final, nothing sent is forgotten. */
  ghost predicate Later(a: Ledger, b: Ledger) {
    && (forall k :: k in a.checkpoints ==> k in b.checkpoints && b.checkpoints[k] == a.checkpoints[k])
    && (forall h :: OutcomeOf(a, h) != Pending ==> OutcomeOf(b, h) == OutcomeOf(a, h))
    && (forall k, h :: h in Submissions(a, k) ==> h in Submissions(b, k))
    && a.sent <= b.sent && a.fundedBy <= b.fundedBy && (a.lost ==> b.lost)
  }

  /** Everything sent between the two was for one of the steps. */
  ghost predicate SentOnly(a: Ledger, b: Ledger, steps: set<Step>) {
    forall i :: |a.sent| <= i < |b.sent| ==> b.sent[i].key.step in steps
  }

  /** These keys, in this order, with some of the plan left out. */
  predicate Within(keys: seq<Key>, plan: seq<Key>) {
    if keys == [] then true
    else if plan == [] then false
    else (keys[0] == plan[0] && Within(keys[1..], plan[1..])) || Within(keys, plan[1..])
  }

  function NewKeys(a: Ledger, b: Ledger): seq<Key>
    requires a.sent <= b.sent
  {
    seq(|b.sent| - |a.sent|, i requires 0 <= i < |b.sent| - |a.sent| => b.sent[|a.sent| + i].key)
  }

  /** What was sent between the two follows the plan: each of its steps at most once, in its order, and nothing else. */
  ghost predicate Follows(a: Ledger, b: Ledger, plan: seq<Key>) {
    a.sent <= b.sent && Within(NewKeys(a, b), plan)
  }

  lemma {:induction false} WithinConcat(s: seq<Key>, p: seq<Key>, t: seq<Key>, q: seq<Key>)
    requires Within(s, p) && Within(t, q)
    ensures Within(s + t, p + q)
    decreases |p|
  {
    if p == [] {
      assert s + t == t && p + q == q;
    } else {
      assert (p + q)[1..] == p[1..] + q;
      if s != [] && s[0] == p[0] && Within(s[1..], p[1..]) {
        WithinConcat(s[1..], p[1..], t, q);
        assert (s + t)[1..] == s[1..] + t;
      } else {
        assert Within(s, p[1..]);
        WithinConcat(s, p[1..], t, q);
        if s + t == [] { assert Within(s + t, p + q); }
      }
    }
  }

  lemma FollowsThen(a: Ledger, b: Ledger, c: Ledger, p: seq<Key>, q: seq<Key>)
    requires Follows(a, b, p) && Follows(b, c, q)
    ensures Follows(a, c, p + q)
  {
    WithinConcat(NewKeys(a, b), p, NewKeys(b, c), q);
    assert NewKeys(a, c) == NewKeys(a, b) + NewKeys(b, c);
  }

  /** Nothing sent follows any plan. */
  lemma SilenceFollows(a: Ledger, b: Ledger, plan: seq<Key>)
    requires b.sent == a.sent
    ensures Follows(a, b, plan)
  {
    assert NewKeys(a, b) == [];
  }

  /** Only what was sent counts. */
  lemma FollowsSame(a: Ledger, b: Ledger, c: Ledger, d: Ledger, plan: seq<Key>)
    requires Follows(a, b, plan) && c.sent == a.sent && d.sent == b.sent
    ensures Follows(c, d, plan)
  {
    assert NewKeys(c, d) == NewKeys(a, b);
  }

  /** Nor does it matter what the plan goes on with. */
  lemma FollowsMore(a: Ledger, b: Ledger, p: seq<Key>, q: seq<Key>)
    requires Follows(a, b, p)
    ensures Follows(a, b, p + q)
  {
    SilenceFollows(b, b, q);
    FollowsThen(a, b, b, p, q);
  }

  lemma OneFollows(a: Ledger, b: Ledger, k: Key)
    requires |b.sent| == |a.sent| + 1 && a.sent <= b.sent && b.sent[|a.sent|].key == k
    ensures Follows(a, b, [k])
  {
    assert NewKeys(a, b) == [k] && [k][1..] == [];
  }

  lemma LaterKeepsSucceeded(a: Ledger, b: Ledger, k: Key)
    requires Later(a, b) && Succeeded(a, k)
    ensures Succeeded(b, k)
  {
  }

  lemma MinedIsLater(l: Ledger, h: Hash, ok: bool)
    ensures Later(l, Mined(l, h, ok))
    ensures forall k :: Submissions(Mined(l, h, ok), k) == Submissions(l, k)
    ensures forall x :: x != h ==> OutcomeOf(Mined(l, h, ok), x) == OutcomeOf(l, x)
  {
  }

  lemma MinedKeepsSends(l: Ledger, h: Hash, ok: bool)
    requires SendsOk(l)
    ensures SendsOk(Mined(l, h, ok))
  {
    var m := Mined(l, h, ok);
    MinedIsLater(l, h, ok);
    forall i | 0 <= i < |m.sent|
      ensures SendOk(m, m.sent[i])
    {
      assert SendOk(l, l.sent[i]);
    }
  }

  lemma MinedHidesNothing(l: Ledger, h: Hash, ok: bool)
    requires NothingHidden(l)
    ensures NothingHidden(Mined(l, h, ok))
  {
    var m := Mined(l, h, ok);
    MinedIsLater(l, h, ok);
    forall k | k in m.fundedBy
      ensures Succeeded(m, k)
    {
      if k in l.fundedBy {
        LaterKeepsSucceeded(l, m, k);
      } else {
        assert h in Submissions(m, k) && OutcomeOf(m, h) == Successful;
      }
    }
  }

  lemma MinedKeepsSafe(l: Ledger, first: Option<Intent>, h: Hash, ok: bool)
    requires Safe(l, first)
    ensures Safe(Mined(l, h, ok), first) && Later(l, Mined(l, h, ok))
  {
    MinedIsLater(l, h, ok);
    MinedKeepsSends(l, h, ok);
    JournalStaysSent(l, Mined(l, h, ok), first);
    if !l.lost {
      MinedHidesNothing(l, h, ok);
    }
  }

  /** A withdrawal is sent only over failures, so nothing has funded the batch unless a send was lost. */
  lemma SendIsOk(l: Ledger, first: Option<Intent>, k: Key, h: Hash)
    requires Safe(l, first) && Unused(l, h) && AllFailed(l, k)
    ensures SendsOk(Broadcasted(l, k, h))
  {
  }

  /** Cut off before it is journalled, the send is lost. */
  lemma LostSendKeepsSafe(l: Ledger, first: Option<Intent>, k: Key, h: Hash)
    requires Safe(l, first) && Unused(l, h) && AllFailed(l, k)
    ensures var m := Broadcasted(l, k, h).(lost := true); Safe(m, first) && Later(l, m)
  {
    var m := Broadcasted(l, k, h).(lost := true);
    SendIsOk(l, first, k, h);
    assert forall x :: OutcomeOf(m, x) == OutcomeOf(l, x);
    assert forall o :: Submissions(m, o) == Submissions(l, o);
    JournalStaysSent(l, m, first);
    forall i | 0 <= i < |m.sent|
      ensures SendOk(m, m.sent[i])
    {
      assert SendOk(Broadcasted(l, k, h), m.sent[i]);
    }
  }

  lemma JournalledSendKeepsSafe(l: Ledger, first: Option<Intent>, k: Key, h: Hash)
    requires Safe(l, first) && Unused(l, h) && AllFailed(l, k) && Home(first, k) == k
    ensures var m := Journalled(Broadcasted(l, k, h), k, h); Safe(m, first) && Later(l, m)
    ensures Submissions(Journalled(Broadcasted(l, k, h), k, h), k) == [h] + Submissions(l, k)
  {
    var b := Broadcasted(l, k, h);
    var m := Journalled(b, k, h);
    SendIsOk(l, first, k, h);
    assert Submissions(m, k) == [h] + Submissions(l, k);
    assert forall x :: OutcomeOf(m, x) == OutcomeOf(l, x);
    assert forall o :: o != k ==> Submissions(m, o) == Submissions(l, o);
    assert Later(l, m);
    forall o, x | x in Submissions(m, o)
      ensures WasSent(m, Home(first, o), x)
    {
      if x in Submissions(l, o) {
        StillSent(l, m, Home(first, o), x);
      } else {
        assert m.sent[|l.sent|].key == k && m.sent[|l.sent|].hash == h;
      }
    }
    forall o, i | o in m.submissions && 1 <= i < |m.submissions[o]|
      ensures OutcomeOf(m, m.submissions[o][i]) == Failed
    {
      if o == k { assert m.submissions[o][i] in Submissions(l, k); }
    }
    forall i | 0 <= i < |m.sent|
      ensures SendOk(m, m.sent[i])
    {
      assert SendOk(b, b.sent[i]);
    }
    if !m.lost {
      forall o | o in m.fundedBy
        ensures Succeeded(m, o)
      {
        LaterKeepsSucceeded(l, m, o);
      }
    }
  }

  lemma CheckpointKeepsSafe(l: Ledger, first: Option<Intent>, k: Key, h: Hash)
    requires Safe(l, first) && h in Submissions(l, Home(first, k)) && OutcomeOf(l, h) == Successful
    ensures Checkpointed(l, k, h).Success?
    ensures var m := Checkpointed(l, k, h).value; Safe(m, first) && Later(l, m) && m.checkpoints == l.checkpoints[k := h]
  {
    if k in l.checkpoints { AtMostOneSuccess(l, first, Home(first, k), h, l.checkpoints[k]); }
    var m := Checkpointed(l, k, h).value;
    assert forall x :: OutcomeOf(m, x) == OutcomeOf(l, x);
    assert forall o :: Submissions(m, o) == Submissions(l, o);
    JournalStaysSent(l, m, first);
    LearningKeepsSends(l, m);
  }

  /** Sends stay in order, and nothing is hidden, when the journal and the chain only learn. */
  lemma LearningKeepsSends(l: Ledger, m: Ledger)
    requires SendsOk(l) && Later(l, m) && m.sent == l.sent && m.fundedBy == l.fundedBy && m.lost == l.lost && m.outcomes == l.outcomes
    ensures SendsOk(m) && (!l.lost && NothingHidden(l) ==> NothingHidden(m))
  {
  }

  lemma AlsoJournalledOlderFailed(l: Ledger, k: Key, h: Hash)
    requires OlderFailed(l) && AllFailed(l, k)
    ensures OlderFailed(Journalled(l, k, h))
  {
    var m := Journalled(l, k, h);
    forall o, i | o in m.submissions && 1 <= i < |m.submissions[o]|
      ensures OutcomeOf(m, m.submissions[o][i]) == Failed
    {
      if o == k && m != l { assert m.submissions[o][i] in Submissions(l, k); }
    }
  }

  lemma JournalledIsLater(l: Ledger, k: Key, h: Hash)
    ensures Later(l, Journalled(l, k, h))
    ensures forall x :: OutcomeOf(Journalled(l, k, h), x) == OutcomeOf(l, x)
    ensures forall x :: x in Submissions(Journalled(l, k, h), k) <==> x == h || x in Submissions(l, k)
    ensures forall o :: o != k ==> Submissions(Journalled(l, k, h), o) == Submissions(l, o)
  {
    var m := Journalled(l, k, h);
    assert forall o :: o != k ==> Submissions(m, o) == Submissions(l, o);
    assert Submissions(m, k) == if h in Submissions(l, k) then Submissions(l, k) else [h] + Submissions(l, k);
  }

  lemma AlsoJournalledWasSent(l: Ledger, first: Option<Intent>, k: Key, h: Hash)
    requires JournalIsSent(l, first) && WasSent(l, Home(first, k), h)
    ensures JournalIsSent(Journalled(l, k, h), first)
  {
    var m := Journalled(l, k, h);
    assert forall o :: o != k ==> Submissions(m, o) == Submissions(l, o);
    forall o, x | x in Submissions(m, o)
      ensures WasSent(m, Home(first, o), x)
    {
      assert x in Submissions(l, o) ==> WasSent(l, Home(first, o), x);
      StillSent(l, m, Home(first, o), x);
    }
  }

  /** The send is journalled for a further intent, whose earlier submissions have all failed. */
  lemma AlsoJournalledKeepsSafe(l: Ledger, first: Option<Intent>, k: Key, h: Hash)
    requires Safe(l, first) && AllFailed(l, k) && WasSent(l, Home(first, k), h)
    ensures var m := Journalled(l, k, h); Safe(m, first) && Later(l, m)
    ensures forall x :: x in Submissions(Journalled(l, k, h), k) <==> x == h || x in Submissions(l, k)
    ensures forall o :: o != k ==> Submissions(Journalled(l, k, h), o) == Submissions(l, o)
  {
    var m := Journalled(l, k, h);
    JournalledIsLater(l, k, h);
    LearningKeepsSends(l, m);
    AlsoJournalledWasSent(l, first, k, h);
    AlsoJournalledOlderFailed(l, k, h);
  }

  /** At most one journalled transaction of a step succeeds, ever. */
  lemma AtMostOneSuccess(l: Ledger, first: Option<Intent>, k: Key, g: Hash, h: Hash)
    requires Safe(l, first) && g in Submissions(l, k) && h in Submissions(l, k)
    requires OutcomeOf(l, g) != Failed && OutcomeOf(l, h) != Failed
    ensures g == h
  {
  }

  /** While no send was cut off, at most one transaction sent for a step is not a failure. */
  lemma AtMostOneLiveSend(l: Ledger, first: Option<Intent>, i: nat, j: nat)
    requires Safe(l, first) && !l.lost && i < |l.sent| && j < |l.sent| && l.sent[i].key == l.sent[j].key
    requires OutcomeOf(l, l.sent[i].hash) != Failed && OutcomeOf(l, l.sent[j].hash) != Failed
    ensures i == j
  {
  }
}
