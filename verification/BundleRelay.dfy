/**
 `processPoolV4Bundle` run by any number of tasks over one execution table: the
 probe, the claim, the broadcast and the two recordings are separate steps, a
 task may crash or throw between any two, and the node may answer a broadcast
 with any hash or not at all.  Other writers of the table (the V7 worker's
 retain and retire) run in between.
 */
module BundleRelay {
  import opened Wrappers
  import opened ExecutionTable

  datatype Task =
    | Probing(id: Identity)              // before retain(identity, false)
    | Ready(id: Identity)                // found fresh, about to claim
    | Claimed(id: Identity)              // retain(identity) answered fresh, about to broadcast
    | Submitted(id: Identity, hash: Hex32)   // the node answered, onSubmitted is due
    | Recording(id: Identity, hash: Hex32)   // the second recording is due
    | Settling(id: Identity, hash: Hex32)    // waiting for the canonical receipt

  /** A transaction handed to the node; `hash` is None when the answer was lost. */
  datatype Sent = Sent(callHash: Hex32, hash: Option<Hex32>)

  datatype State = State(rows: Table, tasks: map<nat, Task>, sent: seq<Sent>)

  predicate Start(s: State, u: State, p: nat, id: Identity) {
    p !in s.tasks && u == s.(tasks := s.tasks[p := Probing(id)])
  }

  predicate Probe(s: State, u: State, p: nat) {
    && p in s.tasks && s.tasks[p].Probing?
    && var id := s.tasks[p].id;
    && var r := Retain(s.rows, id, false);
    && r.Success?
    && (r.value.1.isFresh ==> u == s.(tasks := s.tasks[p := Ready(id)]))
    && (!r.value.1.isFresh ==>
          && r.value.1.hash.Some?     // otherwise the task is deferred: Stop
          && u == s.(tasks := s.tasks[p := Recording(id, r.value.1.hash.value)]))
  }

  predicate Claim(s: State, u: State, p: nat) {
    && p in s.tasks && s.tasks[p].Ready?
    && var id := s.tasks[p].id;
    && var r := Retain(s.rows, id, true);
    && r.Success? && r.value.1.isFresh
    && u == s.(rows := r.value.0, tasks := s.tasks[p := Claimed(id)])
  }

  /** A lost claim: the row was taken meanwhile, the task is deferred. */
  predicate ClaimLost(s: State, u: State, p: nat) {
    && p in s.tasks && s.tasks[p].Ready?
    && var r := Retain(s.rows, s.tasks[p].id, true);
    && (r.Failure? || !r.value.1.isFresh)
    && u == s.(tasks := s.tasks - {p})
  }

  predicate Broadcast(s: State, u: State, p: nat, hash: Option<Hex32>) {
    && p in s.tasks && s.tasks[p].Claimed?
    && var id := s.tasks[p].id;
    && u.rows == s.rows && u.sent == s.sent + [Sent(id.callHash, hash)]
    && u.tasks == if hash.Some? then s.tasks[p := Submitted(id, hash.value)] else s.tasks - {p}
  }

  predicate Record(s: State, u: State, p: nat) {
    && p in s.tasks && (s.tasks[p].Submitted? || s.tasks[p].Recording?)
    && var id, h := s.tasks[p].id, s.tasks[p].hash;
    && var r := RecordSubmission(s.rows, id.callHash, id.relayer, h);
    && r.Success?
    && u == s.(rows := r.value, tasks := s.tasks[p := if s.tasks[p].Submitted? then Recording(id, h) else Settling(id, h)])
  }

  /** A crash, a thrown error, a deferral or the end of the task. */
  predicate Stop(s: State, u: State, p: nat) {
    p in s.tasks && u == s.(tasks := s.tasks - {p})
  }

  /** The V7 worker's use of the same table. */
  predicate Other(s: State, u: State, op: Op) {
    !op.RecordOp? && u == s.(rows := Apply(s.rows, op))
  }

  datatype Action =
    | DoStart(p: nat, id: Identity) | DoProbe(p: nat) | DoClaim(p: nat) | DoClaimLost(p: nat)
    | DoBroadcast(p: nat, hash: Option<Hex32>) | DoRecord(p: nat) | DoStop(p: nat) | DoOther(op: Op)

  predicate Step(s: State, u: State, a: Action) {
    match a
    case DoStart(p, id) => Start(s, u, p, id)
    case DoProbe(p) => Probe(s, u, p)
    case DoClaim(p) => Claim(s, u, p)
    case DoClaimLost(p) => ClaimLost(s, u, p)
    case DoBroadcast(p, h) => Broadcast(s, u, p, h)
    case DoRecord(p) => Record(s, u, p)
    case DoStop(p) => Stop(s, u, p)
    case DoOther(op) => Other(s, u, op)
  }

  /** The task an action belongs to; other writers' actions belong to none. */
  function Actor(a: Action): Option<nat> {
    if a.DoOther? then None else Some(a.p)
  }

  lemma StepLeavesTask(s: State, u: State, a: Action, p: nat)
    requires Step(s, u, a) && Actor(a) != Some(p) && p in s.tasks
    ensures p in u.tasks && u.tasks[p] == s.tasks[p]
  {
  }

  // --------------------------------------------------------------- invariant

  ghost predicate WasSent(s: State, c: Hex32) {
    exists i :: 0 <= i < |s.sent| && s.sent[i].callHash == c
  }

  ghost predicate Answered(s: State, c: Hex32, h: Hex32) {
    Sent(c, Some(h)) in s.sent
  }

  ghost predicate Inv(s: State) {
    && Exclusive(s.rows)
    // a claim token: nobody else holds it, and nothing has been sent for it
    && (forall p :: p in s.tasks && s.tasks[p].Claimed? ==>
          && s.tasks[p].id.callHash in s.rows
          && s.rows[s.tasks[p].id.callHash].hash.None?
          && !WasSent(s, s.tasks[p].id.callHash))
    && (forall p, q :: p in s.tasks && q in s.tasks && p != q && s.tasks[p].Claimed? && s.tasks[q].Claimed?
          ==> s.tasks[p].id.callHash != s.tasks[q].id.callHash)
    // everything sent belongs to a row that is never removed
    && (forall i :: 0 <= i < |s.sent| ==> s.sent[i].callHash in s.rows)
    && (forall i, j :: 0 <= i < j < |s.sent| ==> s.sent[i].callHash != s.sent[j].callHash)
    // every hash carried or stored is the node's answer to that call's only broadcast
    && (forall p :: p in s.tasks && (s.tasks[p].Submitted? || s.tasks[p].Recording? || s.tasks[p].Settling?)
          ==> Answered(s, s.tasks[p].id.callHash, s.tasks[p].hash))
    && (forall p :: p in s.tasks && s.tasks[p].Settling?
          ==> s.tasks[p].id.callHash in s.rows && s.rows[s.tasks[p].id.callHash].hash == Some(s.tasks[p].hash))
    && (forall c :: c in s.rows && s.rows[c].hash.Some? ==> Answered(s, c, s.rows[c].hash.value))
  }

  /** A retain or retire neither removes a row nor invents a hash. */
  lemma RowsKeepHashes(t: Table, op: Op)
    requires !op.RecordOp?
    ensures var u := Apply(t, op);
            && (forall c :: c in t ==> c in u && u[c].hash == t[c].hash)
            && (forall c :: c in u && c !in t ==> u[c].hash.None?)
  {
  }

  lemma OtherKeepsInv(s: State, u: State, op: Op)
    requires Inv(s) && Other(s, u, op)
    ensures Inv(u)
  {
    RowsKeepHashes(s.rows, op);
    ApplyKeepsExclusive(s.rows, op);
  }

  /** A claim adds one row, without a hash, under a call hash that had none. */
  ghost predicate Adds(s: State, u: State, p: nat) {
    && p in s.tasks && s.tasks[p].Ready?
    && var c := s.tasks[p].id.callHash;
    && c !in s.rows && u.rows.Keys == s.rows.Keys + {c} && u.rows[c].hash.None?
    && (forall d :: d in s.rows ==> u.rows[d].hash == s.rows[d].hash)
    && u.sent == s.sent && u.tasks == s.tasks[p := Claimed(s.tasks[p].id)]
  }

  lemma ClaimAdds(s: State, u: State, p: nat)
    requires Exclusive(s.rows) && Claim(s, u, p)
    ensures Adds(s, u, p) && Exclusive(u.rows)
  {
  }

  lemma AddKeepsInv(s: State, u: State, p: nat)
    requires Inv(s) && Adds(s, u, p) && Exclusive(u.rows)
    ensures Inv(u)
  {
    assert forall c, x :: Answered(s, c, x) <==> Answered(u, c, x);
    assert forall c :: WasSent(s, c) <==> WasSent(u, c);
  }

  lemma ClaimKeepsInv(s: State, u: State, p: nat)
    requires Inv(s) && Claim(s, u, p)
    ensures Inv(u)
  {
    ClaimAdds(s, u, p);
    AddKeepsInv(s, u, p);
  }

  lemma BroadcastKeepsInv(s: State, u: State, p: nat, h: Option<Hex32>)
    requires Inv(s) && Broadcast(s, u, p, h)
    ensures Inv(u)
  {
    assert forall c, x :: Answered(s, c, x) ==> Answered(u, c, x);
    assert h.Some? ==> u.sent[|s.sent|] == Sent(s.tasks[p].id.callHash, h);
  }

  lemma RecordKeepsInv(s: State, u: State, p: nat)
    requires Inv(s) && Record(s, u, p)
    ensures Inv(u)
  {
    var t := s.tasks[p];
    assert Answered(s, t.id.callHash, t.hash);
    assert u.rows == Apply(s.rows, RecordOp(t.id.callHash, t.id.relayer, t.hash));
    ApplyKeepsExclusive(s.rows, RecordOp(t.id.callHash, t.id.relayer, t.hash));
    assert u.sent == s.sent;
    assert forall c, x :: Answered(s, c, x) <==> Answered(u, c, x);
    assert forall c :: WasSent(s, c) <==> WasSent(u, c);
  }

  lemma ProbeKeepsInv(s: State, u: State, p: nat)
    requires Inv(s) && Probe(s, u, p)
    ensures Inv(u)
  {
    ProbeFindsAnswer(s, u, p);
    assert forall c, x :: Answered(s, c, x) <==> Answered(u, c, x);
    assert forall c :: WasSent(s, c) <==> WasSent(u, c);
  }

  /** A probe changes only its task, and a hash it hands on is a stored one. */
  lemma ProbeFindsAnswer(s: State, u: State, p: nat)
    requires Inv(s) && Probe(s, u, p)
    ensures u.sent == s.sent && u.rows == s.rows && p in s.tasks && p in u.tasks
    ensures u.tasks == s.tasks[p := u.tasks[p]] && !u.tasks[p].Claimed? && !u.tasks[p].Settling? && !u.tasks[p].Submitted?
    ensures u.tasks[p].Recording? ==> Answered(s, u.tasks[p].id.callHash, u.tasks[p].hash)
  {
  }

  lemma StepKeepsInv(s: State, u: State, a: Action)
    requires Inv(s) && Step(s, u, a)
    ensures Inv(u)
  {
    match a
    case DoProbe(p) => ProbeKeepsInv(s, u, p);
    case DoClaim(p) => ClaimKeepsInv(s, u, p);
    case DoBroadcast(p, h) => BroadcastKeepsInv(s, u, p, h);
    case DoRecord(p) => RecordKeepsInv(s, u, p);
    case DoOther(op) => OtherKeepsInv(s, u, op);
    case _ =>
      assert u.rows == s.rows && u.sent == s.sent;
      assert forall c, x :: Answered(s, c, x) <==> Answered(u, c, x);
  }

  // -------------------------------------------------------------- whole runs

  ghost predicate IsRun(run: seq<State>, acts: seq<Action>) {
    && |run| == |acts| + 1 && run[0] == State(map[], map[], [])
    && forall i :: 0 <= i < |acts| ==> Step(run[i], run[i + 1], acts[i])
  }

  lemma {:induction false} RunKeepsInv(run: seq<State>, acts: seq<Action>, i: nat)
    requires IsRun(run, acts) && i < |run|
    ensures Inv(run[i])
  {
    if i > 0 {
      RunKeepsInv(run, acts, i - 1);
      assert Step(run[i - 1], run[i], acts[i - 1]);
      StepKeepsInv(run[i - 1], run[i], acts[i - 1]);
    }
  }

  /** A call hash is broadcast at most once over the whole life of the system. */
  lemma BroadcastAtMostOnce(run: seq<State>, acts: seq<Action>, i: nat, a: nat, b: nat)
    requires IsRun(run, acts) && i < |run| && a < b < |run[i].sent|
    ensures run[i].sent[a].callHash != run[i].sent[b].callHash
  {
    RunKeepsInv(run, acts, i);
  }

  /**
   The hash kept in a row, and every hash a task goes on to settle, is the
   node's answer to that call's only broadcast.
   */
  lemma SettledHashIsTheBroadcast(run: seq<State>, acts: seq<Action>, i: nat, p: nat)
    requires IsRun(run, acts) && i < |run| && p in run[i].tasks && run[i].tasks[p].Settling?
    ensures var c, h := run[i].tasks[p].id.callHash, run[i].tasks[p].hash;
            && Answered(run[i], c, h)
            && (forall x :: Answered(run[i], c, x) ==> x == h)
            && c in run[i].rows && run[i].rows[c].hash == Some(h)
  {
    RunKeepsInv(run, acts, i);
  }

  /** Two broadcast calls that compete for a nullifier: one of them has been retired. */
  lemma CompetingBroadcastsNeedRetirement(run: seq<State>, acts: seq<Action>, i: nat, a: nat, b: nat)
    requires IsRun(run, acts) && i < |run| && a < b < |run[i].sent|
    ensures var c, d := run[i].sent[a].callHash, run[i].sent[b].callHash;
            && c in run[i].rows && d in run[i].rows
            && (run[i].rows[c].pool == run[i].rows[d].pool
                && Overlap(run[i].rows[c].nullifiers, run[i].rows[d].nullifiers)
                ==> Retired(run[i].rows, c) || Retired(run[i].rows, d))
  {
    RunKeepsInv(run, acts, i);
  }
}
