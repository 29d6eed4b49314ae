/**
 `runPayoutV7Transaction`: an insert-once row of signed bytes is the one-shot
 right to broadcast them.  Any number of workers run on any ids, each `await`
 is a step boundary, a worker may crash or throw anywhere, and what signing,
 the node and the chain answer is arbitrary.  The broadcast wrapper of the
 runtime passes the execution gate first.
 */
module SignedCalls {
  import opened Wrappers
  import opened ExecutionTable

  type Bytes = seq<bv8>
  type Keccak = Bytes -> Hex32

  datatype Call = Call(target: Address, calldata: Bytes, raw: Bytes, hash: Hex32)
  type Calls = map<string, Call>

  /** The insert of `retain`: ON CONFLICT(id) DO NOTHING, true when the row is new. */
  function Insert(calls: Calls, id: string, c: Call): (r: (Calls, bool))
    ensures id in r.0
    ensures r.1 <==> id !in calls
    ensures r.0[id] == if id in calls then calls[id] else c
    ensures forall o :: o != id ==> (o in r.0 <==> o in calls) && (o in calls ==> r.0[o] == calls[o])
  {
    if id in calls then (calls, false) else (calls[id := c], true)
  }

  /** The signed calls of the worker store. */
  class CallStore {
    var calls: Calls

    constructor ()
      ensures calls == map[]
    {
      calls := map[];
    }

    method Read(id: string, keccak: Keccak) returns (r: Result<Option<Call>, string>)
      ensures r == if id !in calls then Success(None)
                   else if keccak(calls[id].raw) == calls[id].hash then Success(Some(calls[id]))
                   else Failure("corrupt")
    {
      if id !in calls { return Success(None); }
      var row := calls[id];
      if keccak(row.raw) != row.hash { return Failure("corrupt"); }
      return Success(Some(row));
    }

    method Retain(id: string, c: Call, keccak: Keccak) returns (r: Result<bool, string>)
      modifies this
      ensures keccak(c.raw) != c.hash ==> r == Failure("mismatch") && calls == old(calls)
      ensures keccak(c.raw) == c.hash ==>
                calls == Insert(old(calls), id, c).0 && r == Success(Insert(old(calls), id, c).1)
    {
      if keccak(c.raw) != c.hash { return Failure("mismatch"); }
      if id in calls { return Success(false); }
      calls := calls[id := c];
      return Success(true);
    }
  }

  // ----------------------------------------------------------------- workers

  /** What a worker was started with. */
  datatype Job = Job(id: string, target: Address, calldata: Bytes, group: Identity)

  datatype Worker =
    | Reading(job: Job)
    | Preparing(job: Job)
    | Signed(job: Job, call: Call)
    | Holding(job: Job, call: Call)      // its insert created the row
    | Gated(job: Job, call: Call)        // the execution gate let it through
    | Rereading(job: Job)
    | Checking(job: Job, call: Call)
    | Returned(job: Job, hash: Hex32)

  datatype Outcome = Pending | Succeeded | Failed

  datatype Send = Send(id: string, raw: Bytes, group: Identity)

  datatype State = State(rows: Table, calls: Calls, workers: map<nat, Worker>,
                         sends: seq<Send>, chain: map<Hex32, Outcome>)

  /** The pool and the nullifiers each call hash commits to. */
  datatype Binding = Binding(pools: map<Hex32, Address>, inputs: map<Hex32, seq<Hex32>>)

  predicate Binds(b: Binding, id: Identity) {
    && id.callHash in b.pools && b.pools[id.callHash] == id.pool
    && id.callHash in b.inputs && b.inputs[id.callHash] == id.nullifiers
  }

  datatype Action =
    | Start(p: nat, job: Job)
    | Read(p: nat)
    | Prepare(p: nat, raw: Bytes, hash: Hex32)
    | RetainCall(p: nat)
    | Gate(p: nat)
    | Broadcast(p: nat, answer: Option<Hex32>)
    | Check(p: nat)
    | Stop(p: nat)
    | Mine(hash: Hex32, outcome: Outcome)
    | Other(op: Op)

  predicate Step(keccak: Keccak, b: Binding, s: State, u: State, a: Action) {
    match a
    case Start(p, job) =>
      p !in s.workers && Binds(b, job.group) && u == s.(workers := s.workers[p := Reading(job)])
    case Read(p) =>
      && p in s.workers
      && (match s.workers[p]
          case Reading(job) =>
            if job.id in s.calls then keccak(s.calls[job.id].raw) == s.calls[job.id].hash
                                      && u == s.(workers := s.workers[p := Checking(job, s.calls[job.id])])
            else u == s.(workers := s.workers[p := Preparing(job)])
          case Rereading(job) =>
            && job.id in s.calls && keccak(s.calls[job.id].raw) == s.calls[job.id].hash
            && u == s.(workers := s.workers[p := Checking(job, s.calls[job.id])])
          case _ => false)
    case Prepare(p, raw, hash) =>
      && p in s.workers && s.workers[p].Preparing?
      && var job := s.workers[p].job;
      && u == s.(workers := s.workers[p := Signed(job, Call(job.target, job.calldata, raw, hash))])
    case RetainCall(p) =>
      && p in s.workers && s.workers[p].Signed?
      && var job, call := s.workers[p].job, s.workers[p].call;
      && keccak(call.raw) == call.hash
      && var r := Insert(s.calls, job.id, call);
      && u == s.(calls := r.0, workers := s.workers[p := if r.1 then Holding(job, call) else Rereading(job)])
    case Gate(p) =>
      && p in s.workers && s.workers[p].Holding?
      && var job := s.workers[p].job;
      && Retain(s.rows, job.group, true).Success?
      && u == s.(rows := Apply(s.rows, RetainOp(job.group, true)), workers := s.workers[p := Gated(job, s.workers[p].call)])
    case Broadcast(p, answer) =>
      && p in s.workers && s.workers[p].Gated?
      && var job, call := s.workers[p].job, s.workers[p].call;
      && u.rows == s.rows && u.calls == s.calls && u.chain == s.chain
      && u.sends == s.sends + [Send(job.id, call.raw, job.group)]
      && u.workers == if answer == Some(call.hash) then s.workers[p := Checking(job, call)] else s.workers - {p}
    case Check(p) =>
      && p in s.workers && s.workers[p].Checking?
      && var job, call := s.workers[p].job, s.workers[p].call;
      && call.target == job.target && call.calldata == job.calldata
      && call.hash in s.chain && s.chain[call.hash] == Succeeded
      && u == s.(workers := s.workers[p := Returned(job, call.hash)])
    case Stop(p) => p in s.workers && u == s.(workers := s.workers - {p})
    case Mine(hash, outcome) =>
      // a finalized outcome does not change
      && (hash in s.chain ==> s.chain[hash] == Pending)
      && u == s.(chain := s.chain[hash := outcome])
    case Other(op) =>
      && (!op.RecordOp? ==> Binds(b, op.id))
      && u == s.(rows := Apply(s.rows, op))
  }

  /** The worker an action belongs to; the chain and the table's other writers are nobody's. */
  function Actor(a: Action): Option<nat> {
    if a.Mine? || a.Other? then None else Some(a.p)
  }

  lemma StepLeavesWorker(keccak: Keccak, b: Binding, s: State, u: State, a: Action, p: nat)
    requires Step(keccak, b, s, u, a) && Actor(a) != Some(p) && p in s.workers
    ensures p in u.workers && u.workers[p] == s.workers[p]
  {
  }

  // --------------------------------------------------------------- invariant

  ghost predicate SentId(s: State, id: string) {
    exists i :: 0 <= i < |s.sends| && s.sends[i].id == id
  }

  /** Holds the one-shot right for its id. */
  predicate Armed(w: Worker) {
    w.Holding? || w.Gated?
  }

  ghost predicate WorkerOk(s: State, w: Worker) {
    && (Armed(w) ==> w.job.id in s.calls && s.calls[w.job.id] == w.call && !SentId(s, w.job.id))
    && (w.Checking? ==> w.job.id in s.calls && s.calls[w.job.id] == w.call)
    && (w.Returned? ==> Delivered(s, w.job, w.hash))
  }

  ghost predicate CallsInv(keccak: Keccak, s: State) {
    && (forall id :: id in s.calls ==> keccak(s.calls[id].raw) == s.calls[id].hash)
    && (forall p :: p in s.workers ==> WorkerOk(s, s.workers[p]))
    && (forall p, q :: p in s.workers && q in s.workers && p != q && Armed(s.workers[p]) && Armed(s.workers[q])
          ==> s.workers[p].job.id != s.workers[q].job.id)
    && (forall i :: 0 <= i < |s.sends| ==> s.sends[i].id in s.calls && s.sends[i].raw == s.calls[s.sends[i].id].raw)
    && (forall i, j :: 0 <= i < j < |s.sends| ==> s.sends[i].id != s.sends[j].id)
  }

  /** The retained row is what the caller asked for and it succeeded on chain. */
  predicate Delivered(s: State, job: Job, hash: Hex32) {
    && job.id in s.calls && s.calls[job.id].hash == hash
    && s.calls[job.id].target == job.target && s.calls[job.id].calldata == job.calldata
    && hash in s.chain && s.chain[hash] == Succeeded
  }

  ghost predicate GateInv(b: Binding, s: State) {
    && Exclusive(s.rows) && RowsBound(s.rows, b.pools, b.inputs)
    && (forall p :: p in s.workers ==> Binds(b, s.workers[p].job.group))
    && (forall p :: p in s.workers && s.workers[p].Gated? ==> s.workers[p].job.group.callHash in s.rows)
    && (forall i :: 0 <= i < |s.sends| ==> Binds(b, s.sends[i].group) && s.sends[i].group.callHash in s.rows)
  }

  lemma RetainKeepsCallsInv(keccak: Keccak, b: Binding, s: State, u: State, p: nat)
    requires CallsInv(keccak, s) && Step(keccak, b, s, u, RetainCall(p))
    ensures CallsInv(keccak, u)
  {
    var id := s.workers[p].job.id;
    assert u.sends == s.sends;
    assert forall o :: SentId(u, o) <==> SentId(s, o);
    assert id !in s.calls ==> !SentId(s, id);
  }

  lemma BroadcastKeepsCallsInv(keccak: Keccak, b: Binding, s: State, u: State, p: nat, answer: Option<Hex32>)
    requires CallsInv(keccak, s) && Step(keccak, b, s, u, Broadcast(p, answer))
    ensures CallsInv(keccak, u)
  {
  }

  /** One worker moved; it is armed now only if it was before. */
  ghost predicate Moved(s: State, u: State, p: nat) {
    && u.sends == s.sends && u.calls == s.calls && u.chain == s.chain
    && (forall o :: o in u.workers && o != p ==> o in s.workers && u.workers[o] == s.workers[o])
    && (p in u.workers ==> WorkerOk(s, u.workers[p]))
    && (p in u.workers && Armed(u.workers[p]) ==>
          p in s.workers && Armed(s.workers[p]) && u.workers[p].job == s.workers[p].job)
  }

  lemma MovedKeepsCallsInv(keccak: Keccak, s: State, u: State, p: nat)
    requires CallsInv(keccak, s) && Moved(s, u, p)
    ensures CallsInv(keccak, u)
  {
  }

  lemma MineKeepsCallsInv(keccak: Keccak, b: Binding, s: State, u: State, hash: Hex32, outcome: Outcome)
    requires CallsInv(keccak, s) && Step(keccak, b, s, u, Mine(hash, outcome))
    ensures CallsInv(keccak, u)
  {
  }

  lemma CheckIsAMove(keccak: Keccak, b: Binding, s: State, u: State, a: Action)
    requires CallsInv(keccak, s) && Step(keccak, b, s, u, a) && (a.Gate? || a.Check?)
    ensures Moved(s, u, a.p)
  {
  }

  lemma OtherIsAMove(keccak: Keccak, b: Binding, s: State, u: State, a: Action)
    requires CallsInv(keccak, s) && Step(keccak, b, s, u, a)
    requires a.Start? || a.Read? || a.Prepare? || a.Stop?
    ensures Moved(s, u, a.p)
  {
  }

  lemma StepKeepsCallsInv(keccak: Keccak, b: Binding, s: State, u: State, a: Action)
    requires CallsInv(keccak, s) && Step(keccak, b, s, u, a)
    ensures CallsInv(keccak, u)
  {
    if a.RetainCall? {
      RetainKeepsCallsInv(keccak, b, s, u, a.p);
    } else if a.Broadcast? {
      BroadcastKeepsCallsInv(keccak, b, s, u, a.p, a.answer);
    } else if a.Mine? {
      MineKeepsCallsInv(keccak, b, s, u, a.hash, a.outcome);
    } else if a.Other? {
      MovedKeepsCallsInv(keccak, s, u, 0);
    } else if a.Gate? || a.Check? {
      CheckIsAMove(keccak, b, s, u, a);
      MovedKeepsCallsInv(keccak, s, u, a.p);
    } else {
      OtherIsAMove(keccak, b, s, u, a);
      MovedKeepsCallsInv(keccak, s, u, a.p);
    }
  }

  /** A bound retain or retire, or a recording, keeps the table exclusive and bound. */
  lemma ApplyKeepsBound(b: Binding, t: Table, op: Op)
    requires Exclusive(t) && RowsBound(t, b.pools, b.inputs)
    requires !op.RecordOp? ==> Binds(b, op.id)
    ensures Exclusive(Apply(t, op)) && RowsBound(Apply(t, op), b.pools, b.inputs)
    ensures t.Keys <= Apply(t, op).Keys
    ensures op.RetainOp? && op.reserve && Retain(t, op.id, true).Success? ==> op.id.callHash in Apply(t, op)
  {
    ApplyKeepsExclusive(t, op);
    if op.RetainOp? && op.reserve && Retain(t, op.id, true).Success? {
      GateFencesExactlyCovered(t, op.id);
    }
  }

  lemma StepKeepsGateInv(keccak: Keccak, b: Binding, s: State, u: State, a: Action)
    requires GateInv(b, s) && Step(keccak, b, s, u, a)
    ensures GateInv(b, u)
  {
    match a
    case Gate(p) => ApplyKeepsBound(b, s.rows, RetainOp(s.workers[p].job.group, true));
    case Other(op) => ApplyKeepsBound(b, s.rows, op);
    case _ => assert u.rows == s.rows;
  }

  // -------------------------------------------------------------- whole runs

  ghost predicate IsRun(keccak: Keccak, b: Binding, run: seq<State>, acts: seq<Action>) {
    && |run| == |acts| + 1 && run[0] == State(map[], map[], map[], [], map[])
    && forall i :: 0 <= i < |acts| ==> Step(keccak, b, run[i], run[i + 1], acts[i])
  }

  lemma {:induction false} RunKeepsInv(keccak: Keccak, b: Binding, run: seq<State>, acts: seq<Action>, i: nat)
    requires IsRun(keccak, b, run, acts) && i < |run|
    ensures CallsInv(keccak, run[i]) && GateInv(b, run[i])
  {
    if i > 0 {
      RunKeepsInv(keccak, b, run, acts, i - 1);
      assert Step(keccak, b, run[i - 1], run[i], acts[i - 1]);
      StepKeepsCallsInv(keccak, b, run[i - 1], run[i], acts[i - 1]);
      StepKeepsGateInv(keccak, b, run[i - 1], run[i], acts[i - 1]);
    }
  }

  /** For all time an id is broadcast at most once, and only with the retained bytes. */
  lemma SentAtMostOnce(keccak: Keccak, b: Binding, run: seq<State>, acts: seq<Action>, i: nat, x: nat, y: nat)
    requires IsRun(keccak, b, run, acts) && i < |run| && x < |run[i].sends| && y < |run[i].sends|
    ensures run[i].sends[x].id in run[i].calls
    ensures run[i].sends[x].raw == run[i].calls[run[i].sends[x].id].raw
    ensures x != y ==> run[i].sends[x].id != run[i].sends[y].id
  {
    RunKeepsInv(keccak, b, run, acts, i);
    if x < y {
      assert run[i].sends[x].id != run[i].sends[y].id;
    } else if y < x {
      assert run[i].sends[y].id != run[i].sends[x].id;
    }
  }

  lemma {:induction false} CallIsImmutable(keccak: Keccak, b: Binding, run: seq<State>, acts: seq<Action>, i: nat, j: nat, id: string)
    requires IsRun(keccak, b, run, acts) && i <= j < |run| && id in run[i].calls
    ensures id in run[j].calls && run[j].calls[id] == run[i].calls[id]
    decreases j
  {
    if i < j {
      CallIsImmutable(keccak, b, run, acts, i, j - 1, id);
      assert Step(keccak, b, run[j - 1], run[j], acts[j - 1]);
    }
  }

  /**
   A returned hash, from then on, is that of the single retained row, whose
   target and calldata are the ones asked for, and that transaction succeeded.
   */
  lemma {:induction false} ReturnedHashIsDelivered(keccak: Keccak, b: Binding, run: seq<State>, acts: seq<Action>, i: nat, j: nat, p: nat)
    requires IsRun(keccak, b, run, acts) && i <= j < |run|
    requires p in run[i].workers && run[i].workers[p].Returned?
    ensures Delivered(run[j], run[i].workers[p].job, run[i].workers[p].hash)
    decreases j
  {
    if i < j {
      ReturnedHashIsDelivered(keccak, b, run, acts, i, j - 1, p);
      assert Step(keccak, b, run[j - 1], run[j], acts[j - 1]);
    } else {
      RunKeepsInv(keccak, b, run, acts, i);
    }
  }

  lemma {:induction false} RowsEvolve(keccak: Keccak, b: Binding, run: seq<State>, acts: seq<Action>, i: nat, j: nat)
    requires IsRun(keccak, b, run, acts) && i <= j < |run|
    ensures Evolves(run[i].rows, run[j].rows)
    decreases j
  {
    if i < j {
      RowsEvolve(keccak, b, run, acts, i, j - 1);
      assert Step(keccak, b, run[j - 1], run[j], acts[j - 1]);
      if acts[j - 1].Gate? {
        ApplyEvolves(run[j - 1].rows, RetainOp(run[j - 1].workers[acts[j - 1].p].job.group, true));
      } else if acts[j - 1].Other? {
        ApplyEvolves(run[j - 1].rows, acts[j - 1].op);
      }
    }
  }

  /** Once a group's execution is retired no worker passes the gate for it again. */
  lemma GateNeverReopens(keccak: Keccak, b: Binding, run: seq<State>, acts: seq<Action>, i: nat, j: nat, c: Hex32)
    requires IsRun(keccak, b, run, acts) && i <= j < |acts| && Retired(run[i].rows, c)
    requires acts[j].Gate?
    ensures acts[j].p in run[j].workers && run[j].workers[acts[j].p].job.group.callHash != c
  {
    RowsEvolve(keccak, b, run, acts, i, j);
    assert Step(keccak, b, run[j], run[j + 1], acts[j]);
  }

  /** A worker that may send passed the gate earlier, while its group was not retired. */
  lemma {:induction false} GatedSince(keccak: Keccak, b: Binding, run: seq<State>, acts: seq<Action>, j: nat, p: nat) returns (g: nat)
    requires IsRun(keccak, b, run, acts) && j < |run| && p in run[j].workers && run[j].workers[p].Gated?
    ensures g < j && acts[g] == Gate(p)
    ensures p in run[g].workers && run[g].workers[p].job == run[j].workers[p].job
    ensures !Retired(run[g].rows, run[j].workers[p].job.group.callHash)
  {
    assert Step(keccak, b, run[j - 1], run[j - 1 + 1], acts[j - 1]);
    if acts[j - 1] == Gate(p) {
      g := j - 1;
    } else {
      g := GatedSince(keccak, b, run, acts, j - 1, p);
    }
  }

  /**
   The gate does not stop a worker that is past it: after a retirement the only
   sends for the group are those of workers that passed the gate before it.
   */
  lemma LateSendPassedBefore(keccak: Keccak, b: Binding, run: seq<State>, acts: seq<Action>, i: nat, j: nat) returns (g: nat)
    requires IsRun(keccak, b, run, acts) && i <= j < |acts| && acts[j].Broadcast?
    requires acts[j].p in run[j].workers && Retired(run[i].rows, run[j].workers[acts[j].p].job.group.callHash)
    ensures g < i && acts[g] == Gate(acts[j].p)
    ensures acts[j].p in run[g].workers && run[g].workers[acts[j].p].job == run[j].workers[acts[j].p].job
  {
    assert Step(keccak, b, run[j], run[j + 1], acts[j]);
    g := GatedSince(keccak, b, run, acts, j, acts[j].p);
    if i <= g {
      RowsEvolve(keccak, b, run, acts, i, g);
    }
  }

  lemma Extend(keccak: Keccak, b: Binding, run: seq<State>, acts: seq<Action>, u: State, a: Action)
    requires IsRun(keccak, b, run, acts) && Step(keccak, b, run[|acts|], u, a)
    ensures IsRun(keccak, b, run + [u], acts + [a])
  {
    forall i | 0 <= i < |acts| + 1
      ensures Step(keccak, b, (run + [u])[i], (run + [u])[i + 1], (acts + [a])[i])
    {
      if i < |acts| {
        assert Step(keccak, b, run[i], run[i + 1], acts[i]);
      }
    }
  }

  /** From the start to the gate: the worker, its call and its group's row. */
  lemma PassGate(keccak: Keccak, b: Binding, job: Job) returns (run: seq<State>, acts: seq<Action>)
    requires Binds(b, job.group) && ValidIdentity(job.group)
    ensures IsRun(keccak, b, run, acts) && |acts| == 5 && acts[4] == Gate(0)
    ensures var s, g := run[5], job.group;
            && s.rows == map[g.callHash := Row(g.relayer, g.pool, g.nullifiers, None, None)]
            && 0 in s.workers && s.workers[0].Gated? && s.workers[0].job == job
  {
    var g, call := job.group, Call(job.target, job.calldata, [], keccak([]));
    var s0 := State(map[], map[], map[], [], map[]);
    run, acts := [s0], [];
    var s1 := s0.(workers := map[0 := Reading(job)]);
    Extend(keccak, b, run, acts, s1, Start(0, job));
    run, acts := run + [s1], acts + [Start(0, job)];
    var s2 := s0.(workers := map[0 := Preparing(job)]);
    Extend(keccak, b, run, acts, s2, Read(0));
    run, acts := run + [s2], acts + [Read(0)];
    var s3 := s0.(workers := map[0 := Signed(job, call)]);
    Extend(keccak, b, run, acts, s3, Prepare(0, [], keccak([])));
    run, acts := run + [s3], acts + [Prepare(0, [], keccak([]))];
    var s4 := s0.(calls := map[job.id := call], workers := map[0 := Holding(job, call)]);
    Extend(keccak, b, run, acts, s4, RetainCall(0));
    run, acts := run + [s4], acts + [RetainCall(0)];
    var s5 := s4.(rows := map[g.callHash := Row(g.relayer, g.pool, g.nullifiers, None, None)], workers := map[0 := Gated(job, call)]);
    Extend(keccak, b, run, acts, s5, Gate(0));
    run, acts := run + [s5], acts + [Gate(0)];
  }

  /** And such a send does happen: gate, retirement, broadcast. */
  lemma LateSendHappens(keccak: Keccak, b: Binding, job: Job) returns (run: seq<State>, acts: seq<Action>)
    requires Binds(b, job.group) && ValidIdentity(job.group) && Distinct(job.group.nullifiers)
    ensures IsRun(keccak, b, run, acts) && |acts| == 7 && acts[6] == Broadcast(0, None)
    ensures 0 in run[6].workers && run[6].workers[0].job == job && Retired(run[6].rows, job.group.callHash)
  {
    run, acts := PassGate(keccak, b, job);
    var g, s5 := job.group, run[5];
    var retire := RetireOp(g, Some(Proof(g.callHash, g.pool, g.nullifiers, 1, 1)));
    var s6 := s5.(rows := Apply(s5.rows, retire));
    Extend(keccak, b, run, acts, s6, Other(retire));
    run, acts := run + [s6], acts + [Other(retire)];
    var s7 := s6.(workers := s6.workers - {0}, sends := s6.sends + [Send(job.id, s6.workers[0].call.raw, g)]);
    Extend(keccak, b, run, acts, s7, Broadcast(0, None));
    run, acts := run + [s7], acts + [Broadcast(0, None)];
  }

  /** Transactions of two groups that compete for a nullifier are both sent only if a group was retired. */
  lemma CompetingSendsNeedRetirement(keccak: Keccak, b: Binding, run: seq<State>, acts: seq<Action>, i: nat, x: nat, y: nat)
    requires IsRun(keccak, b, run, acts) && i < |run| && x < |run[i].sends| && y < |run[i].sends|
    requires var g, h := run[i].sends[x].group, run[i].sends[y].group;
             g.callHash != h.callHash && g.pool == h.pool && Overlap(g.nullifiers, h.nullifiers)
    ensures Retired(run[i].rows, run[i].sends[x].group.callHash) || Retired(run[i].rows, run[i].sends[y].group.callHash)
  {
    RunKeepsInv(keccak, b, run, acts, i);
  }
}
