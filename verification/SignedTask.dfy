/**
 `runPayoutV7Transaction` as it runs, statement by statement, with all other
 workers, the chain and the gate's table moving at every `await`.  Each call is
 part of a run of `SignedCalls`, so what is proved of runs holds of any mix of
 these calls.  For a call that is left alone nobody else acts, nothing throws, the
 signer's hash is that of its bytes, and the node takes and mines what it is sent.
 */
module SignedTask {
  import opened Wrappers
  import opened ExecutionTable
  import opened SignedCalls

  type Answer<T> = Result<T, ()>

  const EMPTY := State(map[], map[], map[], [], map[])

  class Process {
    const keccak: Keccak
    const binding: Binding
    const alone: bool
    const table: Store
    const store: CallStore
    var workers: map<nat, Worker>
    var sends: seq<Send>
    var chain: map<Hex32, Outcome>
    ghost var run: seq<State>
    ghost var acts: seq<Action>

    constructor (keccak: Keccak, binding: Binding, alone: bool)
      ensures this.keccak == keccak && this.binding == binding && this.alone == alone
      ensures Valid() && fresh(table) && fresh(store) && Now() == EMPTY
    {
      this.keccak, this.binding, this.alone := keccak, binding, alone;
      table := new Store();
      store := new CallStore();
      workers, sends, chain := map[], [], map[];
      run, acts := [EMPTY], [];
    }

    ghost function Now(): State
      reads this, table, store
    {
      State(table.rows, store.calls, workers, sends, chain)
    }

    ghost predicate Valid()
      reads this, table, store
    {
      SignedCalls.IsRun(keccak, binding, run, acts) && Now() == run[|acts|]
    }

    /** What the fields have come to is the next state of the run. */
    ghost method Log(a: Action)
      requires SignedCalls.IsRun(keccak, binding, run, acts) && Step(keccak, binding, run[|acts|], Now(), a)
      modifies this`run, this`acts
      ensures Valid() && run == old(run) + [Now()] && acts == old(acts) + [a]
    {
      run, acts := run + [Now()], acts + [a];
    }

    method Perform(u: State, a: Action)
      requires Valid() && Step(keccak, binding, Now(), u, a)
      modifies this, table, store
      ensures Valid() && Now() == u && run == old(run) + [u] && acts == old(acts) + [a]
    {
      table.rows, store.calls := u.rows, u.calls;
      workers, sends, chain := u.workers, u.sends, u.chain;
      Log(a);
    }

    method Throw(p: nat)
      requires Valid() && p in workers
      modifies this, table, store
      ensures Valid() && old(run) <= run && p !in workers
      ensures Now() == old(Now()).(workers := workers)
    {
      workers := workers - {p};
      Log(Stop(p));
    }

    /** Everybody else and the chain move; then the call may throw. */
    method Await(p: nat) returns (r: Answer<()>)
      requires Valid() && p in workers
      modifies this, table, store
      ensures Valid() && old(run) <= run
      ensures r.Success? ==> p in workers && workers[p] == old(workers[p])
      ensures r.Failure? ==> p !in workers
      ensures alone ==> r.Success? && Now() == old(Now())
    {
      if alone { return Success(()); }
      var steps: nat := *;
      while steps > 0
        invariant Valid() && old(run) <= run
        invariant p in workers && workers[p] == old(workers[p])
      {
        var a: Action, u: State := *, *;
        if Step(keccak, binding, State(table.rows, store.calls, workers, sends, chain), u, a) && Actor(a) != Some(p) {
          StepLeavesWorker(keccak, binding, Now(), u, a, p);
          Perform(u, a);
        }
        steps := steps - 1;
      }
      var threw: bool := *;
      if threw {
        Throw(p);
        return Failure(());
      }
      return Success(());
    }

    ghost predicate Intact(c: Call)
      reads this
    {
      keccak(c.raw) == c.hash
    }

    /** `store.read`: a corrupt row throws. */
    method ReadRow(p: nat) returns (r: Answer<()>)
      requires Valid() && p in workers && (workers[p].Reading? || workers[p].Rereading?)
      modifies this, table, store
      ensures Valid() && old(run) <= run
      ensures r.Success? ==>
                && p in workers && workers[p].job == old(workers[p]).job
                && (workers[p].Checking? || (old(workers[p]).Reading? && workers[p].Preparing?))
      ensures r.Failure? ==> p !in workers
      ensures alone ==> Now() == old(Now()).(workers := workers)
      ensures alone ==>
                var w, calls := old(workers[p]), old(store.calls);
                && (r.Success? <==> if w.job.id in calls then Intact(calls[w.job.id]) else w.Reading?)
                && (r.Success? ==> workers[p] == if w.job.id in calls then Checking(w.job, calls[w.job.id]) else Preparing(w.job))
    {
      var _ :- Await(p);
      var w := workers[p];
      var row := store.Read(w.job.id, keccak);
      if row.Failure? || (row.value.None? && w.Rereading?) {
        Throw(p);
        return Failure(());
      }
      workers := workers[p := if row.value.None? then Preparing(w.job) else Checking(w.job, row.value.value)];
      Log(SignedCalls.Read(p));
      return Success(());
    }

    /** A call with the job's target and calldata, and bytes of its own. */
    ghost predicate IsNewCall(job: Job, c: Call)
      reads this
    {
      c.target == job.target && c.calldata == job.calldata && Intact(c)
    }

    /** Sign, then try to insert the row: the winner holds the right to broadcast. */
    method SignAndInsert(p: nat) returns (r: Answer<()>)
      requires Valid() && p in workers && workers[p].Preparing?
      modifies this, table, store
      ensures Valid() && old(run) <= run
      ensures r.Success? ==>
                && p in workers && workers[p].job == old(workers[p]).job
                && (workers[p].Holding? || workers[p].Rereading?)
      ensures r.Failure? ==> p !in workers
      ensures alone && old(workers[p]).job.id !in old(store.calls) ==>
                var job := old(workers[p]).job;
                && r.Success? && workers[p].Holding? && IsNewCall(job, workers[p].call)
                && Now() == old(Now()).(workers := workers, calls := old(store.calls)[job.id := workers[p].call])
    {
      var _ :- Await(p);
      var job := workers[p].job;
      var raw: Bytes, hash: Hex32 := *, *;
      if alone { hash := keccak(raw); }
      var call := Call(job.target, job.calldata, raw, hash);
      workers := workers[p := Signed(job, call)];
      Log(Prepare(p, raw, hash));
      var _ :- Await(p);
      var inserted := store.Retain(job.id, call, keccak);
      if inserted.Failure? {
        Throw(p);
        return Failure(());
      }
      workers := workers[p := if inserted.value then Holding(job, call) else Rereading(job)];
      Log(RetainCall(p));
      return Success(());
    }

    /** The group's inputs are free and its call new, or its own row holds them. */
    static ghost predicate GateOpen(t: Table, group: Identity) {
      Claimable(t, group, true) || OwnsItsInputs(t, group)
    }

    /** The broadcast wrapper: the execution gate, then the node. */
    method GateAndBroadcast(p: nat) returns (r: Answer<()>)
      requires Valid() && p in workers && workers[p].Holding?
      modifies this, table, store
      ensures Valid() && old(run) <= run
      ensures r.Success? ==> p in workers && workers[p] == Checking(old(workers[p]).job, old(workers[p]).call)
      ensures r.Failure? ==> p !in workers
      ensures alone ==>
                var job, call := old(workers[p]).job, old(workers[p]).call;
                && (r.Success? <==> GateOpen(old(table.rows), job.group))
                && store.calls == old(store.calls) && chain == old(chain)
                && (r.Success? ==> sends == old(sends) + [Send(job.id, call.raw, job.group)])
                && (r.Failure? ==> sends == old(sends))
    {
      var _ :- PassGate(p);
      r := BroadcastIt(p);
    }

    /** The execution gate: a reserving retain of the group. */
    method PassGate(p: nat) returns (r: Answer<()>)
      requires Valid() && p in workers && workers[p].Holding?
      modifies this, table, store
      ensures Valid() && old(run) <= run
      ensures r.Success? ==> p in workers && workers[p] == Gated(old(workers[p]).job, old(workers[p]).call)
      ensures r.Failure? ==> p !in workers
      ensures alone ==>
                && (r.Success? <==> GateOpen(old(table.rows), old(workers[p]).job.group))
                && store.calls == old(store.calls) && chain == old(chain) && sends == old(sends)
    {
      var _ :- Await(p);
      var job, call := workers[p].job, workers[p].call;
      RetainAnswersExactly(table.rows, job.group, true);
      var passed := table.RetainExecution(job.group, true);
      if passed.Failure? {
        Throw(p);
        return Failure(());
      }
      workers := workers[p := Gated(job, call)];
      Log(Gate(p));
      return Success(());
    }

    /** The node gets the bytes; only an answer with their own hash goes on. */
    method BroadcastIt(p: nat) returns (r: Answer<()>)
      requires Valid() && p in workers && workers[p].Gated?
      modifies this, table, store
      ensures Valid() && old(run) <= run
      ensures r.Success? ==> p in workers && workers[p] == Checking(old(workers[p]).job, old(workers[p]).call)
      ensures r.Failure? ==> p !in workers
      ensures alone ==>
                var job, call := old(workers[p]).job, old(workers[p]).call;
                && r.Success? && store.calls == old(store.calls) && chain == old(chain)
                && sends == old(sends) + [Send(job.id, call.raw, job.group)]
    {
      var _ :- Await(p);
      var job, call := workers[p].job, workers[p].call;
      var answer: Option<Hex32> := *;
      if alone { answer := Some(call.hash); }
      sends := sends + [Send(job.id, call.raw, job.group)];
      workers := if answer == Some(call.hash) then workers[p := Checking(job, call)] else workers - {p};
      Log(Broadcast(p, answer));
      return if answer == Some(call.hash) then Success(()) else Failure(());
    }

    static predicate Undecided(chain: map<Hex32, Outcome>, hash: Hex32) {
      hash in chain ==> chain[hash] == Pending
    }

    /** The transaction succeeded, or was sent and will. */
    static ghost predicate Succeeds(s: State, id: string, hash: Hex32) {
      (hash in s.chain && s.chain[hash] == Succeeded) || (Undecided(s.chain, hash) && SentId(s, id))
    }

    /** The retained call must be the one asked for, and its transaction must have succeeded. */
    method CheckOutcome(p: nat) returns (r: Answer<Hex32>)
      requires Valid() && p in workers && workers[p].Checking?
      modifies this, table, store
      ensures Valid() && old(run) <= run
      ensures r.Success? ==> p in workers && workers[p] == Returned(old(workers[p]).job, r.value)
      ensures r.Failure? ==> p !in workers
      ensures alone ==>
                var job, call := old(workers[p]).job, old(workers[p]).call;
                && (r.Success? <==> call.target == job.target && call.calldata == job.calldata && Succeeds(old(Now()), job.id, call.hash))
                && (r.Success? ==> r.value == call.hash)
                && store.calls == old(store.calls) && sends == old(sends) && table.rows == old(table.rows)
    {
      var _ :- Await(p);
      var job, call := workers[p].job, workers[p].call;
      if alone && Undecided(chain, call.hash) && exists i :: 0 <= i < |sends| && sends[i].id == job.id {
        chain := chain[call.hash := Succeeded];
        Log(Mine(call.hash, Succeeded));
      }
      if call.target != job.target || call.calldata != job.calldata
         || call.hash !in chain || chain[call.hash] != Succeeded {
        Throw(p);
        return Failure(());
      }
      workers := workers[p := Returned(job, call.hash)];
      Log(Check(p));
      return Success(call.hash);
    }

    /** The winner of the insert sends its call, the loser reads the winner's. */
    method SignAndSend(p: nat) returns (r: Answer<()>)
      requires Valid() && p in workers && workers[p].Preparing?
      modifies this, table, store
      ensures Valid() && old(run) <= run
      ensures r.Success? ==> p in workers && workers[p].Checking? && workers[p].job == old(workers[p]).job
      ensures r.Failure? ==> p !in workers
      ensures alone && old(workers[p]).job.id !in old(store.calls) ==>
                var job := old(workers[p]).job;
                && NewCallSent(job, old(Now()), Now()) && (r.Success? <==> GateOpen(old(table.rows), job.group))
                && (r.Success? ==> workers[p] == Checking(job, store.calls[job.id]) && SentId(Now(), job.id))
    {
      var _ :- SignAndInsert(p);
      if workers[p].Holding? {
        r := GateAndBroadcast(p);
        if r.Success? {
          assert alone ==> sends[|sends| - 1].id == workers[p].job.id;
        }
      } else {
        r := ReadRow(p);
      }
    }

    /** One new call was retained, and sent if the gate was open. */
    ghost predicate NewCallSent(job: Job, before: State, after: State)
      reads this
    {
      && job.id in after.calls && IsNewCall(job, after.calls[job.id])
      && after.calls == before.calls[job.id := after.calls[job.id]] && after.chain == before.chain
      && after.sends == before.sends + (if GateOpen(before.rows, job.group) then [Send(job.id, after.calls[job.id].raw, job.group)] else [])
    }

    static predicate FailedOn(chain: map<Hex32, Outcome>, hash: Hex32) {
      hash in chain && chain[hash] == Failed
    }

    /**
     A returned hash is that of the one retained call for the id, with the target
     and calldata asked for, and its transaction succeeded on the chain.  Left alone,
     a retained call is never sent again and is returned exactly if it is intact, the
     one asked for and successful; a new one is sent exactly if the gate is open, and
     returned unless the chain has failed it.
     */
    method RunTransaction(p: nat, job: Job) returns (r: Answer<Hex32>)
      requires Valid() && p !in workers && Binds(binding, job.group)
      modifies this, table, store
      ensures Valid() && old(run) <= run
      ensures r.Success? ==> Delivered(Now(), job, r.value)
      ensures r.Failure? ==> p !in workers
      ensures alone && job.id in old(store.calls) ==>
                var call := old(store.calls)[job.id];
                && store.calls == old(store.calls) && sends == old(sends) && table.rows == old(table.rows)
                && (r.Success? <==> IsNewCall(job, call) && Succeeds(old(Now()), job.id, call.hash))
      ensures alone && job.id !in old(store.calls) ==>
                && NewCallSent(job, old(Now()), Now().(chain := old(chain)))
                && (r.Success? <==> GateOpen(old(table.rows), job.group) && !FailedOn(old(chain), store.calls[job.id].hash))
    {
      workers := workers[p := Reading(job)];
      Log(Start(p, job));
      var _ :- ReadRow(p);
      if workers[p].Preparing? {
        var _ :- SignAndSend(p);
      }
      r := CheckOutcome(p);
      if r.Success? {
        ReturnedHashIsDelivered(keccak, binding, run, acts, |acts|, |acts|, p);
      }
    }
  }
}
