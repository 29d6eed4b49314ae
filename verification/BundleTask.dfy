/**
 `processPoolV4Bundle` as it runs, statement by statement, with all other tasks
 and writers of the table acting at every `await`.  Each call is part of a run of
 `BundleRelay`, so what is proved of runs holds of any mix of these calls.  A call
 that is left alone (nobody else acts, nothing throws, the node answers) does
 exactly what the table calls for.
 */
module BundleTask {
  import opened Wrappers
  import opened ExecutionTable
  import opened BundleRelay

  type Answer<T> = Result<T, ()>

  class Process {
    const store: Store
    const alone: bool
    var tasks: map<nat, Task>
    var sent: seq<Sent>
    ghost var run: seq<State>
    ghost var acts: seq<Action>

    constructor (alone: bool)
      ensures this.alone == alone && Valid() && fresh(store) && Now() == State(map[], map[], [])
    {
      this.alone := alone;
      store := new Store();
      tasks, sent := map[], [];
      run, acts := [State(map[], map[], [])], [];
    }

    ghost function Now(): State
      reads this, store
    {
      State(store.rows, tasks, sent)
    }

    ghost predicate Valid()
      reads this, store
    {
      BundleRelay.IsRun(run, acts) && Now() == run[|acts|]
    }

    /** What the fields have come to is the next state of the run. */
    ghost method Log(a: Action)
      requires BundleRelay.IsRun(run, acts) && Step(run[|acts|], Now(), a)
      modifies this`run, this`acts
      ensures Valid() && run == old(run) + [Now()] && acts == old(acts) + [a]
    {
      run, acts := run + [Now()], acts + [a];
    }

    method Perform(u: State, a: Action)
      requires Valid() && Step(Now(), u, a)
      modifies this, store
      ensures Valid() && Now() == u && run == old(run) + [u] && acts == old(acts) + [a]
    {
      store.rows, tasks, sent := u.rows, u.tasks, u.sent;
      Log(a);
    }

    method Throw(p: nat)
      requires Valid() && p in tasks
      modifies this, store
      ensures Valid() && old(run) <= run && p !in tasks
      ensures store.rows == old(store.rows) && sent == old(sent)
    {
      tasks := tasks - {p};
      Log(DoStop(p));
    }

    /** Other tasks and writers move; then the call may throw. */
    method Await(p: nat) returns (r: Answer<()>)
      requires Valid() && p in tasks
      modifies this, store
      ensures Valid() && old(run) <= run
      ensures r.Success? ==> p in tasks && tasks[p] == old(tasks[p])
      ensures r.Failure? ==> p !in tasks
      ensures alone ==> r.Success? && Now() == old(Now())
    {
      if alone { return Success(()); }
      var steps: nat := *;
      while steps > 0
        invariant Valid() && old(run) <= run
        invariant p in tasks && tasks[p] == old(tasks[p])
      {
        var a: Action, u: State := *, *;
        if Step(State(store.rows, tasks, sent), u, a) && Actor(a) != Some(p) {
          StepLeavesTask(Now(), u, a, p);
          Perform(u, a);
        }
        steps := steps - 1;
      }
      var threw: bool := *;
      if threw {
        Throw(p);
        return Failure(());
      }
      return Success(());
    }

    /** The probe: a fresh call goes on to its claim, a known hash to the recording, anything else is deferred. */
    method ProbeFirst(p: nat) returns (r: Answer<()>)
      requires Valid() && p in tasks && tasks[p].Probing?
      modifies this, store
      ensures Valid() && old(run) <= run
      ensures r.Success? ==> p in tasks && (tasks[p].Ready? || tasks[p].Recording?) && tasks[p].id == old(tasks[p]).id
      ensures r.Failure? ==> p !in tasks
      ensures alone ==> store.rows == old(store.rows) && sent == old(sent)
      ensures alone ==>
                var t, id := old(store.rows), old(tasks[p]).id;
                && (r.Success? <==> Claimable(t, id, false) || (OwnsItsInputs(t, id) && t[id.callHash].hash.Some?))
                && (r.Success? ==> tasks[p] == if Claimable(t, id, false) then Ready(id) else Recording(id, t[id.callHash].hash.value))
    {
      var _ :- Await(p);
      var id := tasks[p].id;
      RetainAnswersExactly(store.rows, id, false);
      var found := store.RetainExecution(id, false);
      if !found.Success? || (!found.value.isFresh && !found.value.hash.Some?) {
        Throw(p);
        return Failure(());
      }
      tasks := tasks[p := if found.value.isFresh then Ready(id) else Recording(id, found.value.hash.value)];
      Log(DoProbe(p));
      return Success(());
    }

    /** The claim: a lost one defers the task. */
    method ClaimIt(p: nat) returns (r: Answer<()>)
      requires Valid() && p in tasks && tasks[p].Ready?
      modifies this, store
      ensures Valid() && old(run) <= run
      ensures r.Success? ==> p in tasks && tasks[p] == Claimed(old(tasks[p]).id)
      ensures r.Failure? ==> p !in tasks
      ensures alone ==> sent == old(sent)
      ensures alone ==>
                var t, id := old(store.rows), old(tasks[p]).id;
                && (r.Success? <==> Claimable(t, id, true))
                && (r.Success? ==> store.rows == t[id.callHash := Row(id.relayer, id.pool, id.nullifiers, None, None)])
                && (r.Failure? ==> store.rows == t)
    {
      var _ :- Await(p);
      var id := tasks[p].id;
      RetainAnswersExactly(store.rows, id, true);
      var claimed := store.RetainExecution(id, true);
      if !claimed.Success? || !claimed.value.isFresh {
        tasks := tasks - {p};
        Log(DoClaimLost(p));
        return Failure(());
      }
      tasks := tasks[p := Claimed(id)];
      Log(DoClaim(p));
      return Success(());
    }

    /** The one broadcast of a claim; an answer may never come. */
    method BroadcastIt(p: nat) returns (r: Answer<()>)
      requires Valid() && p in tasks && tasks[p].Claimed?
      modifies this, store
      ensures Valid() && old(run) <= run
      ensures r.Success? ==> p in tasks && tasks[p].Submitted? && tasks[p].id == old(tasks[p]).id
      ensures r.Failure? ==> p !in tasks
      ensures alone ==>
                && r.Success? && store.rows == old(store.rows)
                && sent == old(sent) + [Sent(old(tasks[p]).id.callHash, Some(tasks[p].hash))]
    {
      var _ :- Await(p);
      var id, answer: Option<Hex32>, hash: Hex32 := tasks[p].id, *, *;
      if alone { answer := Some(hash); }
      sent := sent + [Sent(id.callHash, answer)];
      tasks := if answer.Some? then tasks[p := Submitted(id, answer.value)] else tasks - {p};
      Log(DoBroadcast(p, answer));
      return if answer.Some? then Success(()) else Failure(());
    }

    method RecordIt(p: nat) returns (r: Answer<()>)
      requires Valid() && p in tasks && (tasks[p].Submitted? || tasks[p].Recording?)
      modifies this, store
      ensures Valid() && old(run) <= run
      ensures r.Success? ==>
                && p in tasks && tasks[p].id == old(tasks[p]).id
                && (if old(tasks[p]).Submitted? then tasks[p].Recording? else tasks[p].Settling?)
                && tasks[p].hash == old(tasks[p]).hash
      ensures r.Failure? ==> p !in tasks
      ensures alone ==> sent == old(sent)
      ensures alone ==>
                var t, id, h := old(store.rows), old(tasks[p]).id, old(tasks[p]).hash;
                && (r.Success? <==> Recordable(t, id, h))
                && (r.Success? ==> store.rows == t[id.callHash := t[id.callHash].(hash := Some(h))])
    {
      var _ :- Await(p);
      var t := tasks[p];
      var recorded := store.RecordRelaySubmission(t.id.callHash, t.id.relayer, t.hash);
      if !recorded.Success? {
        Throw(p);
        return Failure(());
      }
      tasks := tasks[p := if t.Submitted? then Recording(t.id, t.hash) else Settling(t.id, t.hash)];
      Log(DoRecord(p));
      return Success(());
    }

    /** The claim, the broadcast and the recording of its answer. */
    method Submit(p: nat) returns (r: Answer<()>)
      requires Valid() && p in tasks && tasks[p].Ready?
      modifies this, store
      ensures Valid() && old(run) <= run
      ensures r.Success? ==> p in tasks && tasks[p].Recording? && tasks[p].id == old(tasks[p]).id
      ensures r.Failure? ==> p !in tasks
      ensures alone ==> (r.Success? <==> Claimable(old(store.rows), old(tasks[p]).id, true))
      ensures alone && r.Success? ==>
                var id, h := tasks[p].id, tasks[p].hash;
                && store.rows == old(store.rows)[id.callHash := Row(id.relayer, id.pool, id.nullifiers, Some(h), None)]
                && sent == old(sent) + [Sent(id.callHash, Some(h))]
    {
      var _ :- ClaimIt(p);
      var _ :- BroadcastIt(p);
      r := RecordIt(p);
    }

    /** The row is the caller's and has this hash, or none yet. */
    static predicate Recordable(t: Table, id: Identity, h: Hex32) {
      id.callHash in t && t[id.callHash].relayer == id.relayer && t[id.callHash].hash in {None, Some(h)}
    }

    /**
     A call that gets as far as settling names the hash stored in the call's row,
     which is the node's answer to the one broadcast that call hash ever had.
     Left alone, it gets there exactly when its inputs are free and its call is new,
     with one broadcast, or when its own row already has a hash, with none.
     */
    method ProcessBundle(p: nat, id: Identity) returns (r: Answer<Hex32>)
      requires Valid() && p !in tasks
      modifies this, store
      ensures Valid() && old(run) <= run
      ensures r.Success? ==>
                && id.callHash in store.rows && store.rows[id.callHash].hash == Some(r.value)
                && forall i :: 0 <= i < |sent| && sent[i].callHash == id.callHash ==> sent[i].hash == Some(r.value)
      ensures r.Failure? ==> p !in tasks
      ensures alone ==>
                (r.Success? <==> Claimable(old(store.rows), id, true)
                                 || (OwnsItsInputs(old(store.rows), id) && old(store.rows)[id.callHash].hash.Some?))
      ensures alone && r.Success? && Claimable(old(store.rows), id, true) ==>
                && store.rows == old(store.rows)[id.callHash := Row(id.relayer, id.pool, id.nullifiers, Some(r.value), None)]
                && sent == old(sent) + [Sent(id.callHash, Some(r.value))]
      ensures alone && r.Success? && OwnsItsInputs(old(store.rows), id) ==>
                store.rows == old(store.rows) && sent == old(sent) && old(store.rows)[id.callHash].hash == Some(r.value)
    {
      tasks := tasks[p := Probing(id)];
      Log(DoStart(p, id));
      var _ :- ProbeFirst(p);
      if tasks[p].Ready? {
        var _ :- Submit(p);
      }
      var _ :- RecordIt(p);
      SettledIsTheAnswer(run, acts, |acts|, p);
      return Success(tasks[p].hash);
    }
  }

  lemma SettledIsTheAnswer(run: seq<State>, acts: seq<Action>, i: nat, p: nat)
    requires BundleRelay.IsRun(run, acts) && i < |run| && p in run[i].tasks && run[i].tasks[p].Settling?
    ensures var c, h, s := run[i].tasks[p].id.callHash, run[i].tasks[p].hash, run[i];
            && c in s.rows && s.rows[c].hash == Some(h)
            && forall k :: 0 <= k < |s.sent| && s.sent[k].callHash == c ==> s.sent[k].hash == Some(h)
  {
    SettledHashIsTheBroadcast(run, acts, i, p);
    BundleRelay.RunKeepsInv(run, acts, i);
  }
}
