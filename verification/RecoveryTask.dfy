/**
 `recoverPayoutV7RelayDeposit` as it runs, statement by statement, with all other
 calls moving at every `await`.  Each call is part of a run of `RelayRecovery`,
 so what is proved of runs holds of any mix of these calls.  For a call that is
 left alone nobody else acts, nothing throws and the service's answers check.
 */
module RecoveryTask {
  import opened Wrappers
  import opened RelayRecovery

  type Answer<T> = Result<T, ()>

  /** How a call ended that did not throw. */
  datatype Outcome = Idle | Removed | Transferred(transfer: Transfer) | Named

  class Process {
    const limits: Limits
    const store: RecoveryStore
    const alone: bool
    var workers: map<nat, Worker>
    var asked: seq<Request>
    var ended: set<JobId>
    var sent: seq<Transfer>
    ghost var run: seq<State>
    ghost var acts: seq<Action>

    constructor (limits: Limits, alone: bool)
      ensures this.limits == limits && this.alone == alone && Valid() && fresh(store) && Now() == INITIAL
    {
      this.limits, this.alone := limits, alone;
      store := new RecoveryStore();
      workers, asked, ended, sent := map[], [], {}, [];
      run, acts := [INITIAL], [];
    }

    ghost function Now(): State
      reads this, store
    {
      State(store.rows, workers, asked, ended, sent)
    }

    ghost predicate Valid()
      reads this, store
    {
      RelayRecovery.IsRun(limits, run, acts) && Now() == run[|acts|]
    }

    /** What the fields have come to is the next state of the run. */
    ghost method Log(a: Action)
      requires RelayRecovery.IsRun(limits, run, acts) && Step(limits, run[|acts|], Now(), a)
      modifies this`run, this`acts
      ensures Valid() && run == old(run) + [Now()] && acts == old(acts) + [a]
    {
      run, acts := run + [Now()], acts + [a];
    }

    method Perform(u: State, a: Action)
      requires Valid() && Step(limits, Now(), u, a)
      modifies this, store
      ensures Valid() && Now() == u && run == old(run) + [u] && acts == old(acts) + [a]
    {
      store.rows := u.table;
      workers, asked, ended, sent := u.workers, u.asked, u.ended, u.sent;
      Log(a);
    }

    /** Only the calls under way differ. */
    static predicate SameBut(before: State, after: State) {
      after == before.(workers := after.workers)
    }

    /** The call ends here, with or without an error. */
    method Finish(p: nat)
      requires Valid() && p in workers
      modifies this, store
      ensures Valid() && old(run) <= run && p !in workers && SameBut(old(Now()), Now())
    {
      workers := workers - {p};
      Log(Stop(p));
    }

    /** Other calls move; then this one may throw. */
    method Await(p: nat) returns (r: Answer<()>)
      requires Valid() && p in workers
      modifies this, store
      ensures Valid() && old(run) <= run
      ensures r.Success? ==> p in workers && workers[p] == old(workers[p])
      ensures r.Failure? ==> p !in workers
      ensures alone ==> r.Success? && Now() == old(Now())
    {
      if alone { return Success(()); }
      var steps: nat := *;
      while steps > 0
        invariant Valid() && old(run) <= run
        invariant p in workers && workers[p] == old(workers[p])
      {
        var a: Action, u: State := *, *;
        if Step(limits, State(store.rows, workers, asked, ended, sent), u, a) && a.p != p {
          StepLeavesWorker(limits, Now(), u, a, p);
          Perform(u, a);
        }
        steps := steps - 1;
      }
      var threw: bool := *;
      if threw {
        Finish(p);
        return Failure(());
      }
      return Success(());
    }

    /** The checkpoint, the evidence of the deposit, and what they call for. */
    method Look(p: nat) returns (r: Answer<()>)
      requires Valid() && p in workers && workers[p].Reading?
      modifies this, store
      ensures Valid() && old(run) <= run
      ensures r.Success? ==>
                && p in workers && workers[p].id == old(workers[p]).id
                && (workers[p].Asking? || workers[p].Preparing? || workers[p].Signing?)
      ensures r.Failure? ==> p !in workers
      ensures alone ==>
                var w, rows := old(workers[p]), old(store.rows);
                && SameBut(old(Now()), Now())
                && (w.id !in rows ==> r.Success? && workers[p] == Preparing(w.id, w.now))
                && (w.id in rows ==>
                      var c := rows[w.id];
                      && (r.Success? <==> ValidPrepared(limits, w.id, c.prepared) && c.preparedAt <= w.now)
                      && (r.Success? && c.job.Some? ==> workers[p] == Asking(w.id, c))
                      && (r.Success? && c.job.None? ==>
                            workers[p] == if w.now >= c.preparedAt + 45 then Preparing(w.id, w.now) else Signing(w.id, c)))
    {
      var _ :- Await(p);
      var id, now := workers[p].id, workers[p].now;
      var row := if id in store.rows then Some(store.rows[id]) else None;
      workers := workers[p := Found(id, now, row)];
      Log(Read(p));
      var _ :- Await(p);
      var next := Next(limits, id, now, row);
      if next.None? {
        Finish(p);
        return Failure(());
      }
      workers := workers[p := next.value];
      Log(Verify(p));
      return Success(());
    }

    method RemoveIt(p: nat) returns (r: Answer<Outcome>)
      requires Valid() && p in workers && workers[p].Removing?
      modifies this, store
      ensures Valid() && old(run) <= run && p !in workers
      ensures r == Success(Removed) ==> old(workers[p]).id !in store.rows
      ensures r.Success? ==> r.value == Removed
      ensures alone ==> r.Success? && SameBut(old(Now()).(table := old(store.rows) - {old(workers[p]).id}), Now())
    {
      var _ :- Await(p);
      store.RemoveRecovery(workers[p].id);
      workers := workers - {p};
      Log(Remove(p));
      return Success(Removed);
    }

    method SendIt(p: nat) returns (r: Answer<Outcome>)
      requires Valid() && p in workers && workers[p].Sending?
      modifies this, store
      ensures Valid() && old(run) <= run && p !in workers
      ensures r.Success? ==>
                var w := old(workers[p]);
                && w.state.job.Some? && r.value == Transferred(Transfer(w.id, w.state.job.value, w.amount)) && r.value.transfer in sent
      ensures alone && old(workers[p]).state.job.Some? ==>
                var t := Transfer(old(workers[p]).id, old(workers[p]).state.job.value, old(workers[p]).amount);
                r == Success(Transferred(t)) && SameBut(old(Now()).(sent := old(sent) + [t]), Now())
    {
      var _ :- Await(p);
      RunKeepsInv(limits, run, acts, |acts|);
      var transfer := Transfer(workers[p].id, workers[p].state.job.value, workers[p].amount);
      workers, sent := workers - {p}, sent + [transfer];
      Log(Send(p));
      return Success(Transferred(transfer));
    }

    /** An ended job is removed, a ready one transferred in the amount it says, any other left for later. */
    static function OutcomeFor(id: Id, c: Checkpoint, heard: Option<Status>): Outcome {
      match heard
      case None => Idle
      case Some(Ended) => Removed
      case Some(Ready(amount)) => if c.job.Some? then Transferred(Transfer(id, c.job.value, amount)) else Idle
    }

    /** A job was left, or removed as ended, or its transfer made within its preparation. */
    static predicate Followed(id: Id, c: Checkpoint, how: Outcome, before: State, after: State)
      requires c.job.Some?
    {
      match how
      case Idle => SameBut(before, after)
      case Removed => SameBut(before.(table := before.table - {id}, ended := before.ended + {c.job.value}), after)
      case Transferred(t) =>
        t == Transfer(id, c.job.value, t.amount) && 1 <= t.amount <= c.prepared.amount && SameBut(before.(sent := before.sent + [t]), after)
      case Named => false
    }

    /** The status of a named job: removed when it has ended, transferred when it is ready. */
    method FollowJob(p: nat) returns (r: Answer<Outcome>, heard: Option<Status>)
      requires Valid() && p in workers && workers[p].Asking?
      modifies this, store
      ensures Valid() && old(run) <= run && p !in workers
      ensures r == Success(Removed) ==> old(workers[p]).id !in store.rows
      ensures r.Success? && r.value.Transferred? ==> r.value.transfer.id == old(workers[p]).id && r.value.transfer in sent
      ensures r.Success? ==> !r.value.Named?
      ensures r.Success? ==> r.value == OutcomeFor(old(workers[p]).id, old(workers[p]).state, heard)
      ensures alone ==> r.Success? && old(workers[p]).state.job.Some? && Followed(old(workers[p]).id, old(workers[p]).state, r.value, old(Now()), Now())
    {
      heard := None;
      var awaited := Await(p);
      if awaited.Failure? { return Failure(()), heard; }
      RunKeepsInv(limits, run, acts, |acts|);
      var hasEnded: bool, isReady: bool, amount: nat := *, *, *;
      if alone && !(1 <= amount <= workers[p].state.prepared.amount) { amount := 1; }
      if hasEnded {
        heard := Some(Ended);
        HearEnded(p);
        r := RemoveIt(p);
      } else if isReady && 1 <= amount <= workers[p].state.prepared.amount {
        heard := Some(Ready(amount));
        HearReady(p, amount);
        r := SendIt(p);
      } else {
        Finish(p);
        r := if isReady then Failure(()) else Success(Idle);
      }
    }

    method HearEnded(p: nat)
      requires Valid() && p in workers && workers[p].Asking? && workers[p].state.job.Some?
      modifies this, store
      ensures Valid() && old(run) <= run
      ensures p in workers && workers[p] == Removing(old(workers[p]).id, old(workers[p]).state)
      ensures SameBut(old(Now()).(ended := old(ended) + {old(workers[p]).state.job.value}), Now())
    {
      ended := ended + {workers[p].state.job.value};
      workers := workers[p := Removing(workers[p].id, workers[p].state)];
      Log(Hear(p, Ended));
    }

    method HearReady(p: nat, amount: nat)
      requires Valid() && p in workers && workers[p].Asking? && 1 <= amount <= workers[p].state.prepared.amount
      modifies this, store
      ensures Valid() && old(run) <= run && SameBut(old(Now()), Now())
      ensures p in workers && workers[p] == Sending(old(workers[p]).id, old(workers[p]).state, amount)
    {
      workers := workers[p := Sending(workers[p].id, workers[p].state, amount)];
      Log(Hear(p, Ready(amount)));
    }

    method SaveIt(p: nat) returns (r: Answer<()>)
      requires Valid() && p in workers && workers[p].Saving?
      modifies this, store
      ensures Valid() && old(run) <= run
      ensures var id, state := old(workers[p]).id, old(workers[p]).state;
              && (r.Success? && state.job.None? ==> p in workers && workers[p] == Signing(id, state))
              && (r.Success? && state.job.Some? ==> p !in workers && id in store.rows && store.rows[id].job.Some?)
              && (alone ==> r.Success? && SameBut(old(Now()).(table := Upsert(old(store.rows), id, state)), Now()))
      ensures r.Failure? ==> p !in workers
    {
      var _ :- Await(p);
      var id, state := workers[p].id, workers[p].state;
      store.SaveRecovery(id, state);
      workers := if state.job.None? then workers[p := Signing(id, state)] else workers - {p};
      Log(Save(p));
      return Success(());
    }

    /** A withdrawal prepared by the service is checked and saved. */
    method PrepareIt(p: nat) returns (r: Answer<()>)
      requires Valid() && p in workers && workers[p].Preparing?
      modifies this, store
      ensures Valid() && old(run) <= run
      ensures r.Success? ==> p in workers && workers[p].Signing? && workers[p].id == old(workers[p]).id
      ensures r.Failure? ==> p !in workers
      ensures alone ==>
                var id, now := old(workers[p]).id, old(workers[p]).now;
                && (r.Success? <==> limits(id) >= 1)
                && (r.Success? ==>
                      && workers[p].state == Checkpoint(workers[p].state.prepared, now, None)
                      && ValidPrepared(limits, id, workers[p].state.prepared)
                      && SameBut(old(Now()).(table := Upsert(old(store.rows), id, workers[p].state)), Now()))
                && (r.Failure? ==> SameBut(old(Now()), Now()))
    {
      var _ :- Await(p);
      var id, now := workers[p].id, workers[p].now;
      var prepared: Prepared := *;
      if alone && !ValidPrepared(limits, id, prepared) { prepared := Prepared(1, 1); }
      if !ValidPrepared(limits, id, prepared) {
        Finish(p);
        return Failure(());
      }
      workers := workers[p := Saving(id, Checkpoint(prepared, now, None))];
      Log(Prepare(p, prepared));
      r := SaveIt(p);
    }

    /** The signature is handed in, and the job the service names for it is saved. */
    method NameIt(p: nat) returns (r: Answer<()>)
      requires Valid() && p in workers && workers[p].Signing?
      modifies this, store
      ensures Valid() && old(run) <= run && p !in workers
      ensures r.Success? ==> old(workers[p]).id in store.rows && store.rows[old(workers[p]).id].job.Some?
      ensures alone ==> r.Success? && |asked| == |old(asked)| + 1
      ensures alone ==>
                var id, c, q := old(workers[p]).id, old(workers[p]).state, asked[|asked| - 1];
                && q == Request(id, c.prepared, q.job)
                && SameBut(old(Now()).(table := Upsert(old(store.rows), id, c.(job := Some(q.job))), asked := old(asked) + [q]), Now())
    {
      var _ :- Await(p);
      var id, state, job: JobId := workers[p].id, workers[p].state, *;
      asked := asked + [Request(id, state.prepared, job)];
      workers := workers[p := Saving(id, state.(job := Some(job)))];
      Log(Ask(p, job));
      r := SaveIt(p);
    }

    /** One request was made, and the intent's checkpoint names its job and carries what it asked. */
    static predicate NamedFor(before: State, after: State, id: Id) {
      && |after.asked| == |before.asked| + 1 && id in after.table && after.table[id].job.Some?
      && after == before.(table := before.table[id := after.table[id]], workers := after.workers,
                          asked := before.asked + [Request(id, after.table[id].prepared, after.table[id].job.value)])
    }

    /** A preparation if there is none to go by, and then a job for it. */
    method ObtainJob(p: nat) returns (r: Answer<()>)
      requires Valid() && p in workers && (workers[p].Preparing? || workers[p].Signing?)
      modifies this, store
      ensures Valid() && old(run) <= run && p !in workers
      ensures r.Success? ==> old(workers[p]).id in store.rows && store.rows[old(workers[p]).id].job.Some?
      ensures alone ==> (r.Success? <==> (old(workers[p]).Preparing? ==> limits(old(workers[p]).id) >= 1))
      ensures alone && r.Failure? ==> SameBut(old(Now()), Now())
      ensures alone && r.Success? ==>
                var w, rows := old(workers[p]), old(store.rows);
                (w.id in rows ==> rows[w.id].job.None?) ==>
                  && NamedFor(old(Now()), Now(), w.id)
                  && (w.Preparing? ==> store.rows[w.id].preparedAt == w.now)
                  && (w.Signing? ==> store.rows[w.id] == w.state.(job := store.rows[w.id].job))
    {
      if workers[p].Preparing? {
        var _ :- PrepareIt(p);
      }
      r := NameIt(p);
    }

    /**
     One call.  A transfer it makes is within what was prepared when its job was
     asked for; a call that names a job leaves the intent with a named one.  Left
     alone, a named job is followed, and an intent without one gets it: for what was
     prepared less than 45 seconds ago, or else for a new preparation.
     */
    method Recover(p: nat, id: Id, now: int) returns (r: Answer<Outcome>, heard: Option<Status>)
      requires Valid() && p !in workers
      modifies this, store
      ensures Valid() && old(run) <= run && p !in workers
      ensures r == Success(Removed) ==> id !in store.rows
      ensures r == Success(Named) ==> id in store.rows && store.rows[id].job.Some?
      ensures r.Success? && r.value.Transferred? ==>
                var t := r.value.transfer; t.id == id && t in sent && Backed(limits, asked, t)
      ensures alone && id in old(store.rows) ==>
                var c := old(store.rows)[id];
                && (r.Success? <==> c.preparedAt <= now)
                && (r.Success? && c.job.Some? ==> r.value == OutcomeFor(id, c, heard) && Followed(id, c, r.value, old(Now()), Now()))
                && (r.Success? && c.job.None? ==>
                      && r.value == Named && NamedFor(old(Now()), Now(), id)
                      && if now < c.preparedAt + 45 then store.rows[id].(job := None) == c else store.rows[id].preparedAt == now)
                && (r.Failure? ==> SameBut(old(Now()), Now()))
      ensures alone && id !in old(store.rows) ==>
                && (r.Success? <==> limits(id) >= 1)
                && (r.Success? ==> r.value == Named && NamedFor(old(Now()), Now(), id) && store.rows[id].preparedAt == now)
                && (r.Failure? ==> SameBut(old(Now()), Now()))
    {
      RunKeepsInv(limits, run, acts, |acts|);
      workers := workers[p := Reading(id, now)];
      Log(Start(p, id, now));
      heard := None;
      var looked := Look(p);
      if looked.Failure? { return Failure(()), heard; }
      if workers[p].Asking? {
        r, heard := FollowJob(p);
        RunKeepsInv(limits, run, acts, |acts|);
        return;
      }
      var obtained := ObtainJob(p);
      return if obtained.Success? then Success(Named) else Failure(()), heard;
    }
  }
}
