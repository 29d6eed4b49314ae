/** The execution table held in place: the data source's methods over JobQueue's transactions. */
module JobStore {
  import opened Wrappers
  import opened JobQueue
  import opened QueueEffects

  /** What an acquire hands to the worker. */
  datatype Grant = Grant(id: JobId, token: Token, log: seq<Entry>)

  class Store {
    var jobs: Jobs

    constructor ()
      ensures jobs == map[]
    {
      jobs := map[];
    }

    /** The first hundred exhausted leases, oldest expiry first. */
    method FirstExhausted(exhausted: set<JobId>) returns (swept: set<JobId>)
      requires exhausted <= jobs.Keys
      ensures swept <= exhausted
      ensures if |exhausted| <= 100 then swept == exhausted else |swept| == 100
      ensures forall a, b :: a in swept && b in exhausted - swept ==> ExpiresBefore(jobs, a, b)
    {
      swept := {};
      var rest := exhausted;
      while rest != {} && |swept| < 100
        invariant swept !! rest && swept + rest == exhausted && |swept| <= 100
        invariant |swept| + |rest| == |exhausted|
        invariant forall a, b :: a in swept && b in rest ==> ExpiresBefore(jobs, a, b)
        decreases rest
      {
        var first :| first in rest;
        var others := rest - {first};
        while others != {}
          invariant others <= rest && first in rest
          invariant forall b :: b in rest - others ==> ExpiresBefore(jobs, first, b)
          decreases others
        {
          var o :| o in others;
          assert forall b :: b in rest - (others - {o}) ==> b in rest - others || b == o;
          if ExpiresBefore(jobs, o, first) { first := o; }
          others := others - {o};
        }
        swept, rest := swept + {first}, rest - {first};
      }
      assert rest == exhausted - swept;
      if rest == {} { assert swept == exhausted; }
    }

    /** The candidate that has waited longest. */
    method LongestWaiting(candidates: set<JobId>) returns (picked: Option<JobId>)
      requires candidates <= jobs.Keys
      ensures match picked
              case None => candidates == {}
              case Some(id) => id in candidates && forall o :: o in candidates ==> WaitedLonger(jobs, id, o)
    {
      if candidates == {} { return None; }
      var first :| first in candidates;
      var others := candidates - {first};
      while others != {}
        invariant others <= candidates && first in candidates
        invariant forall b :: b in candidates - others ==> WaitedLonger(jobs, first, b)
        decreases others
      {
        var o :| o in others;
        assert forall b :: b in candidates - (others - {o}) ==> b in candidates - others || b == o;
        if WaitedLonger(jobs, o, first) { first := o; }
        others := others - {o};
      }
      return Some(first);
    }

    /** `until` comes from the worker's clock, `now` from the database's. */
    method AcquireJob(now: int, token: Token, until: int, duration: int, locked: set<JobId>, readable: bool)
      returns (r: Result<Option<Grant>, ()>, op: Op)
      requires JobsOk(jobs)
      modifies this
      ensures JobsOk(jobs)
      ensures op.Acquire? && (op.now, op.token, op.until, op.duration, op.locked, op.readable)
                             == (now, token, until, duration, locked, readable)
      ensures Legal(old(jobs), op) && jobs == After(old(jobs), op)
      ensures r == match op.picked
                   case None => Success(None)
                   case Some(id) => if readable then Success(Some(Grant(id, token, old(jobs)[id].log))) else Failure(())
      ensures r.Success? && r.value.Some? ==>
                var id := r.value.value.id;
                && id in old(jobs) && id in jobs && Active(jobs, id, token, until) && jobs[id].log == old(jobs)[id].log
    {
      var swept := FirstExhausted(Sweepables(jobs, locked, now));
      var picked := LongestWaiting(Candidates(jobs, locked, now));
      op := Acquire(now, token, until, duration, locked, swept, picked, readable);
      ApplyKeepsJobsOk(jobs, op);
      AcquireTouches(jobs, op);
      r := SweepAndLease(op);
    }

    /** The two UPDATEs: the sweep, and the lease of the picked job if its log and payload can be read. */
    method SweepAndLease(op: Op) returns (r: Result<Option<Grant>, ()>)
      requires JobsOk(jobs) && op.Acquire? && Legal(jobs, op)
      modifies this
      ensures jobs == After(old(jobs), op)
      ensures op.picked.Some? ==> op.picked.value in old(jobs)
      ensures r == match op.picked
                   case None => Success(None)
                   case Some(id) => if op.readable then Success(Some(Grant(id, op.token, old(jobs)[id].log))) else Failure(())
    {
      AcquireTouches(jobs, op);
      var after := Sweep(jobs, op.swept, op.now);
      if op.picked.None? {
        jobs := after;
        return Success(None);
      }
      var id := op.picked.value;
      assert id !in op.swept && JobOk(jobs[id]);
      var job := after[id].(attempt := after[id].attempt + 1);
      if op.readable && OrderedPrefix(job.log) {
        jobs := after[id := job.(status := Leased, lease := Some(Lease(op.token, op.until, op.duration)), updatedAt := op.now)];
        return Success(Some(Grant(id, op.token, job.log)));
      }
      jobs := after[id := Released(job, ManualReview, job.attempt, op.now)];
      return Failure(());
    }

    /** Queued again, with the attempt given back. */
    method GiveBack(id: JobId, token: Token, now: int) returns (r: Result<(), Error>)
      modifies this
      ensures Did(old(jobs), jobs, r, DryRun(id, token, now)) && Did(old(jobs), jobs, r, Defer(id, token, now))
    {
      if !Active(jobs, id, token, now) { return Failure(LeaseLost); }
      var attempt := jobs[id].attempt - 1;
      if attempt < 0 { attempt := 0; }
      jobs := jobs[id := Released(jobs[id], Queued, attempt, now)];
      return Success(());
    }

    method RecordDryRun(id: JobId, token: Token, now: int) returns (r: Result<(), Error>)
      modifies this
      ensures Did(old(jobs), jobs, r, DryRun(id, token, now))
    {
      r := GiveBack(id, token, now);
    }

    method DeferJob(id: JobId, token: Token, now: int) returns (r: Result<(), Error>)
      modifies this
      ensures Did(old(jobs), jobs, r, Defer(id, token, now))
    {
      r := GiveBack(id, token, now);
    }

    method RenewLease(id: JobId, token: Token, now: int) returns (r: Result<(), Error>)
      modifies this
      ensures Did(old(jobs), jobs, r, Renew(id, token, now))
    {
      if !Active(jobs, id, token, now) { return Failure(LeaseLost); }
      var l := jobs[id].lease.value;
      jobs := jobs[id := jobs[id].(lease := Some(Lease(l.token, now + l.duration, l.duration)), updatedAt := now)];
      return Success(());
    }

    method RecordConfirmed(id: JobId, token: Token, now: int, name: Function, hash: Hex32) returns (r: Result<(), Error>)
      modifies this
      ensures Did(old(jobs), jobs, r, RecordStep(id, token, now, name, hash))
    {
      var expected := 0;
      while expected < |ORDER| && ORDER[expected] != name
        invariant 0 <= expected <= |ORDER|
        invariant forall i :: 0 <= i < expected ==> ORDER[i] != name
      {
        expected := expected + 1;
      }
      if !Active(jobs, id, token, now) { return Failure(LeaseLost); }
      assert ORDER[0] == Register && ORDER[1] == Observe && ORDER[2] == Finalize;
      assert expected < |ORDER|;
      if |jobs[id].log| != expected { return Failure(NotNextStep); }
      jobs := jobs[id := jobs[id].(log := jobs[id].log + [Entry(expected, name, hash)])];
      return Success(());
    }

    method RecordFailed(id: JobId, token: Token, now: int, retryable: bool) returns (r: Result<(), Error>)
      modifies this
      ensures Did(old(jobs), jobs, r, Fail(id, token, now, retryable))
      ensures r.Success? <==> HoldsLease(old(jobs), id, token, now)
      ensures r.Success? ==>
                var j := old(jobs)[id];
                && Touches(old(jobs), jobs, id) && jobs[id].lease == None && jobs[id].log == j.log && jobs[id].attempt == j.attempt
                && ((forall later: int :: Acquirable(jobs[id], later)) <==> retryable && j.attempt < j.maxAttempts)
                && (Terminal(jobs[id]) <==> !(retryable && j.attempt < j.maxAttempts))
    {
      FailureRetriesExactly(jobs, id, token, now, retryable);
      if !Active(jobs, id, token, now) { return Failure(LeaseLost); }
      var status := ManualReview;
      if retryable && jobs[id].attempt < jobs[id].maxAttempts { status := FailedRetryable; }
      jobs := jobs[id := Released(jobs[id], status, jobs[id].attempt, now)];
      return Success(());
    }

    method RecordPayloadInvalid(id: JobId, token: Token, now: int) returns (r: Result<(), Error>)
      modifies this
      ensures Did(old(jobs), jobs, r, Invalid(id, token, now))
    {
      if !Active(jobs, id, token, now) { return Failure(LeaseLost); }
      jobs := jobs[id := Released(jobs[id], ManualReview, jobs[id].attempt, now)];
      return Success(());
    }

    method RecordSubmitted(id: JobId, token: Token, now: int, hashes: seq<Hex32>) returns (r: Result<(), Error>)
      modifies this
      ensures Did(old(jobs), jobs, r, Submit(id, token, now, hashes))
    {
      if |hashes| != |ORDER| { return Failure(InvalidArguments); }
      if !Active(jobs, id, token, now) { return Failure(LeaseLost); }
      var log := jobs[id].log;
      if |log| != |ORDER| { return Failure(HashesDiffer); }
      for i := 0 to |log|
        invariant forall k :: 0 <= k < i ==> log[k].index == k && log[k].name == ORDER[k] && log[k].hash == hashes[k]
      {
        if log[i].index != i || log[i].name != ORDER[i] || log[i].hash != hashes[i] { return Failure(HashesDiffer); }
      }
      jobs := jobs[id := Released(jobs[id], Submitted, jobs[id].attempt, now)];
      return Success(());
    }

    method ConfirmExecution(id: JobId, hash: Hex32, now: int) returns (r: Result<(), Error>)
      modifies this
      ensures Did(old(jobs), jobs, r, Confirm(id, hash, now))
    {
      if id !in jobs || |jobs[id].log| <= 2 || jobs[id].log[2].hash != hash { return Failure(HashesDiffer); }
      if jobs[id].status != Submitted { return Failure(NotSubmitted); }
      jobs := jobs[id := jobs[id].(status := Confirmed, updatedAt := now)];
      return Success(());
    }
  }

  /** The transaction committed with its effect, or failed and left the table alone. */
  ghost predicate Did(before: Jobs, after: Jobs, r: Result<(), Error>, op: Op) {
    match Apply(before, op)
    case Success(u) => after == u && r == Success(())
    case Failure(e) => after == before && r == Failure(e)
  }
}
