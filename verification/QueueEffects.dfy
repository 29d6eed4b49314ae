/**
 What each transaction of the execution queue does to the one job it is about,
 and when it is refused; every other job stays as it is.
 */
module QueueEffects {
  import opened Wrappers
  import opened JobQueue

  /** The token is that of the current lease, which has not run out. */
  predicate HoldsLease(jobs: Jobs, id: JobId, token: Token, now: int) {
    && id in jobs && jobs[id].status == Leased
    && match jobs[id].lease
       case Some(Lease(t, until, _)) => t == token && until >= now
       case None => false
  }

  /** A leased job is either held under its token or free to be taken over: leased again, or swept once its attempts are used up. */
  lemma HeldOrTakenOver(jobs: Jobs, id: JobId, now: int)
    requires id in jobs && JobOk(jobs[id]) && jobs[id].status == Leased
    ensures HoldsLease(jobs, id, jobs[id].lease.value.token, now) <==> !Acquirable(jobs[id], now) && !Sweepable(jobs[id], now)
    ensures Acquirable(jobs[id], now) ==> jobs[id].attempt < jobs[id].maxAttempts
    ensures Sweepable(jobs[id], now) ==> jobs[id].attempt == jobs[id].maxAttempts
  {
  }

  /** Only this job changed, and neither what it is for nor its budget. */
  ghost predicate Touches(jobs: Jobs, now: Jobs, id: JobId) {
    && id in jobs && now.Keys == jobs.Keys
    && (forall o :: o in jobs && o != id ==> now[o] == jobs[o])
    && now[id].attemptId == jobs[id].attemptId && now[id].payloadHash == jobs[id].payloadHash
    && now[id].maxAttempts == jobs[id].maxAttempts
  }

  /**
   A recorded failure ends the lease and keeps log and attempts.  The job can be
   leased again, at any time, exactly when the failure was retryable and attempts
   are left; otherwise it has come to rest.
   */
  lemma FailureRetriesExactly(jobs: Jobs, id: JobId, token: Token, now: int, retryable: bool)
    ensures var r := Apply(jobs, Fail(id, token, now, retryable));
            && (r.Success? <==> HoldsLease(jobs, id, token, now))
            && (r.Success? ==>
                  var j, k := jobs[id], After(jobs, Fail(id, token, now, retryable))[id];
                  && Touches(jobs, r.value, id) && k.lease == None && k.log == j.log && k.attempt == j.attempt && k.updatedAt == now
                  && ((forall later: int :: Acquirable(k, later)) <==> retryable && j.attempt < j.maxAttempts)
                  && (Terminal(k) <==> !(retryable && j.attempt < j.maxAttempts))
                  && (Terminal(k) ==> k.status == ManualReview))
  {
    if HoldsLease(jobs, id, token, now) {
      var k := After(jobs, Fail(id, token, now, retryable))[id];
      assert Acquirable(k, now) <==> retryable && jobs[id].attempt < jobs[id].maxAttempts;
    }
  }

  lemma InvalidEndsInReview(jobs: Jobs, id: JobId, token: Token, now: int)
    ensures var r := Apply(jobs, Invalid(id, token, now));
            && (r.Success? <==> HoldsLease(jobs, id, token, now))
            && (r.Success? ==>
                  Touches(jobs, r.value, id)
                  && r.value[id] == jobs[id].(status := ManualReview, lease := None, updatedAt := now))
  {
  }

  /** A renewed lease is live, under the same token, until exactly its duration from now. */
  lemma RenewalExtendsTheLease(jobs: Jobs, id: JobId, token: Token, now: int)
    ensures var r := Apply(jobs, Renew(id, token, now));
            && (r.Success? <==> HoldsLease(jobs, id, token, now))
            && (r.Success? ==>
                  && Touches(jobs, r.value, id)
                  && (forall later: int, t: Token :: HoldsLease(r.value, id, t, later)
                                                     <==> t == token && later <= now + jobs[id].lease.value.duration)
                  && r.value[id].lease.value.duration == jobs[id].lease.value.duration
                  && r.value[id] == jobs[id].(lease := r.value[id].lease, updatedAt := now))
  {
  }

  /** A checkpoint is taken exactly when it is the next one of the order, and is appended. */
  lemma CheckpointIsTheNext(jobs: Jobs, id: JobId, token: Token, now: int, name: Function, hash: Hex32)
    requires JobsOk(jobs)
    ensures var r := Apply(jobs, RecordStep(id, token, now, name, hash));
            && (r.Success? <==> HoldsLease(jobs, id, token, now)
                                && match name
                                   case Register => |jobs[id].log| == 0
                                   case Observe => |jobs[id].log| == 1
                                   case Finalize => |jobs[id].log| == 2)
            && (r.Success? ==>
                  Touches(jobs, r.value, id)
                  && r.value[id] == jobs[id].(log := jobs[id].log + [Entry(|jobs[id].log|, name, hash)]))
  {
    assert id in jobs ==> JobOk(jobs[id]);
  }

  /** A job is submitted exactly with the three hashes of its log, in order. */
  lemma SubmissionNeedsTheLog(jobs: Jobs, id: JobId, token: Token, now: int, hashes: seq<Hex32>)
    requires JobsOk(jobs)
    ensures var r := Apply(jobs, Submit(id, token, now, hashes));
            && (r.Success? <==> HoldsLease(jobs, id, token, now) && |jobs[id].log| == 3
                                && hashes == [jobs[id].log[0].hash, jobs[id].log[1].hash, jobs[id].log[2].hash])
            && (r.Success? ==>
                  Touches(jobs, r.value, id)
                  && r.value[id] == jobs[id].(status := Submitted, lease := None, updatedAt := now))
  {
    if HoldsLease(jobs, id, token, now) {
      assert JobOk(jobs[id]);
      var log := jobs[id].log;
      if Matches(log, hashes) {
        assert hashes == [log[0].hash, log[1].hash, log[2].hash];
      }
    }
  }

  /** A submitted job is confirmed exactly by the hash of its finalization. */
  lemma ConfirmationNeedsTheFinalization(jobs: Jobs, id: JobId, hash: Hex32, now: int)
    requires JobsOk(jobs)
    ensures var r := Apply(jobs, Confirm(id, hash, now));
            && (r.Success? <==> id in jobs && jobs[id].status == Submitted
                                && |jobs[id].log| == 3 && jobs[id].log[2] == Entry(2, Finalize, hash))
            && (r.Success? ==> Touches(jobs, r.value, id) && r.value[id] == jobs[id].(status := Confirmed, updatedAt := now))
  {
    if id in jobs {
      assert JobOk(jobs[id]);
    }
  }

  /**
   An attempt is queued once: a second payload for it is refused, the same one
   again changes nothing, and a new one starts with no attempt and no checkpoint.
   */
  lemma EnqueuedOnce(jobs: Jobs, id: JobId, attemptId: Hex32, payloadHash: Hex32, max: int, now: int)
    ensures var r := Apply(jobs, Enqueue(id, attemptId, payloadHash, max, now));
            var known := exists o :: o in jobs && jobs[o].attemptId == attemptId;
            && (r.Success? <==> 1 <= max <= 20
                                && (forall o :: o in jobs && jobs[o].attemptId == attemptId ==> jobs[o].payloadHash == payloadHash)
                                && (id in jobs ==> known))
            && (r.Success? && known ==> r.value == jobs)
            && (r.Success? && !known ==> r.value == jobs[id := Job(attemptId, payloadHash, Queued, 0, max, None, [], now)])
  {
    var existing := set o | o in jobs && jobs[o].attemptId == attemptId;
    assert existing != {} <==> exists o :: o in jobs && jobs[o].attemptId == attemptId by {
      if o :| o in jobs && jobs[o].attemptId == attemptId { assert o in existing; }
      if existing != {} { var o :| o in existing; }
    }
  }

  /** An acquire sends the swept jobs to review and leases the picked one, or finds it unreadable; the others stay. */
  lemma AcquireTouches(jobs: Jobs, op: Op)
    requires JobsOk(jobs) && op.Acquire? && Legal(jobs, op)
    ensures var now := After(jobs, op);
            && Apply(jobs, op).Success? && now.Keys == jobs.Keys
            && (forall o :: o in jobs && o !in op.swept && op.picked != Some(o) ==> now[o] == jobs[o])
            && (forall o :: o in op.swept ==>
                  o in jobs && now[o] == jobs[o].(status := ManualReview, lease := None, updatedAt := op.now))
            && (op.picked.Some? ==>
                  var id := op.picked.value;
                  && id in jobs && now[id].attempt == jobs[id].attempt + 1 && now[id].log == jobs[id].log
                  && now[id] == jobs[id].(status := now[id].status, lease := now[id].lease, attempt := jobs[id].attempt + 1, updatedAt := op.now)
                  && (if op.readable then now[id].status == Leased && now[id].lease == Some(Lease(op.token, op.until, op.duration))
                      else now[id].status == ManualReview && now[id].lease == None))
  {
    assert op.swept <= Sweepables(jobs, op.locked, op.now);
    if op.picked.Some? {
      assert op.picked.value in Candidates(jobs, op.locked, op.now);
      assert JobOk(jobs[op.picked.value]);
    }
  }

  /** Of the exhausted leases that are not skipped a hundred at most are swept, those that expired first. */
  lemma SweepsTheOldest(jobs: Jobs, op: Op, a: JobId, b: JobId)
    requires op.Acquire? && Legal(jobs, op) && a in op.swept && b in Sweepables(jobs, op.locked, op.now) && b !in op.swept
    ensures a in jobs && b in jobs && |op.swept| == 100
    ensures Until(jobs[a]) < Until(jobs[b]) || (Until(jobs[a]) == Until(jobs[b]) && a < b)
  {
    assert a in Sweepables(jobs, op.locked, op.now) && b in Sweepables(jobs, op.locked, op.now) - op.swept;
    assert ExpiresBefore(jobs, a, b);
  }

  /** The job picked is the one that has waited longest of those not skipped. */
  lemma PicksTheLongestWaiting(jobs: Jobs, op: Op, o: JobId)
    requires op.Acquire? && Legal(jobs, op) && o in Candidates(jobs, op.locked, op.now) && op.picked != Some(o)
    ensures op.picked.Some? && op.picked.value in jobs && o in jobs
    ensures var id := op.picked.value;
            jobs[id].updatedAt < jobs[o].updatedAt || (jobs[id].updatedAt == jobs[o].updatedAt && id < o)
  {
    assert op.picked.value in Candidates(jobs, op.locked, op.now);
  }

  /** A dry run or a deferral under a lease undoes the acquire: the job is queued again with the attempts it had. */
  lemma GivingBackUndoesTheAcquire(jobs: Jobs, acquire: Op, id: JobId, now: int)
    requires JobsOk(jobs) && acquire.Acquire? && Legal(jobs, acquire) && acquire.picked == Some(id) && acquire.readable
    ensures id in jobs
    ensures var held := After(jobs, acquire);
            && Apply(held, DryRun(id, acquire.token, now)) == Apply(held, Defer(id, acquire.token, now))
            && (Apply(held, Defer(id, acquire.token, now)).Success? <==> now <= acquire.until)
            && (now <= acquire.until ==>
                  Touches(held, After(held, Defer(id, acquire.token, now)), id)
                  && After(held, Defer(id, acquire.token, now))[id] == jobs[id].(status := Queued, lease := None, updatedAt := now))
  {
    AcquireTouches(jobs, acquire);
    assert JobOk(jobs[id]);
  }

  /** On any table: giving back needs the lease and takes one attempt off, never below none. */
  lemma GivingBackTakesOneOff(jobs: Jobs, id: JobId, token: Token, now: int)
    requires JobsOk(jobs)
    ensures Apply(jobs, DryRun(id, token, now)) == Apply(jobs, Defer(id, token, now))
    ensures var r := Apply(jobs, Defer(id, token, now));
            && (r.Success? <==> HoldsLease(jobs, id, token, now))
            && (r.Success? ==> Touches(jobs, r.value, id)
                               && r.value[id] == jobs[id].(status := Queued, lease := None, attempt := jobs[id].attempt - 1, updatedAt := now))
  {
    assert id in jobs ==> JobOk(jobs[id]);
  }
}
