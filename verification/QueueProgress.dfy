/**
 How the execution queue moves on: an acquire that skips no row leaves something
 unmoved only if it is finished or held, so the queue comes to rest with every job
 in a terminal status, and no waiting job is overtaken for ever.
 */
module QueueProgress {
  import opened Wrappers
  import opened JobQueue

  /** Finished, or held by a worker whose lease has not run out. */
  predicate AtRest(j: Job, now: int) {
    Terminal(j) || LiveLeased(j, now)
  }

  /** An acquire that skips no locked row does nothing exactly when every job is at rest. */
  lemma AcquireIsIdleExactlyAtRest(jobs: Jobs, op: Op)
    requires JobsOk(jobs) && op.Acquire? && Legal(jobs, op) && op.locked == {}
    ensures op.picked.None? && op.swept == {} <==> forall id :: id in jobs ==> AtRest(jobs[id], op.now)
  {
    var exhausted := Sweepables(jobs, op.locked, op.now);
    var candidates := Candidates(jobs, op.locked, op.now);
    forall id | id in jobs
      ensures AtRest(jobs[id], op.now) <==> id !in exhausted && id !in candidates
    {
      NoJobIsStranded(jobs[id], op.now);
    }
  }

  /** While some job is neither finished nor held, an acquire that skips no locked row moves a job. */
  lemma UnheldJobMoves(jobs: Jobs, op: Op)
    requires JobsOk(jobs) && op.Acquire? && Legal(jobs, op) && op.locked == {}
    requires exists id :: id in jobs && !AtRest(jobs[id], op.now)
    ensures exists o :: o in jobs && Progresses(jobs, op, o)
  {
    AcquireIsIdleExactlyAtRest(jobs, op);
    if op.picked.Some? {
      var id := op.picked.value;
      assert id in Candidates(jobs, op.locked, op.now) && id !in op.swept;
      assert Progresses(jobs, op, id);
    } else {
      var id :| id in op.swept;
      assert id in Sweepables(jobs, op.locked, op.now);
      assert Progresses(jobs, op, id);
    }
  }

  // ------------------------------------------------------- the queue comes to rest

  predicate AllTerminal(jobs: Jobs) {
    forall id :: id in jobs ==> Terminal(jobs[id])
  }

  /** What is left to do over the jobs below n. */
  function Total(jobs: Jobs, n: nat): int {
    if n == 0 then 0 else Total(jobs, n - 1) + (if n - 1 in jobs then Remaining(jobs[n - 1]) else 0)
  }

  predicate Below(jobs: Jobs, n: nat) {
    forall id :: id in jobs ==> id < n
  }

  /** No attempt is given back and no job added. */
  predicate Draining(op: Op) {
    !op.DryRun? && !op.Defer? && !op.Enqueue?
  }

  /** An acquire that skips no row, at a time when every lease in the table has run out. */
  predicate Unhindered(jobs: Jobs, op: Op) {
    op.Acquire? && op.locked == {} && forall id :: id in jobs ==> !LiveLeased(jobs[id], op.now)
  }

  lemma {:induction false} TotalFalls(jobs: Jobs, op: Op, n: nat)
    requires JobsOk(jobs) && Legal(jobs, op) && Draining(op)
    ensures 0 <= Total(After(jobs, op), n) <= Total(jobs, n)
    ensures (exists o :: o in jobs && o < n && Progresses(jobs, op, o)) ==> Total(After(jobs, op), n) < Total(jobs, n)
  {
    if n > 0 {
      TotalFalls(jobs, op, n - 1);
      SameJobs(jobs, op);
      if n - 1 in jobs { RemainingFalls(jobs, op, n - 1); }
      forall o | o in jobs && o < n && Progresses(jobs, op, o)
        ensures Total(After(jobs, op), n) < Total(jobs, n)
      {
        assert o < n - 1 || o == n - 1;
      }
    }
  }

  lemma RemainingFalls(jobs: Jobs, op: Op, id: JobId)
    requires JobsOk(jobs) && Legal(jobs, op) && Draining(op) && id in jobs
    ensures id in After(jobs, op) && 0 <= Remaining(After(jobs, op)[id]) <= Remaining(jobs[id])
    ensures Progresses(jobs, op, id) ==> Remaining(After(jobs, op)[id]) < Remaining(jobs[id])
  {
    ProgressLowersRemaining(jobs, op, id);
    ApplyKeepsJobsOk(jobs, op);
    assert JobOk(After(jobs, op)[id]);
    SameJobs(jobs, op);
  }

  lemma SameJobs(jobs: Jobs, op: Op)
    requires Legal(jobs, op) && !op.Enqueue?
    ensures After(jobs, op).Keys == jobs.Keys
  {
  }

  lemma TerminalStays(jobs: Jobs, op: Op)
    requires AllTerminal(jobs) && Legal(jobs, op) && !op.Enqueue?
    ensures AllTerminal(After(jobs, op))
  {
    SameJobs(jobs, op);
    if op.Acquire? && op.picked.Some? {
      assert op.picked.value in Candidates(jobs, op.locked, op.now);
    }
  }

  /** How many of the acquires from i to j were unhindered. */
  ghost function UnhinderedCount(run: seq<Jobs>, ops: seq<Op>, i: nat, j: nat): nat
    requires i <= j <= |ops| < |run|
    decreases j
  {
    if i == j then 0
    else UnhinderedCount(run, ops, i, j - 1) + (if Unhindered(run[j - 1], ops[j - 1]) then 1 else 0)
  }

  lemma {:induction false} RestOrLess(run: seq<Jobs>, ops: seq<Op>, i: nat, j: nat, n: nat)
    requires IsRun(run, ops) && i <= j < |run| && Below(run[i], n)
    requires forall k :: i <= k < j ==> Draining(ops[k])
    ensures Below(run[j], n) && 0 <= Total(run[j], n)
    ensures AllTerminal(run[j]) || UnhinderedCount(run, ops, i, j) + Total(run[j], n) <= Total(run[i], n)
    decreases j
  {
    if i == j {
      RunKeepsJobsOk(run, ops, i);
      TotalIsNat(run[i], n);
    } else {
      RestOrLess(run, ops, i, j - 1, n);
      RestOrLessStep(run, ops, j - 1, n);
    }
  }

  lemma {:induction false} TotalIsNat(jobs: Jobs, n: nat)
    requires JobsOk(jobs)
    ensures 0 <= Total(jobs, n)
  {
    if n > 0 {
      TotalIsNat(jobs, n - 1);
      assert n - 1 in jobs ==> JobOk(jobs[n - 1]);
    }
  }

  lemma RestOrLessStep(run: seq<Jobs>, ops: seq<Op>, k: nat, n: nat)
    requires IsRun(run, ops) && k < |ops| && Draining(ops[k]) && Below(run[k], n)
    ensures Below(run[k + 1], n) && 0 <= Total(run[k + 1], n) <= Total(run[k], n)
    ensures AllTerminal(run[k]) ==> AllTerminal(run[k + 1])
    ensures !AllTerminal(run[k]) && Unhindered(run[k], ops[k]) ==> Total(run[k + 1], n) < Total(run[k], n)
  {
    var jobs, op := run[k], ops[k];
    RunKeepsJobsOk(run, ops, k);
    assert StepAt(run, ops, k);
    SameJobs(jobs, op);
    TotalFalls(jobs, op, n);
    if AllTerminal(jobs) {
      TerminalStays(jobs, op);
    } else if Unhindered(jobs, op) {
      var id :| id in jobs && !Terminal(jobs[id]);
      assert !AtRest(jobs[id], op.now);
      UnheldJobMoves(jobs, op);
    }
  }

  /**
   With no dry runs, deferrals and new jobs, the queue comes to rest: once there
   have been more acquires past all expiries than there was work left, every job
   is in a terminal status.
   */
  lemma QueueComesToRest(run: seq<Jobs>, ops: seq<Op>, i: nat, j: nat, n: nat)
    requires IsRun(run, ops) && i <= j < |run| && Below(run[i], n)
    requires forall k :: i <= k < j ==> Draining(ops[k])
    requires UnhinderedCount(run, ops, i, j) > Total(run[i], n)
    ensures AllTerminal(run[j])
  {
    RestOrLess(run, ops, i, j, n);
  }

  // ----------------------------------------------------------- no job is overtaken for ever

  /** The jobs an acquire would look at before this one. */
  function Ahead(jobs: Jobs, id: JobId): set<JobId>
    requires id in jobs
  {
    set o | o in jobs && o != id && WaitedLonger(jobs, o, id)
  }

  /** Acquires from i to j that did not skip the job's row. */
  ghost function LooksAt(ops: seq<Op>, i: nat, j: nat, id: JobId): nat
    requires i <= j <= |ops|
    decreases j
  {
    if i == j then 0 else LooksAt(ops, i, j - 1, id) + (if ops[j - 1].Acquire? && id !in ops[j - 1].locked then 1 else 0)
  }

  /** Waiting since before t. */
  predicate WaitingSince(jobs: Jobs, id: JobId, t: int) {
    id in jobs && Acquirable(jobs[id], t) && jobs[id].updatedAt < t
  }

  /** Unless it is picked, a waiting job stays as it is, and nothing gets ahead of it. */
  lemma WaitingStep(jobs: Jobs, op: Op, id: JobId, t: int)
    requires JobsOk(jobs) && Legal(jobs, op) && WaitingSince(jobs, id, t) && op.now >= t
    requires op.Acquire? ==> op.picked != Some(id)
    ensures id in After(jobs, op) && After(jobs, op)[id] == jobs[id]
    ensures Ahead(After(jobs, op), id) <= Ahead(jobs, id)
    ensures op.Acquire? && id !in op.locked ==> Ahead(After(jobs, op), id) < Ahead(jobs, id)
  {
    var after := After(jobs, op);
    assert JobOk(jobs[id]);
    if op.Acquire? {
      assert op.swept <= Sweepables(jobs, op.locked, op.now);
      assert id !in op.swept;
      if id !in op.locked {
        assert id in Candidates(jobs, op.locked, op.now);
        assert op.picked.value in Ahead(jobs, id) - Ahead(after, id);
      }
    }
    forall o | o in Ahead(after, id)
      ensures o in Ahead(jobs, id)
    {
      assert o in jobs;
    }
  }

  lemma {:induction false} StillWaiting(run: seq<Jobs>, ops: seq<Op>, i: nat, j: nat, id: JobId, t: int)
    requires IsRun(run, ops) && i <= j < |run| && WaitingSince(run[i], id, t)
    requires forall k :: i <= k < j ==> ops[k].now >= t
    requires forall k :: i <= k < j && ops[k].Acquire? ==> ops[k].picked != Some(id)
    ensures id in run[j] && run[j][id] == run[i][id]
    ensures LooksAt(ops, i, j, id) + |Ahead(run[j], id)| <= |Ahead(run[i], id)|
    decreases j
  {
    if i < j {
      StillWaiting(run, ops, i, j - 1, id, t);
      RunKeepsJobsOk(run, ops, j - 1);
      assert StepAt(run, ops, j - 1);
      WaitingStep(run[j - 1], ops[j - 1], id, t);
      FewerElements(Ahead(run[j], id), Ahead(run[j - 1], id));
    }
  }

  lemma {:induction false} FewerElements(a: set<JobId>, b: set<JobId>)
    requires a <= b
    ensures |a| <= |b| && (a < b ==> |a| < |b|)
  {
    assert a + (b - a) == b;
  }

  /**
   The longest-waiting order is fair: a job that can be acquired is picked, at the
   latest, by the acquire after as many as there are jobs ahead of it, provided
   they do not skip its row.  Till then nothing changes it.
   */
  lemma WaitingJobIsPicked(run: seq<Jobs>, ops: seq<Op>, i: nat, j: nat, id: JobId, t: int)
    requires IsRun(run, ops) && i <= j < |run| && WaitingSince(run[i], id, t)
    requires forall k :: i <= k < j ==> ops[k].now >= t
    requires LooksAt(ops, i, j, id) > |Ahead(run[i], id)|
    ensures exists k :: (i <= k < j && ops[k].Acquire? && ops[k].picked == Some(id)
                         && id in run[k] && run[k][id] == run[i][id])
  {
    var k := FirstPick(ops, i, j, id);
    StillWaiting(run, ops, i, k, id, t);
  }

  lemma {:induction false} FirstPick(ops: seq<Op>, i: nat, j: nat, id: JobId) returns (k: nat)
    requires i <= j <= |ops|
    ensures i <= k <= j && (k < j ==> ops[k].Acquire? && ops[k].picked == Some(id))
    ensures forall m :: i <= m < k && ops[m].Acquire? ==> ops[m].picked != Some(id)
    decreases j - i
  {
    if i == j || (ops[i].Acquire? && ops[i].picked == Some(id)) {
      k := i;
    } else {
      k := FirstPick(ops, i + 1, j, id);
    }
  }
}
