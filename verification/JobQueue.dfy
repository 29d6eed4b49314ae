/**
 The leased execution queue: a job is queued, leased under a token until an
 expiry, and moves through an ordered log of three transaction checkpoints.
 Each transaction of the data source is a function of the whole table (`Apply`);
 class `Store` of module JobStore runs the same transactions in place, and
 QueueProgress says how the queue comes to rest.
 */
module JobQueue {
  import opened Wrappers

  type JobId = nat
  type Hex32 = nat
  type Token = nat      // the SHA-256 of a lease token

  datatype Status = Queued | Leased | FailedRetryable | ManualReview | Submitted | Confirmed

  datatype Function = Register | Observe | Finalize

  const ORDER: seq<Function> := [Register, Observe, Finalize]

  /** `until` and the database clock are compared; `duration` is what a renewal adds. */
  datatype Lease = Lease(token: Token, until: int, duration: int)

  datatype Entry = Entry(index: nat, name: Function, hash: Hex32)

  datatype Job = Job(
    attemptId: Hex32, payloadHash: Hex32,
    status: Status, attempt: int, maxAttempts: int,
    lease: Option<Lease>, log: seq<Entry>, updatedAt: int)

  type Jobs = map<JobId, Job>

  datatype Error =
    | InvalidArguments | DifferentPayload | DuplicateJob
    | LeaseLost | NotNextStep | HashesDiffer | NotSubmitted

  // ------------------------------------------------------------ single updates

  predicate Active(jobs: Jobs, id: JobId, token: Token, now: int) {
    && id in jobs && jobs[id].status == Leased
    && jobs[id].lease.Some? && jobs[id].lease.value.token == token
    && now <= jobs[id].lease.value.until
  }

  /** Ends the lease: every column the UPDATE clears is cleared. */
  function Released(j: Job, status: Status, attempt: int, now: int): Job {
    j.(status := status, attempt := attempt, lease := None, updatedAt := now)
  }

  function GivenBack(j: Job, now: int): Job {
    Released(j, Queued, if j.attempt - 1 > 0 then j.attempt - 1 else 0, now)
  }

  /** The log, as read back, is a prefix of ORDER. */
  predicate OrderedPrefix(log: seq<Entry>) {
    && |log| <= |ORDER|
    && forall i :: 0 <= i < |log| ==> log[i].index == i && log[i].name == ORDER[i]
  }

  predicate Sweepable(j: Job, now: int) {
    j.status == Leased && j.lease.Some? && j.lease.value.until < now && j.attempt >= j.maxAttempts
  }

  predicate Acquirable(j: Job, now: int) {
    && j.attempt < j.maxAttempts
    && (j.status == Queued || j.status == FailedRetryable
        || (j.status == Leased && j.lease.Some? && j.lease.value.until < now))
  }

  function Sweepables(jobs: Jobs, locked: set<JobId>, now: int): set<JobId> {
    set id | id in jobs && id !in locked && Sweepable(jobs[id], now)
  }

  function Candidates(jobs: Jobs, locked: set<JobId>, now: int): set<JobId> {
    set id | id in jobs && id !in locked && Acquirable(jobs[id], now)
  }

  function Until(j: Job): int {
    if j.lease.Some? then j.lease.value.until else 0
  }

  /** ORDER BY locked_until, job_id. */
  predicate ExpiresBefore(jobs: Jobs, a: JobId, b: JobId)
    requires a in jobs && b in jobs
  {
    Until(jobs[a]) < Until(jobs[b]) || (Until(jobs[a]) == Until(jobs[b]) && a <= b)
  }

  /** ORDER BY updated_at, job_id. */
  predicate WaitedLonger(jobs: Jobs, a: JobId, b: JobId)
    requires a in jobs && b in jobs
  {
    jobs[a].updatedAt < jobs[b].updatedAt || (jobs[a].updatedAt == jobs[b].updatedAt && a <= b)
  }

  // -------------------------------------------------------------- transactions

  datatype Op =
    | Enqueue(id: JobId, attemptId: Hex32, payloadHash: Hex32, maxAttempts: int, now: int)
    | Acquire(now: int, token: Token, until: int, duration: int, locked: set<JobId>,
              swept: set<JobId>, picked: Option<JobId>, readable: bool)
    | DryRun(id: JobId, token: Token, now: int)
    | Defer(id: JobId, token: Token, now: int)
    | Renew(id: JobId, token: Token, now: int)
    | RecordStep(id: JobId, token: Token, now: int, name: Function, hash: Hex32)
    | Fail(id: JobId, token: Token, now: int, retryable: bool)
    | Invalid(id: JobId, token: Token, now: int)
    | Submit(id: JobId, token: Token, now: int, hashes: seq<Hex32>)
    | Confirm(id: JobId, hash: Hex32, now: int)
  {
    /** The writes guarded by a live lease. */
    predicate Guarded() {
      DryRun? || Defer? || Renew? || RecordStep? || Fail? || Invalid? || Submit?
    }
  }

  /** Rows locked by concurrent transactions are skipped; otherwise both queries are deterministic. */
  predicate Chooses(jobs: Jobs, op: Op)
    requires op.Acquire?
  {
    var exhausted := Sweepables(jobs, op.locked, op.now);
    && op.swept <= exhausted
    && (if |exhausted| <= 100 then op.swept == exhausted else |op.swept| == 100)
    && (forall a, b :: a in op.swept && b in exhausted - op.swept ==> ExpiresBefore(jobs, a, b))
    && var candidates := Candidates(jobs, op.locked, op.now);
    match op.picked
    case None => candidates == {}
    case Some(id) => id in candidates && forall o :: o in candidates ==> WaitedLonger(jobs, id, o)
  }

  function Sweep(jobs: Jobs, swept: set<JobId>, now: int): Jobs {
    map id | id in jobs :: if id in swept then Released(jobs[id], ManualReview, jobs[id].attempt, now) else jobs[id]
  }

  /** The granted lease; a log or payload that cannot be read ends in manual review. */
  function Granted(j: Job, op: Op): Job
    requires op.Acquire?
  {
    if op.readable && OrderedPrefix(j.log)
    then j.(status := Leased, attempt := j.attempt + 1, lease := Some(Lease(op.token, op.until, op.duration)), updatedAt := op.now)
    else Released(j, ManualReview, j.attempt + 1, op.now)
  }

  function Apply(jobs: Jobs, op: Op): Result<Jobs, Error> {
    match op
    case Enqueue(id, attemptId, payloadHash, max, now) =>
      if max < 1 || max > 20 then Failure(InvalidArguments)
      else
        var existing := set o | o in jobs && jobs[o].attemptId == attemptId;
        if existing != {} then
          if exists o :: o in existing && jobs[o].payloadHash != payloadHash then Failure(DifferentPayload)
          else Success(jobs)
        else if id in jobs then Failure(DuplicateJob)
        else Success(jobs[id := Job(attemptId, payloadHash, Queued, 0, max, None, [], now)])
    case Acquire(now, _, _, _, _, swept, picked, _) =>
      var after := Sweep(jobs, swept, now);
      if picked.Some? && picked.value in after then Success(after[picked.value := Granted(after[picked.value], op)])
      else Success(after)
    case DryRun(id, token, now) =>
      if !Active(jobs, id, token, now) then Failure(LeaseLost) else Success(jobs[id := GivenBack(jobs[id], now)])
    case Defer(id, token, now) =>
      if !Active(jobs, id, token, now) then Failure(LeaseLost) else Success(jobs[id := GivenBack(jobs[id], now)])
    case Renew(id, token, now) =>
      if !Active(jobs, id, token, now) then Failure(LeaseLost)
      else
        var l := jobs[id].lease.value;
        Success(jobs[id := jobs[id].(lease := Some(l.(until := now + l.duration)), updatedAt := now)])
    case RecordStep(id, token, now, name, hash) =>
      if !Active(jobs, id, token, now) then Failure(LeaseLost)
      else if |jobs[id].log| >= |ORDER| || ORDER[|jobs[id].log|] != name then Failure(NotNextStep)
      else Success(jobs[id := jobs[id].(log := jobs[id].log + [Entry(|jobs[id].log|, name, hash)])])
    case Fail(id, token, now, retryable) =>
      if !Active(jobs, id, token, now) then Failure(LeaseLost)
      else
        var status := if retryable && jobs[id].attempt < jobs[id].maxAttempts then FailedRetryable else ManualReview;
        Success(jobs[id := Released(jobs[id], status, jobs[id].attempt, now)])
    case Invalid(id, token, now) =>
      if !Active(jobs, id, token, now) then Failure(LeaseLost)
      else Success(jobs[id := Released(jobs[id], ManualReview, jobs[id].attempt, now)])
    case Submit(id, token, now, hashes) =>
      if |hashes| != |ORDER| then Failure(InvalidArguments)
      else if !Active(jobs, id, token, now) then Failure(LeaseLost)
      else if !Matches(jobs[id].log, hashes) then Failure(HashesDiffer)
      else Success(jobs[id := Released(jobs[id], Submitted, jobs[id].attempt, now)])
    case Confirm(id, hash, now) =>
      if id !in jobs || |jobs[id].log| <= 2 || jobs[id].log[2].hash != hash then Failure(HashesDiffer)
      else if jobs[id].status != Submitted then Failure(NotSubmitted)
      else Success(jobs[id := jobs[id].(status := Confirmed, updatedAt := now)])
  }

  /** The comparison made before a job is marked submitted. */
  predicate Matches(log: seq<Entry>, hashes: seq<Hex32>) {
    && |log| == |ORDER| && |hashes| == |ORDER| && OrderedPrefix(log)
    && forall i :: 0 <= i < |log| ==> log[i].hash == hashes[i]
  }

  function After(jobs: Jobs, op: Op): Jobs {
    match Apply(jobs, op) case Success(u) => u case Failure(_) => jobs
  }

  // --------------------------------------------------------------- invariants

  predicate Terminal(j: Job) {
    j.status == ManualReview || j.status == Submitted || j.status == Confirmed
  }

  predicate LiveLeased(j: Job, now: int) {
    j.status == Leased && j.lease.Some? && now <= j.lease.value.until
  }

  predicate JobOk(j: Job) {
    && OrderedPrefix(j.log)
    && (j.status == Submitted || j.status == Confirmed ==> |j.log| == |ORDER|)
    && (j.status == Leased <==> j.lease.Some?)
    && 0 <= j.attempt <= j.maxAttempts <= 20
    && (j.status == Leased ==> 1 <= j.attempt)
    && (j.status == Queued || j.status == FailedRetryable ==> j.attempt < j.maxAttempts)
  }

  predicate JobsOk(jobs: Jobs) {
    forall id :: id in jobs ==> JobOk(jobs[id])
  }

  predicate Legal(jobs: Jobs, op: Op) {
    op.Acquire? ==> Chooses(jobs, op)
  }

  lemma ApplyKeepsJobsOk(jobs: Jobs, op: Op)
    requires JobsOk(jobs) && Legal(jobs, op)
    ensures JobsOk(After(jobs, op))
  {
    if op.Acquire? {
      var after := Sweep(jobs, op.swept, op.now);
      forall id | id in after
        ensures JobOk(after[id])
      {
        assert id in op.swept ==> id in Sweepables(jobs, op.locked, op.now);
      }
      if op.picked.Some? {
        assert op.picked.value !in op.swept;
      }
    }
  }

  /** A guarded write with a token that is not current, or after expiry, fails and changes nothing. */
  lemma StaleWriteRejected(jobs: Jobs, op: Op)
    requires op.Guarded() && !Active(jobs, op.id, op.token, op.now)
    ensures Apply(jobs, op).Failure? && After(jobs, op) == jobs
  {
  }

  /** Every job is in exactly one of: terminal, acquirable, live-leased, sweepable. */
  lemma NoJobIsStranded(j: Job, now: int)
    requires JobOk(j)
    ensures Terminal(j) || Acquirable(j, now) || LiveLeased(j, now) || Sweepable(j, now)
    ensures !(Acquirable(j, now) && (LiveLeased(j, now) || Sweepable(j, now)))
    ensures !(LiveLeased(j, now) && Sweepable(j, now))
    ensures Terminal(j) ==> !Acquirable(j, now) && !LiveLeased(j, now) && !Sweepable(j, now)
  {
  }

  // -------------------------------------------------------------- whole runs

  ghost predicate StepAt(run: seq<Jobs>, ops: seq<Op>, i: int)
    requires 0 <= i < |ops| && |run| == |ops| + 1
  {
    Legal(run[i], ops[i]) && run[i + 1] == After(run[i], ops[i])
  }

  ghost predicate IsRun(run: seq<Jobs>, ops: seq<Op>) {
    && |run| == |ops| + 1 && run[0] == map[]
    && forall i {:trigger StepAt(run, ops, i)} :: 0 <= i < |ops| ==> StepAt(run, ops, i)
  }

  lemma {:induction false} RunKeepsJobsOk(run: seq<Jobs>, ops: seq<Op>, i: nat)
    requires IsRun(run, ops) && i < |run|
    ensures JobsOk(run[i])
  {
    if i > 0 {
      RunKeepsJobsOk(run, ops, i - 1);
      assert StepAt(run, ops, i - 1);
      ApplyKeepsJobsOk(run[i - 1], ops[i - 1]);
    }
  }

  /** +1 for a lease granted to the job, -1 for a lease given back by a dry run or a deferral. */
  function Charge(jobs: Jobs, op: Op, id: JobId): int {
    if op.Acquire? && op.picked == Some(id) then 1
    else if (op.DryRun? || op.Defer?) && op.id == id && Apply(jobs, op).Success? then -1
    else 0
  }

  ghost function Charges(run: seq<Jobs>, ops: seq<Op>, i: nat, id: JobId): int
    requires IsRun(run, ops) && i < |run|
  {
    if i == 0 then 0 else Charges(run, ops, i - 1, id) + Charge(run[i - 1], ops[i - 1], id)
  }

  lemma StepCharges(jobs: Jobs, op: Op, id: JobId)
    requires JobsOk(jobs) && Legal(jobs, op)
    ensures id in jobs ==> id in After(jobs, op) && After(jobs, op)[id].attempt == jobs[id].attempt + Charge(jobs, op, id)
    ensures id !in jobs ==> Charge(jobs, op, id) == 0 && (id in After(jobs, op) ==> After(jobs, op)[id].attempt == 0)
  {
    if op.Acquire? && op.picked.Some? {
      assert op.picked.value in jobs;
      assert op.picked.value !in op.swept;
    }
  }

  /**
   The attempt counter is the number of leases granted less those given back,
   so the clamp at zero never acts, and it stays within the budget.
   */
  lemma {:induction false} AttemptsAreLeases(run: seq<Jobs>, ops: seq<Op>, i: nat, id: JobId)
    requires IsRun(run, ops) && i < |run|
    ensures id in run[i] ==> run[i][id].attempt == Charges(run, ops, i, id) <= run[i][id].maxAttempts
    ensures id !in run[i] ==> Charges(run, ops, i, id) == 0
  {
    RunKeepsJobsOk(run, ops, i);
    if i > 0 {
      AttemptsAreLeases(run, ops, i - 1, id);
      RunKeepsJobsOk(run, ops, i - 1);
      assert StepAt(run, ops, i - 1);
      StepCharges(run[i - 1], ops[i - 1], id);
    }
  }

  /** A recorded checkpoint is never changed or removed, and its job never forgotten. */
  lemma {:induction false} LogOnlyGrows(run: seq<Jobs>, ops: seq<Op>, i: nat, j: nat, id: JobId)
    requires IsRun(run, ops) && i <= j < |run| && id in run[i]
    ensures id in run[j] && run[i][id].log <= run[j][id].log
    decreases j
  {
    if i < j {
      LogOnlyGrows(run, ops, i, j - 1, id);
      assert StepAt(run, ops, j - 1);
      assert run[j - 1][id].log <= run[j][id].log;
    }
  }

  /** Lease tokens are drawn at random: no token is granted twice. */
  ghost predicate FreshTokens(ops: seq<Op>) {
    forall i, j :: 0 <= i < j < |ops| && ops[i].Acquire? && ops[j].Acquire? ==> ops[i].token != ops[j].token
  }

  /** A lease in the table was granted by some acquire that was let choose this job. */
  lemma {:induction false} LeaseHasOrigin(run: seq<Jobs>, ops: seq<Op>, i: nat, id: JobId) returns (g: nat)
    requires IsRun(run, ops) && i < |run| && id in run[i] && run[i][id].lease.Some?
    ensures g < i && ops[g].Acquire? && ops[g].picked == Some(id) && ops[g].token == run[i][id].lease.value.token
    ensures forall k :: g < k < i && ops[k].Acquire? ==> ops[k].picked != Some(id)
  {
    var p, op := run[i - 1], ops[i - 1];
    assert StepAt(run, ops, i - 1);
    if op.Acquire? && op.picked == Some(id) {
      g := i - 1;
    } else {
      assert id in p && p[id].lease.Some? && p[id].lease.value.token == run[i][id].lease.value.token;
      g := LeaseHasOrigin(run, ops, i - 1, id);
    }
  }

  /** Once a job has been leased again, every write under the earlier token fails for good. */
  lemma SupersededTokenRejected(run: seq<Jobs>, ops: seq<Op>, g: nat, h: nat, k: nat)
    requires IsRun(run, ops) && FreshTokens(ops) && g < h < k < |ops|
    requires ops[g].Acquire? && ops[h].Acquire? && ops[g].picked.Some? && ops[h].picked == ops[g].picked
    requires ops[k].Guarded() && ops[k].id == ops[g].picked.value && ops[k].token == ops[g].token
    ensures Apply(run[k], ops[k]).Failure? && run[k + 1] == run[k]
  {
    assert StepAt(run, ops, k);
    if Active(run[k], ops[k].id, ops[k].token, ops[k].now) {
      var o := LeaseHasOrigin(run, ops, k, ops[k].id);
      assert false;
    }
  }

  // ------------------------------------------------------- forced termination

  /** What is left to do; a renewal leaves it alone and everything else but giving back lowers it. */
  function Remaining(j: Job): int {
    match j.status
    case ManualReview => 0
    case Confirmed => 0
    case Submitted => 1
    case Leased => 2 * (j.maxAttempts - j.attempt) + 2 + (|ORDER| - |j.log|)
    case _ => 2 * (j.maxAttempts - j.attempt) + 1 + (|ORDER| - |j.log|)
  }

  /** The operation changed this job, other than by renewing or giving back its lease. */
  predicate Progresses(jobs: Jobs, op: Op, id: JobId) {
    && id in jobs && id in After(jobs, op) && After(jobs, op)[id] != jobs[id]
    && !op.Renew? && !op.DryRun? && !op.Defer?
  }

  lemma ProgressLowersRemaining(jobs: Jobs, op: Op, id: JobId)
    requires JobsOk(jobs) && Legal(jobs, op) && id in jobs
    ensures Remaining(jobs[id]) >= 0
    ensures Progresses(jobs, op, id) ==> Remaining(After(jobs, op)[id]) < Remaining(jobs[id])
    ensures !op.DryRun? && !op.Defer? ==>
              id in After(jobs, op) && Remaining(After(jobs, op)[id]) <= Remaining(jobs[id])
  {
    if op.Acquire? {
      if id in op.swept { assert id in Sweepables(jobs, op.locked, op.now); }
      if op.picked.Some? { assert op.picked.value in Candidates(jobs, op.locked, op.now); }
    }
  }

  lemma RunStepLowersRemaining(run: seq<Jobs>, ops: seq<Op>, k: nat, id: JobId)
    requires IsRun(run, ops) && k < |ops| && id in run[k] && !ops[k].DryRun? && !ops[k].Defer?
    ensures id in run[k + 1]
    ensures 0 <= Remaining(run[k + 1][id]) <= Remaining(run[k][id]) - (if Progresses(run[k], ops[k], id) then 1 else 0)
  {
    RunKeepsJobsOk(run, ops, k);
    RunKeepsJobsOk(run, ops, k + 1);
    assert StepAt(run, ops, k);
    ProgressLowersRemaining(run[k], ops[k], id);
    assert JobOk(run[k + 1][id]);
  }

  /** How many of the steps from i to j moved the job. */
  ghost function ProgressCount(run: seq<Jobs>, ops: seq<Op>, i: nat, j: nat, id: JobId): nat
    requires i <= j <= |ops| < |run|
    decreases j
  {
    if i == j then 0
    else ProgressCount(run, ops, i, j - 1, id) + (if Progresses(run[j - 1], ops[j - 1], id) then 1 else 0)
  }

  /**
   Without dry runs and deferrals a job takes at most as many further steps as
   `Remaining` says, whatever the workers do; for a new job that is
   2 * maxAttempts + 4.
   */
  lemma {:induction false} StepsAreBounded(run: seq<Jobs>, ops: seq<Op>, i: nat, j: nat, id: JobId)
    requires IsRun(run, ops) && i <= j < |run| && id in run[i]
    requires forall k :: i <= k < j ==> !ops[k].DryRun? && !ops[k].Defer?
    ensures id in run[j] && 0 <= Remaining(run[j][id])
    ensures ProgressCount(run, ops, i, j, id) + Remaining(run[j][id]) <= Remaining(run[i][id])
    decreases j
  {
    if i < j {
      StepsAreBounded(run, ops, i, j - 1, id);
      RunStepLowersRemaining(run, ops, j - 1, id);
    } else {
      RunKeepsJobsOk(run, ops, i);
      assert JobOk(run[i][id]);
    }
  }
}
