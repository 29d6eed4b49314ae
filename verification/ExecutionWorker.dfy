/**
 `runRelayerOwnedOneTimeExecutionOnce` over the shared queue.  Between any two
 calls other workers run any transactions of their own (`Others`), the clock
 moves, and each broadcast may throw, stay pending, revert or succeed.  In a calm
 period nobody else acts and the lease does not run out.
 */
module ExecutionWorker {
  import opened Wrappers
  import opened JobQueue
  import opened JobStore
  import opened QueueEffects

  datatype Receipt = Threw | StillPending | Reverted | Mined(hash: Hex32)

  /** A broadcast: the step, how many steps the store then had, whether the lease was still ours, and whether its terms had been refreshed. */
  datatype Sent = Sent(name: Function, logged: nat, held: bool, refreshed: bool)

  datatype Ended =
    | Idle | Prepared | Deferred | Completed
    | PayloadInvalid | BroadcastDisabled | StepDone | StepFailed(failed: Function)
    | Rejected(why: Error)     // a store transaction refused the worker

  /** How the worker is configured for the job it got. */
  datatype Config = Config(broadcast: bool, enabled: bool, planValid: bool, native: bool, refreshes: bool, calm: bool)

  ghost predicate Ours(jobs: Jobs, id: JobId, token: Token) {
    id in jobs && jobs[id].lease.Some? && jobs[id].lease.value.token == token
  }

  /** Others may take the lease away; they cannot touch the job while it is held, nor hand it back. */
  ghost predicate Interfered(before: Jobs, after: Jobs, token: Token) {
    forall id :: id in before ==>
      && id in after && before[id].log <= after[id].log
      && (Ours(after, id, token) ==> after[id] == before[id])
  }

  /** The transactions of somebody who does not know our token. */
  predicate Foreign(op: Op, token: Token) {
    (op.Guarded() || op.Acquire?) ==> op.token != token
  }

  lemma ForeignStepInterferes(jobs: Jobs, op: Op, token: Token)
    requires JobsOk(jobs) && Legal(jobs, op) && Foreign(op, token)
    ensures Interfered(jobs, After(jobs, op), token)
  {
    if op.Acquire? {
      ForeignAcquireInterferes(jobs, op, token);
    }
  }

  lemma ForeignAcquireInterferes(jobs: Jobs, op: Op, token: Token)
    requires JobsOk(jobs) && Legal(jobs, op) && op.Acquire? && op.token != token
    ensures Interfered(jobs, After(jobs, op), token)
  {
    AcquireTouches(jobs, op);
    forall id | id in jobs
      ensures jobs[id].log <= After(jobs, op)[id].log
      ensures Ours(After(jobs, op), id, token) ==> After(jobs, op)[id] == jobs[id]
    {
    }
  }

  /** Any number of transactions of other workers. */
  method Others(store: Store, token: Token, calm: bool)
    requires JobsOk(store.jobs)
    modifies store
    ensures JobsOk(store.jobs) && Interfered(old(store.jobs), store.jobs, token)
    ensures calm ==> store.jobs == old(store.jobs)
  {
    if calm { return; }
    var n: nat := *;
    while n > 0
      invariant JobsOk(store.jobs) && Interfered(old(store.jobs), store.jobs, token)
    {
      var op: Op := *;
      if Legal(store.jobs, op) && Foreign(op, token) {
        ForeignStepInterferes(store.jobs, op, token);
        ApplyKeepsJobsOk(store.jobs, op);
        store.jobs := After(store.jobs, op);
      }
      n := n - 1;
    }
  }

  /** The next call to the store: others have acted, and the clock shows `now`. */
  method Turn(store: Store, job: Grant, calm: bool) returns (now: int)
    requires JobsOk(store.jobs)
    modifies store
    ensures JobsOk(store.jobs) && Interfered(old(store.jobs), store.jobs, job.token)
    ensures calm ==> store.jobs == old(store.jobs)
    ensures calm && Ours(store.jobs, job.id, job.token) ==> HoldsLease(store.jobs, job.id, job.token, now)
  {
    Others(store, job.token, calm);
    now := *;
    if calm && job.id in store.jobs && store.jobs[job.id].lease.Some? && now > store.jobs[job.id].lease.value.until {
      now := store.jobs[job.id].lease.value.until;
    }
    assert job.id in store.jobs ==> JobOk(store.jobs[job.id]);
  }

  function Hashes(log: seq<Entry>): seq<Hex32> {
    seq(|log|, i requires 0 <= i < |log| => log[i].hash)
  }

  /** The hashes go on from the prefix with those of the mined receipts; only the last receipt may be of another kind. */
  ghost predicate Mines(prefix: seq<Hex32>, receipts: seq<Receipt>, hashes: seq<Hex32>) {
    && prefix <= hashes && |hashes| <= |prefix| + |receipts| <= |hashes| + 1
    && (forall i :: |prefix| <= i < |hashes| ==> receipts[i - |prefix|] == Mined(hashes[i]))
    && (|prefix| + |receipts| > |hashes| ==> !receipts[|receipts| - 1].Mined?)
  }

  predicate AllMined(receipts: seq<Receipt>) {
    receipts == [] || receipts[|receipts| - 1].Mined?
  }

  /** The broadcasts of one run from a stored prefix: the remaining plan, in order, none of it already logged. */
  ghost predicate InOrder(start: nat, sent: seq<Sent>) {
    && start + |sent| <= |ORDER|
    && forall i :: 0 <= i < |sent| ==>
         sent[i].name == ORDER[start + i] && (sent[i].held ==> sent[i].logged == start + i)
  }

  /** Where the worker refreshes, the finalization goes out on refreshed terms, and nothing else is refreshed. */
  ghost predicate RefreshedAsNeeded(config: Config, sent: seq<Sent>) {
    forall i :: 0 <= i < |sent| ==> (sent[i].refreshed <==> config.refreshes && sent[i].name == Finalize)
  }

  /** While the lease is ours the store's log is exactly what this run knows of. */
  ghost predicate InStep(jobs: Jobs, grant: Grant, hashes: seq<Hex32>) {
    && JobsOk(jobs) && grant.id in jobs
    && (Ours(jobs, grant.id, grant.token) ==> Hashes(jobs[grant.id].log) == hashes)
  }

  /** In a calm period the lease is ours throughout. */
  ghost predicate Kept(jobs: Jobs, grant: Grant, calm: bool) {
    calm ==> Ours(jobs, grant.id, grant.token)
  }

  /** The lease has been given up with the job in this status and its log as it was. */
  ghost predicate Left(jobs: Jobs, grant: Grant, hashes: seq<Hex32>, status: Status) {
    && grant.id in jobs && jobs[grant.id].status == status && jobs[grant.id].lease == None
    && Hashes(jobs[grant.id].log) == hashes
  }

  /** The failure has been recorded: the job is retried if it may be and attempts are left, and reviewed otherwise. */
  ghost predicate GivenUp(jobs: Jobs, grant: Grant, hashes: seq<Hex32>, retryable: bool) {
    && grant.id in jobs
    && Left(jobs, grant, hashes, if retryable && jobs[grant.id].attempt < jobs[grant.id].maxAttempts then FailedRetryable else ManualReview)
  }

  lemma HashesAppend(log: seq<Entry>, e: Entry)
    ensures Hashes(log + [e]) == Hashes(log) + [e.hash]
  {
  }

  /** How a run of the plan ends, by its receipts: a step that threw is retried, one that reverted is reviewed. */
  ghost predicate EndedBy(config: Config, jobs: Jobs, grant: Grant, receipts: seq<Receipt>, hashes: seq<Hex32>, ended: Ended) {
    if AllMined(receipts) then
      // complete, or stopped by a refresh before the last broadcast
      if |hashes| == |ORDER| then ended == Completed && Left(jobs, grant, hashes, Submitted)
      else
        && |hashes| < |ORDER| && config.refreshes && ORDER[|hashes|] == Finalize
        && ended == StepFailed(Finalize) && GivenUp(jobs, grant, hashes, true)
    else
      && |hashes| < |ORDER|
      && match receipts[|receipts| - 1]
         case Threw => ended == StepFailed(ORDER[|hashes|]) && GivenUp(jobs, grant, hashes, true)
         case Reverted => ended == StepFailed(ORDER[|hashes|]) && GivenUp(jobs, grant, hashes, false)
         case StillPending =>
           if config.native then ended == Deferred && Left(jobs, grant, hashes, Queued) else ended == StepFailed(ORDER[|hashes|])
         case Mined(_) => false
  }

  /**
   One call of the worker.  `hashes` is the stored prefix followed by what this
   run mined; `sent` is what it broadcast, `receipts` what came of it.  Unless the
   lease was lost, which a calm period excludes, the receipts decide how it ends.
   */
  method RunOnce(store: Store, config: Config, token: Token)
    returns (ended: Ended, grant: Option<Grant>, sent: seq<Sent>, receipts: seq<Receipt>, hashes: seq<Hex32>)
    requires JobsOk(store.jobs)
    modifies store
    ensures JobsOk(store.jobs)
    ensures grant.None? ==> sent == [] && (ended == Idle || ended == PayloadInvalid)
    ensures !config.broadcast || !config.enabled || !config.planValid ==> sent == []
    ensures |receipts| == |sent| && RefreshedAsNeeded(config, sent)
    ensures grant.Some? ==> InOrder(|grant.value.log|, sent) && Mines(Hashes(grant.value.log), receipts, hashes)
    ensures ended.StepFailed? ==> |hashes| < |ORDER| && ended.failed == ORDER[|hashes|]
    // the store never finds this run's steps or hashes out of place
    ensures ended.Rejected? ==> ended.why == LeaseLost && !config.calm
    ensures grant.Some? && !ended.Rejected? ==>
              if !config.planValid then ended == PayloadInvalid && Left(store.jobs, grant.value, hashes, ManualReview)
              else if !config.broadcast then ended == Prepared && Left(store.jobs, grant.value, hashes, Queued)
              else if !config.enabled then ended == BroadcastDisabled
              else EndedBy(config, store.jobs, grant.value, receipts, hashes, ended)
  {
    sent, receipts, hashes, grant := [], [], [], None;
    var now: int, until: int, duration: int, locked: set<JobId>, readable: bool := *, *, *, *, *;
    var acquired, _ := store.AcquireJob(now, token, until, duration, locked, readable);
    if acquired.Failure? { ended := PayloadInvalid; return; }
    if acquired.value.None? { ended := Idle; return; }
    var job := acquired.value.value;
    grant, hashes := Some(job), Hashes(job.log);
    assert OrderedPrefix(job.log) by { assert JobOk(store.jobs[job.id]); }

    if !config.planValid {
      ended := InvalidPlan(store, job, hashes, config.calm);
      return;
    }
    if !config.broadcast {
      ended := DryRunOnly(store, job, hashes, config.calm);
      return;
    }
    if !config.enabled { ended := BroadcastDisabled; return; }

    ended, sent, receipts, hashes := RunPlan(store, config, job);
  }

  /** The rest of the plan, step by step. */
  method RunPlan(store: Store, config: Config, job: Grant)
    returns (ended: Ended, sent: seq<Sent>, receipts: seq<Receipt>, hashes: seq<Hex32>)
    requires InStep(store.jobs, job, Hashes(job.log)) && |job.log| <= |ORDER| && Kept(store.jobs, job, config.calm)
    modifies store
    ensures JobsOk(store.jobs)
    ensures RefreshedAsNeeded(config, sent)
    ensures InOrder(|job.log|, sent) && |receipts| == |sent| && Mines(Hashes(job.log), receipts, hashes)
    ensures ended.StepFailed? ==> |hashes| < |ORDER| && ended.failed == ORDER[|hashes|]
    // the store never finds this run's steps or hashes out of place
    ensures ended.Rejected? ==> ended.why == LeaseLost && !config.calm
    ensures !ended.Rejected? ==> EndedBy(config, store.jobs, job, receipts, hashes, ended)
  {
    sent, receipts, hashes := [], [], Hashes(job.log);
    while |hashes| < |ORDER|
      invariant SoFar(job, sent, receipts, hashes) && RefreshedAsNeeded(config, sent)
      invariant InStep(store.jobs, job, hashes) && Kept(store.jobs, job, config.calm)
    {
      var event: Option<Sent>, receipt: Option<Receipt>;
      ended, event, receipt := RunStep(store, config, job, hashes);
      if event.None? { return; }
      OneMoreReceipt(Hashes(job.log), receipts, hashes, receipt.value);
      InOrderSnoc(|job.log|, sent, event.value);
      sent, receipts := sent + [event.value], receipts + [receipt.value];
      if !receipt.value.Mined? { return; }
      hashes := hashes + [receipt.value.hash];
      if ended != StepDone { return; }
    }
    ended := Finish(store, job, hashes, config.calm);
  }

  /** Everything broadcast so far was mined. */
  ghost predicate SoFar(job: Grant, sent: seq<Sent>, receipts: seq<Receipt>, hashes: seq<Hex32>) {
    && |job.log| + |sent| == |hashes| <= |ORDER| && |receipts| == |sent|
    && Mines(Hashes(job.log), receipts, hashes) && AllMined(receipts) && InOrder(|job.log|, sent)
  }

  lemma OneMoreReceipt(prefix: seq<Hex32>, receipts: seq<Receipt>, hashes: seq<Hex32>, receipt: Receipt)
    requires Mines(prefix, receipts, hashes) && |prefix| + |receipts| == |hashes|
    ensures receipt.Mined? ==> Mines(prefix, receipts + [receipt], hashes + [receipt.hash])
    ensures !receipt.Mined? ==> Mines(prefix, receipts + [receipt], hashes)
    ensures AllMined(receipts + [receipt]) <==> receipt.Mined?
    ensures (receipts + [receipt])[|receipts + [receipt]| - 1] == receipt
  {
  }

  lemma InOrderSnoc(start: nat, sent: seq<Sent>, event: Sent)
    requires InOrder(start, sent) && start + |sent| < |ORDER|
    requires event.name == ORDER[start + |sent|] && (event.held ==> event.logged == start + |sent|)
    ensures InOrder(start, sent + [event])
  {
  }

  method InvalidPlan(store: Store, job: Grant, hashes: seq<Hex32>, calm: bool) returns (ended: Ended)
    requires InStep(store.jobs, job, hashes) && Kept(store.jobs, job, calm)
    modifies store
    ensures JobsOk(store.jobs) && (ended == PayloadInvalid || (ended == Rejected(LeaseLost) && !calm))
    ensures ended == PayloadInvalid ==> Left(store.jobs, job, hashes, ManualReview)
  {
    var now := Turn(store, job, calm);
    ApplyKeepsJobsOk(store.jobs, Invalid(job.id, job.token, now));
    InvalidEndsInReview(store.jobs, job.id, job.token, now);
    var r := store.RecordPayloadInvalid(job.id, job.token, now);
    ended := if r.Success? then PayloadInvalid else Rejected(r.error);
  }

  method DryRunOnly(store: Store, job: Grant, hashes: seq<Hex32>, calm: bool) returns (ended: Ended)
    requires InStep(store.jobs, job, hashes) && Kept(store.jobs, job, calm)
    modifies store
    ensures JobsOk(store.jobs) && (ended == Prepared || (ended == Rejected(LeaseLost) && !calm))
    ensures ended == Prepared ==> Left(store.jobs, job, hashes, Queued)
  {
    var now := Turn(store, job, calm);
    ApplyKeepsJobsOk(store.jobs, DryRun(job.id, job.token, now));
    GivingBackTakesOneOff(store.jobs, job.id, job.token, now);
    var r := store.RecordDryRun(job.id, job.token, now);
    ended := if r.Success? then Prepared else Rejected(r.error);
  }

  /** Gives up on a step: the failure is recorded unless the lease is gone. */
  method GiveUp(store: Store, job: Grant, name: Function, retryable: bool, hashes: seq<Hex32>, calm: bool) returns (ended: Ended)
    requires InStep(store.jobs, job, hashes) && Kept(store.jobs, job, calm)
    modifies store
    ensures JobsOk(store.jobs) && (ended == StepFailed(name) || (ended == Rejected(LeaseLost) && !calm))
    ensures ended == StepFailed(name) ==> GivenUp(store.jobs, job, hashes, retryable)
  {
    var now := Turn(store, job, calm);
    ApplyKeepsJobsOk(store.jobs, Fail(job.id, job.token, now, retryable));
    var r := store.RecordFailed(job.id, job.token, now, retryable);
    ended := if r.Success? then StepFailed(name) else Rejected(r.error);
  }

  method Renewed(store: Store, job: Grant, hashes: seq<Hex32>, calm: bool) returns (r: Result<(), Error>)
    requires InStep(store.jobs, job, hashes) && Kept(store.jobs, job, calm)
    modifies store
    ensures InStep(store.jobs, job, hashes) && Kept(store.jobs, job, calm)
    ensures r.Failure? ==> r.error == LeaseLost && !calm
  {
    var now := Turn(store, job, calm);
    ApplyKeepsJobsOk(store.jobs, Renew(job.id, job.token, now));
    RenewalExtendsTheLease(store.jobs, job.id, job.token, now);
    r := store.RenewLease(job.id, job.token, now);
  }

  /** Before a broadcast: renew, and for the finalization refresh its terms and renew again. */
  method Prepare(store: Store, config: Config, job: Grant, hashes: seq<Hex32>) returns (ended: Ended, refreshed: bool)
    requires InStep(store.jobs, job, hashes) && |hashes| < |ORDER| && Kept(store.jobs, job, config.calm)
    modifies store
    ensures JobsOk(store.jobs)
    ensures ended == StepDone ==> InStep(store.jobs, job, hashes) && Kept(store.jobs, job, config.calm)
    ensures ended == StepDone ==> (refreshed <==> config.refreshes && ORDER[|hashes|] == Finalize)
    ensures ended == StepDone || (ended == Rejected(LeaseLost) && !config.calm)
            || (ended == StepFailed(Finalize) && config.refreshes && ORDER[|hashes|] == Finalize && GivenUp(store.jobs, job, hashes, true))
  {
    var name := ORDER[|hashes|];
    var renewed := Renewed(store, job, hashes, config.calm);
    refreshed := false;
    if renewed.Failure? { ended := Rejected(renewed.error); return; }
    if name == Finalize && config.refreshes {
      refreshed := *;
      if refreshed {
        renewed := Renewed(store, job, hashes, config.calm);
        refreshed := renewed.Success?;
      }
      if !refreshed {
        ended := GiveUp(store, job, name, true, hashes, config.calm);
        return;
      }
    }
    Others(store, job.token, config.calm);
    ended := StepDone;
  }

  method Postpone(store: Store, job: Grant, hashes: seq<Hex32>, calm: bool) returns (ended: Ended)
    requires InStep(store.jobs, job, hashes) && Kept(store.jobs, job, calm)
    modifies store
    ensures JobsOk(store.jobs) && (ended == Deferred || (ended == Rejected(LeaseLost) && !calm))
    ensures ended == Deferred ==> Left(store.jobs, job, hashes, Queued)
  {
    var now := Turn(store, job, calm);
    ApplyKeepsJobsOk(store.jobs, Defer(job.id, job.token, now));
    GivingBackTakesOneOff(store.jobs, job.id, job.token, now);
    var r := store.DeferJob(job.id, job.token, now);
    ended := if r.Success? then Deferred else Rejected(r.error);
  }

  /** Recording a mined step can fail only because the lease is gone. */
  method RecordMined(store: Store, job: Grant, hashes: seq<Hex32>, hash: Hex32, calm: bool) returns (ended: Ended)
    requires InStep(store.jobs, job, hashes) && |hashes| < |ORDER| && Kept(store.jobs, job, calm)
    modifies store
    ensures JobsOk(store.jobs) && (ended == StepDone || (ended == Rejected(LeaseLost) && !calm))
    ensures ended == StepDone ==> InStep(store.jobs, job, hashes + [hash]) && Kept(store.jobs, job, calm)
  {
    var now := Turn(store, job, calm);
    var name := ORDER[|hashes|];
    ApplyKeepsJobsOk(store.jobs, RecordStep(job.id, job.token, now, name, hash));
    assert Active(store.jobs, job.id, job.token, now) ==> |Hashes(store.jobs[job.id].log)| == |hashes|;
    ghost var log := store.jobs[job.id].log;
    HashesAppend(log, Entry(|log|, name, hash));
    var r := store.RecordConfirmed(job.id, job.token, now, name, hash);
    ended := if r.Success? then StepDone else Rejected(r.error);
  }

  /** The next step of the plan: prepare, broadcast, and what its receipt calls for. */
  method RunStep(store: Store, config: Config, job: Grant, hashes: seq<Hex32>)
    returns (ended: Ended, event: Option<Sent>, receipt: Option<Receipt>)
    requires InStep(store.jobs, job, hashes) && |hashes| < |ORDER| && Kept(store.jobs, job, config.calm)
    modifies store
    ensures JobsOk(store.jobs) && (receipt.Some? <==> event.Some?)
    ensures event.Some? ==> event.value.name == ORDER[|hashes|] && (event.value.held ==> event.value.logged == |hashes|)
    ensures event.Some? ==> (event.value.refreshed <==> config.refreshes && event.value.name == Finalize)
    ensures ended.Rejected? ==> ended == Rejected(LeaseLost) && !config.calm
    ensures !ended.Rejected? ==>
              match receipt
              case None => ended == StepFailed(Finalize) && config.refreshes && ORDER[|hashes|] == Finalize && GivenUp(store.jobs, job, hashes, true)
              case Some(Threw) => ended == StepFailed(ORDER[|hashes|]) && GivenUp(store.jobs, job, hashes, true)
              case Some(Reverted) => ended == StepFailed(ORDER[|hashes|]) && GivenUp(store.jobs, job, hashes, false)
              case Some(StillPending) =>
                if config.native then ended == Deferred && Left(store.jobs, job, hashes, Queued) else ended == StepFailed(ORDER[|hashes|])
              case Some(Mined(hash)) => ended == StepDone && InStep(store.jobs, job, hashes + [hash]) && Kept(store.jobs, job, config.calm)
  {
    event, receipt := None, None;
    var refreshed;
    ended, refreshed := Prepare(store, config, job, hashes);
    if ended != StepDone { return; }
    var held := store.jobs[job.id].lease.Some? && store.jobs[job.id].lease.value.token == job.token;
    var logged := |store.jobs[job.id].log|;
    assert held ==> |Hashes(store.jobs[job.id].log)| == |hashes|;
    var came: Receipt := *;
    event, receipt := Some(Sent(ORDER[|hashes|], logged, held, refreshed)), Some(came);
    match came
    case Threw =>
      ended := GiveUp(store, job, ORDER[|hashes|], true, hashes, config.calm);
    case StillPending =>
      if config.native {
        ended := Postpone(store, job, hashes, config.calm);
      } else {
        ended := StepFailed(ORDER[|hashes|]);
      }
    case Reverted =>
      ended := GiveUp(store, job, ORDER[|hashes|], false, hashes, config.calm);
    case Mined(hash) =>
      ended := RecordMined(store, job, hashes, hash, config.calm);
  }

  /** The whole plan is behind it: the final comparison can fail only for want of the lease. */
  method Finish(store: Store, job: Grant, hashes: seq<Hex32>, calm: bool) returns (ended: Ended)
    requires InStep(store.jobs, job, hashes) && |hashes| == |ORDER| && Kept(store.jobs, job, calm)
    modifies store
    ensures JobsOk(store.jobs) && (ended == Completed || (ended == Rejected(LeaseLost) && !calm))
    ensures ended == Completed ==> Left(store.jobs, job, hashes, Submitted)
  {
    var now := Turn(store, job, calm);
    ApplyKeepsJobsOk(store.jobs, Submit(job.id, job.token, now, hashes));
    SubmissionNeedsTheLog(store.jobs, job.id, job.token, now, hashes);
    if Active(store.jobs, job.id, job.token, now) {
      var log := store.jobs[job.id].log;
      assert Hashes(log) == hashes;
      assert forall i :: 0 <= i < |log| ==> log[i].hash == Hashes(log)[i];
      assert Matches(log, hashes);
    }
    var r := store.RecordSubmitted(job.id, job.token, now, hashes);
    ended := if r.Success? then Completed else Rejected(r.error);
  }
}
