/**
 `recoverPayoutV7RelayDeposit`: a failed deposit is asked back from the relay
 service.  Any number of calls run for any intents over one table of checkpoints,
 each may be cut off at any `await`, and the service answers what it likes.  A
 checkpoint names a prepared withdrawal and then the service's job for it.
 */
module RelayRecovery {
  import opened Wrappers

  type Id = nat        // adapter and intent
  type JobId = nat

  /** The fields the service chooses; the others are fixed by the intent. */
  datatype Prepared = Prepared(amount: nat, nonce: nat)

  datatype Checkpoint = Checkpoint(prepared: Prepared, preparedAt: int, job: Option<JobId>)
  type Table = map<Id, Checkpoint>

  /** The amount deposited for each intent. */
  type Limits = Id -> nat

  /** A prepared withdrawal without a job is asked for anew after this many seconds. */
  const RENEWAL := 45

  predicate ValidPrepared(limits: Limits, id: Id, p: Prepared) {
    1 <= p.amount <= limits(id) && p.nonce > 0
  }

  /** A checkpoint is replaced only while it names no job. */
  function Upsert(t: Table, id: Id, c: Checkpoint): (u: Table)
    ensures u.Keys == t.Keys + {id} && forall o :: o in t && o != id ==> u[o] == t[o]
    ensures c.job.Some? ==> u[id].job.Some?
    ensures u[id] == c <==> !(id in t && t[id].job.Some? && t[id] != c)
    ensures id in t && t[id].job.Some? ==> u == t
  {
    if id in t && t[id].job.Some? then t else t[id := c]
  }

  /** The table of the worker store. */
  class RecoveryStore {
    var rows: Table

    constructor ()
      ensures rows == map[]
    {
      rows := map[];
    }

    method SaveRecovery(id: Id, c: Checkpoint)
      modifies this
      ensures rows == Upsert(old(rows), id, c)
    {
      if id !in rows {
        rows := rows[id := c];
      } else if rows[id].job.None? {
        rows := rows[id := c];
      }
    }

    method RemoveRecovery(id: Id)
      modifies this
      ensures rows == old(rows) - {id}
    {
      rows := rows - {id};
    }
  }

  // ----------------------------------------------------------------- machine

  datatype Worker =
    | Reading(id: Id, now: int)
    | Found(id: Id, now: int, row: Option<Checkpoint>)   // the deposit is to be verified
    | Asking(id: Id, state: Checkpoint)                    // the job's status is to be asked
    | Removing(id: Id, state: Checkpoint)                  // the job was reported expired or failed
    | Sending(id: Id, state: Checkpoint, amount: nat)      // the job's transaction is ready
    | Preparing(id: Id, now: int)                          // a withdrawal is to be prepared
    | Saving(id: Id, state: Checkpoint)
    | Signing(id: Id, state: Checkpoint)                   // the signature is to be handed in

  /** The service answered a handed-in signature with a job. */
  datatype Request = Request(id: Id, prepared: Prepared, job: JobId)

  datatype Transfer = Transfer(id: Id, job: JobId, amount: nat)

  datatype State = State(table: Table, workers: map<nat, Worker>,
                         asked: seq<Request>, ended: set<JobId>, sent: seq<Transfer>)

  const INITIAL := State(map[], map[], [], {}, [])

  datatype Status = Ended | Ready(amount: nat)

  datatype Action =
    | Start(p: nat, id: Id, now: int)
    | Read(p: nat)
    | Verify(p: nat)
    | Hear(p: nat, status: Status)
    | Remove(p: nat)
    | Send(p: nat)
    | Prepare(p: nat, prepared: Prepared)
    | Save(p: nat)
    | Ask(p: nat, job: JobId)
    | Stop(p: nat)                      // a crash, a thrown error or nothing to do

  /** What to do with what was found, the deposit being verified; None when it does not check. */
  function Next(limits: Limits, id: Id, now: int, found: Option<Checkpoint>): Option<Worker> {
    match found
    case None => Some(Preparing(id, now))
    case Some(c) =>
      if !ValidPrepared(limits, id, c.prepared) || c.preparedAt > now then None
      else if c.job.Some? then Some(Asking(id, c))
      else if c.preparedAt + RENEWAL <= now then Some(Preparing(id, now))
      else Some(Signing(id, c))
  }

  predicate Step(limits: Limits, s: State, u: State, a: Action) {
    if a.Start? then a.p !in s.workers && u == s.(workers := s.workers[a.p := Reading(a.id, a.now)])
    else a.p in s.workers && StepOf(limits, s, u, a, s.workers[a.p])
  }

  predicate StepOf(limits: Limits, s: State, u: State, a: Action, w: Worker)
    requires !a.Start?
  {
    match a
    case Read(p) =>
      w.Reading? && u == s.(workers := s.workers[p := Found(w.id, w.now, if w.id in s.table then Some(s.table[w.id]) else None)])
    case Verify(p) =>
      w.Found? && var next := Next(limits, w.id, w.now, w.row);
      next.Some? && u == s.(workers := s.workers[p := next.value])
    case Hear(p, Ended) =>
      w.Asking? && w.state.job.Some?
      && u == s.(workers := s.workers[p := Removing(w.id, w.state)], ended := s.ended + {w.state.job.value})
    case Hear(p, Ready(amount)) =>
      w.Asking? && 1 <= amount <= w.state.prepared.amount
      && u == s.(workers := s.workers[p := Sending(w.id, w.state, amount)])
    case Remove(p) =>
      w.Removing? && u == s.(table := s.table - {w.id}, workers := s.workers - {p})
    case Send(p) =>
      w.Sending? && w.state.job.Some?
      && u == s.(workers := s.workers - {p}, sent := s.sent + [Transfer(w.id, w.state.job.value, w.amount)])
    case Prepare(p, prepared) =>
      w.Preparing? && ValidPrepared(limits, w.id, prepared)
      && u == s.(workers := s.workers[p := Saving(w.id, Checkpoint(prepared, w.now, None))])
    case Save(p) =>
      w.Saving?
      && u == s.(table := Upsert(s.table, w.id, w.state),
                 workers := if w.state.job.None? then s.workers[p := Signing(w.id, w.state)] else s.workers - {p})
    case Ask(p, job) =>
      w.Signing?
      && u == s.(workers := s.workers[p := Saving(w.id, w.state.(job := Some(job)))],
                 asked := s.asked + [Request(w.id, w.state.prepared, job)])
    case Stop(p) => u == s.(workers := s.workers - {p})
    case Start(_, _, _) => false
  }

  lemma StepLeavesWorker(limits: Limits, s: State, u: State, a: Action, p: nat)
    requires Step(limits, s, u, a) && a.p != p && p in s.workers
    ensures p in u.workers && u.workers[p] == s.workers[p]
  {
  }

  // --------------------------------------------------------------- invariant

  /** A named job was the service's answer for this very preparation. */
  predicate CheckpointOk(limits: Limits, asked: seq<Request>, id: Id, c: Checkpoint) {
    ValidPrepared(limits, id, c.prepared) && (c.job.Some? ==> Request(id, c.prepared, c.job.value) in asked)
  }

  predicate WorkerOk(limits: Limits, s: State, w: Worker) {
    match w
    case Found(id, _, row) => row.Some? ==> CheckpointOk(limits, s.asked, id, row.value)
    case Asking(id, c) => CheckpointOk(limits, s.asked, id, c) && c.job.Some?
    case Removing(id, c) => c.job.Some? && c.job.value in s.ended
    case Sending(id, c, amount) => CheckpointOk(limits, s.asked, id, c) && c.job.Some? && 1 <= amount <= c.prepared.amount
    case Saving(id, c) => CheckpointOk(limits, s.asked, id, c)
    case Signing(id, c) => CheckpointOk(limits, s.asked, id, c) && c.job.None?
    case _ => true
  }

  /** The transfer is at most what was prepared when its job was asked for. */
  ghost predicate Backed(limits: Limits, asked: seq<Request>, t: Transfer) {
    exists i :: 0 <= i < |asked| && asked[i].id == t.id && asked[i].job == t.job
                && t.amount <= asked[i].prepared.amount <= limits(t.id)
  }

  ghost predicate Inv(limits: Limits, s: State) {
    && (forall id :: id in s.table ==> CheckpointOk(limits, s.asked, id, s.table[id]))
    && (forall p :: p in s.workers ==> WorkerOk(limits, s, s.workers[p]))
    && (forall i :: 0 <= i < |s.sent| ==> Backed(limits, s.asked, s.sent[i]))
  }

  lemma MoreAsked(limits: Limits, s: State, u: State)
    requires Inv(limits, s) && s.asked <= u.asked && s.ended <= u.ended
    ensures forall id :: id in s.table ==> CheckpointOk(limits, u.asked, id, s.table[id])
    ensures forall p :: p in s.workers ==> WorkerOk(limits, u, s.workers[p])
    ensures forall i :: 0 <= i < |s.sent| ==> Backed(limits, u.asked, s.sent[i])
  {
    forall i | 0 <= i < |s.sent|
      ensures Backed(limits, u.asked, s.sent[i])
    {
      var k :| 0 <= k < |s.asked| && s.asked[k].id == s.sent[i].id && s.asked[k].job == s.sent[i].job
               && s.sent[i].amount <= s.asked[k].prepared.amount <= limits(s.sent[i].id);
      assert u.asked[k] == s.asked[k];
    }
  }

  lemma StepKeepsInv(limits: Limits, s: State, u: State, a: Action)
    requires Inv(limits, s) && Step(limits, s, u, a)
    ensures Inv(limits, u)
  {
    MoreAsked(limits, s, u);
    if a.Send? {
      var w := s.workers[a.p];
      var k :| 0 <= k < |s.asked| && s.asked[k] == Request(w.id, w.state.prepared, w.state.job.value);
      assert Backed(limits, u.asked, Transfer(w.id, w.state.job.value, w.amount));
    } else if a.Ask? {
      var w := s.workers[a.p];
      assert u.asked[|s.asked|] == Request(w.id, w.state.prepared, a.job);
    }
  }

  // -------------------------------------------------------------- whole runs

  ghost predicate IsRun(limits: Limits, run: seq<State>, acts: seq<Action>) {
    && |run| == |acts| + 1 && run[0] == INITIAL
    && forall i :: 0 <= i < |acts| ==> Step(limits, run[i], run[i + 1], acts[i])
  }

  lemma {:induction false} RunKeepsInv(limits: Limits, run: seq<State>, acts: seq<Action>, i: nat)
    requires IsRun(limits, run, acts) && i < |run|
    ensures Inv(limits, run[i])
  {
    if i > 0 {
      RunKeepsInv(limits, run, acts, i - 1);
      assert Step(limits, run[i - 1], run[i], acts[i - 1]);
      StepKeepsInv(limits, run[i - 1], run[i], acts[i - 1]);
    }
  }

  /** Nothing is ever transferred beyond what was prepared for that job, hence beyond the deposit. */
  lemma TransfersAreBacked(limits: Limits, run: seq<State>, acts: seq<Action>, i: nat, x: nat)
    requires IsRun(limits, run, acts) && i < |run| && x < |run[i].sent|
    ensures Backed(limits, run[i].asked, run[i].sent[x]) && run[i].sent[x].amount <= limits(run[i].sent[x].id)
  {
    RunKeepsInv(limits, run, acts, i);
  }

  /** The k-th action deletes the checkpoint of the intent. */
  ghost predicate Removes(run: seq<State>, acts: seq<Action>, k: nat, id: Id)
    requires k < |acts| < |run|
  {
    acts[k].Remove? && acts[k].p in run[k].workers && run[k].workers[acts[k].p].id == id
  }

  /** A checkpoint that names a job stays as it is, over any saves of anybody, until it is removed. */
  lemma {:induction false} NamedStaysUntilRemoved(limits: Limits, run: seq<State>, acts: seq<Action>, i: nat, j: nat, id: Id)
    requires IsRun(limits, run, acts) && i <= j < |run| && id in run[i].table && run[i].table[id].job.Some?
    requires forall k :: i <= k < j ==> !Removes(run, acts, k, id)
    ensures id in run[j].table && run[j].table[id] == run[i].table[id]
    decreases j
  {
    if i < j {
      NamedStaysUntilRemoved(limits, run, acts, i, j - 1, id);
      assert Step(limits, run[j - 1], run[j], acts[j - 1]);
      assert !Removes(run, acts, j - 1, id);
    }
  }

  /** The checkpoint a worker acts on. */
  predicate Carries(w: Worker, c: Checkpoint) {
    (w.Found? && w.row == Some(c)) || ((w.Asking? || w.Removing? || w.Sending?) && w.state == c)
  }

  lemma {:induction false} ReadSince(limits: Limits, run: seq<State>, acts: seq<Action>, j: nat, p: nat, c: Checkpoint) returns (r: nat)
    requires IsRun(limits, run, acts) && j < |run| && p in run[j].workers && Carries(run[j].workers[p], c)
    ensures r < j && acts[r] == Read(p)
    ensures run[j].workers[p].id in run[r].table && run[r].table[run[j].workers[p].id] == c
  {
    assert Step(limits, run[j - 1], run[j - 1 + 1], acts[j - 1]);
    if acts[j - 1] == Read(p) {
      r := j - 1;
    } else {
      r := ReadSince(limits, run, acts, j - 1, p, c);
    }
  }

  /**
   A removal deletes the checkpoint of the job that was reported ended, unless
   the intent's checkpoint was removed by somebody else since the worker read it.
   */
  lemma RemovesTheEndedJob(limits: Limits, run: seq<State>, acts: seq<Action>, j: nat, id: Id) returns (r: nat)
    requires IsRun(limits, run, acts) && j < |acts| && Removes(run, acts, j, id)
    ensures r < j && acts[r] == Read(acts[j].p) && id in run[r].table
    ensures run[r].table[id].job.Some? && run[r].table[id].job.value in run[j].ended
    ensures (forall k :: r <= k < j ==> !Removes(run, acts, k, id)) ==> id in run[j].table && run[j].table[id] == run[r].table[id]
  {
    assert Step(limits, run[j], run[j + 1], acts[j]);
    RunKeepsInv(limits, run, acts, j);
    r := ReadSince(limits, run, acts, j, acts[j].p, run[j].workers[acts[j].p].state);
    if forall k :: r <= k < j ==> !Removes(run, acts, k, id) {
      NamedStaysUntilRemoved(limits, run, acts, r, j, id);
    }
  }

  // ------------------------------------- a removal that deletes another job's checkpoint

  lemma Extend(limits: Limits, run: seq<State>, acts: seq<Action>, u: State, a: Action)
    requires IsRun(limits, run, acts) && Step(limits, run[|acts|], u, a)
    ensures IsRun(limits, run + [u], acts + [a])
  {
    forall i | 0 <= i < |acts| + 1
      ensures Step(limits, (run + [u])[i], (run + [u])[i + 1], (acts + [a])[i])
    {
      if i < |acts| {
        assert Step(limits, run[i], run[i + 1], acts[i]);
      }
    }
  }

  const ONE := Checkpoint(Prepared(1, 1), 0, None)

  function NamedAs(job: JobId): Checkpoint {
    ONE.(job := Some(job))
  }

  /** A worker prepares a withdrawal for an intent that has no checkpoint. */
  lemma Prepares(limits: Limits, run: seq<State>, acts: seq<Action>, p: nat, id: Id) returns (more: seq<State>, did: seq<Action>)
    requires IsRun(limits, run, acts) && limits(id) >= 1
    requires p !in run[|acts|].workers && id !in run[|acts|].table
    ensures IsRun(limits, more, did) && run <= more
    ensures more[|did|] == run[|acts|].(workers := run[|acts|].workers[p := Saving(id, ONE)])
  {
    var s := run[|acts|];
    var s1 := s.(workers := s.workers[p := Reading(id, 0)]);
    Extend(limits, run, acts, s1, Start(p, id, 0));
    more, did := run + [s1], acts + [Start(p, id, 0)];
    var s2 := s.(workers := s.workers[p := Found(id, 0, None)]);
    Extend(limits, more, did, s2, Read(p));
    more, did := more + [s2], did + [Read(p)];
    var s3 := s.(workers := s.workers[p := Preparing(id, 0)]);
    Extend(limits, more, did, s3, Verify(p));
    more, did := more + [s3], did + [Verify(p)];
    var s4 := s.(workers := s.workers[p := Saving(id, ONE)]);
    Extend(limits, more, did, s4, Prepare(p, ONE.prepared));
    more, did := more + [s4], did + [Prepare(p, ONE.prepared)];
  }

  /** And has the service name a job for it. */
  lemma Names(limits: Limits, run: seq<State>, acts: seq<Action>, p: nat, id: Id, job: JobId) returns (more: seq<State>, did: seq<Action>)
    requires IsRun(limits, run, acts) && limits(id) >= 1
    requires p !in run[|acts|].workers && id !in run[|acts|].table
    ensures IsRun(limits, more, did) && run <= more
    ensures var s := run[|acts|];
            more[|did|] == s.(table := s.table[id := NamedAs(job)], asked := s.asked + [Request(id, ONE.prepared, job)])
  {
    var s := run[|acts|];
    more, did := Prepares(limits, run, acts, p, id);
    var s5 := s.(table := s.table[id := ONE], workers := s.workers[p := Signing(id, ONE)]);
    Extend(limits, more, did, s5, Save(p));
    more, did := more + [s5], did + [Save(p)];
    var asked := s.asked + [Request(id, ONE.prepared, job)];
    var s6 := s5.(workers := s.workers[p := Saving(id, NamedAs(job))], asked := asked);
    Extend(limits, more, did, s6, Ask(p, job));
    more, did := more + [s6], did + [Ask(p, job)];
    var s7 := s.(table := s.table[id := NamedAs(job)], asked := asked);
    assert s6.workers - {p} == s.workers;
    assert s6.table[id := NamedAs(job)] == s7.table;
    Extend(limits, more, did, s7, Save(p));
    more, did := more + [s7], did + [Save(p)];
  }

  /** A worker hears that the job has ended. */
  lemma HearsEnded(limits: Limits, run: seq<State>, acts: seq<Action>, p: nat, id: Id, job: JobId) returns (more: seq<State>, did: seq<Action>)
    requires IsRun(limits, run, acts) && limits(id) >= 1 && p !in run[|acts|].workers
    requires id in run[|acts|].table && run[|acts|].table[id] == NamedAs(job)
    ensures IsRun(limits, more, did) && run <= more
    ensures var s := run[|acts|];
            more[|did|] == s.(workers := s.workers[p := Removing(id, NamedAs(job))], ended := s.ended + {job})
  {
    var s := run[|acts|];
    var s1 := s.(workers := s.workers[p := Reading(id, 0)]);
    Extend(limits, run, acts, s1, Start(p, id, 0));
    more, did := run + [s1], acts + [Start(p, id, 0)];
    var s2 := s.(workers := s.workers[p := Found(id, 0, Some(NamedAs(job)))]);
    Extend(limits, more, did, s2, Read(p));
    more, did := more + [s2], did + [Read(p)];
    var s3 := s.(workers := s.workers[p := Asking(id, NamedAs(job))]);
    Extend(limits, more, did, s3, Verify(p));
    more, did := more + [s3], did + [Verify(p)];
    var s4 := s.(workers := s.workers[p := Removing(id, NamedAs(job))], ended := s.ended + {job});
    Extend(limits, more, did, s4, Hear(p, Ended));
    more, did := more + [s4], did + [Hear(p, Ended)];
  }

  /**
   Two workers hear that job 1 has ended; the first removes it, job 2 is named,
   and the second deletes the checkpoint of job 2, which nobody reported ended.
   */
  lemma RemovesAnotherJob(limits: Limits, id: Id) returns (run: seq<State>, acts: seq<Action>, j: nat)
    requires limits(id) >= 1
    ensures IsRun(limits, run, acts) && j < |acts| && Removes(run, acts, j, id)
    ensures id in run[j].table && run[j].table[id].job == Some(2) && 2 !in run[j].ended
    ensures id !in run[j + 1].table
  {
    run, acts := Names(limits, [INITIAL], [], 0, id, 1);
    run, acts := HearsEnded(limits, run, acts, 1, id, 1);
    run, acts := HearsEnded(limits, run, acts, 2, id, 1);
    var s := run[|acts|];
    var u := s.(table := s.table - {id}, workers := s.workers - {1});
    Extend(limits, run, acts, u, Remove(1));
    run, acts := Names(limits, run + [u], acts + [Remove(1)], 3, id, 2);
    j := |acts|;
    s := run[j];
    u := s.(table := s.table - {id}, workers := s.workers - {2});
    Extend(limits, run, acts, u, Remove(2));
    run, acts := run + [u], acts + [Remove(2)];
  }
}
