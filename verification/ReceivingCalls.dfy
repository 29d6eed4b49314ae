/**
 `prepare` and `resume` as they run, statement by statement, with everybody else
 and the chain moving at every `await`.  Each call is part of a run of
 `ReceivingJobs`, so what is proved of runs holds of any mix of these calls.  For a
 call that is left alone nothing else moves, nothing throws, the host keeps asking
 for the same thing, the signer's transaction is valid, and the node tells the truth.
 */
module ReceivingCalls {
  import opened Wrappers
  import opened ReceivingJobs
  import Rewards

  type Answer<T> = Result<T, ()>

  datatype Status = Confirmed | AlreadySatisfied | Pending

  /** No lock is left with call p. */
  predicate Released(st: State, p: nat) {
    forall k :: k in st.held ==> st.held[k] != p
  }

  class Host {
    const cfg: Config
    const alone: bool

    /** What the host asks of each subject when it is left alone; None when it is satisfied. */
    const asks: Subject -> Option<Request>

    var st: State
    ghost var run: seq<State>
    ghost var acts: seq<Action>

    constructor (cfg: Config, alone: bool, asks: Subject -> Option<Request>)
      ensures this.cfg == cfg && this.alone == alone && this.asks == asks && Valid() && st == START
    {
      this.cfg, this.alone, this.asks := cfg, alone, asks;
      st, run, acts := START, [START], [];
    }

    /** Nothing but the calls and their locks differs. */
    static predicate Untouched(before: State, after: State) {
      after.rows == before.rows && after.sent == before.sent && after.executed == before.executed
    }

    /** The request read for a subject. */
    method Ask(s: Subject) returns (seen: Option<Request>)
      ensures alone ==> seen == asks(s)
    {
      seen := *;
      if alone { seen := asks(s); }
    }

    ghost predicate Valid()
      reads this
    {
      IsRun(cfg, run, acts) && st == run[|acts|]
    }

    method Perform(a: Action)
      requires Valid() && Enabled(cfg, st, a)
      modifies this
      ensures Valid() && st == Apply(cfg, old(st), a)
      ensures run == old(run) + [st] && acts == old(acts) + [a]
    {
      st := Apply(cfg, st, a);
      run, acts := run + [st], acts + [a];
    }

    /** Call p throws: its transaction is rolled back and its lock freed. */
    method Throw(p: nat)
      requires Valid() && p in st.workers
      modifies this
      ensures Valid() && old(run) <= run && p !in st.workers && Released(st, p) && Untouched(old(st), st)
    {
      Perform(Stop(p));
    }

    /** The other calls and the chain move. */
    method Interleave(p: nat)
      requires Valid() && p in st.workers
      modifies this
      ensures Valid() && old(run) <= run
      ensures p in st.workers && st.workers[p] == old(st.workers[p])
      ensures alone ==> st == old(st)
    {
      if alone { return; }
      var steps: nat := *;
      while steps > 0
        invariant Valid() && old(run) <= run
        invariant p in st.workers && st.workers[p] == old(st.workers[p])
      {
        var a: Action := *;
        if Actor(a) != Some(p) && Enabled(cfg, st, a) {
          StepLeavesCall(cfg, st, a, p);
          Perform(a);
        }
        steps := steps - 1;
      }
    }

    method Await(p: nat) returns (r: Answer<()>)
      requires Valid() && p in st.workers
      modifies this
      ensures Valid() && old(run) <= run
      ensures r.Success? ==> p in st.workers && st.workers[p] == old(st.workers[p])
      ensures r.Failure? ==> p !in st.workers && Released(st, p)
      ensures alone ==> r.Success? && st == old(st)
    {
      Interleave(p);
      var threw: bool := *;
      if threw && !alone {
        Throw(p);
        return Failure(());
      }
      return Success(());
    }

    /** SELECT of the retained job; more than one row throws. */
    method Select(s: Subject) returns (r: Answer<Option<Row>>)
      ensures r.Success? ==> Found(st.rows, s, r.value)
      ensures r.Failure? ==> exists i, j :: 0 <= i < j < |st.rows| && st.rows[i].subject == st.rows[j].subject == s
    {
      var at: Option<nat> := None;
      for i := 0 to |st.rows|
        invariant at.None? ==> forall j :: 0 <= j < i ==> st.rows[j].subject != s
        invariant at.Some? ==> at.value < i && st.rows[at.value].subject == s
        invariant at.Some? ==> forall j :: 0 <= j < i && st.rows[j].subject == s ==> j == at.value
      {
        if st.rows[i].subject == s {
          if at.Some? { return Failure(()); }
          at := Some(i);
        }
      }
      return Success(if at.Some? then Some(st.rows[at.value]) else None);
    }

    predicate LaneFree(s: State, subject: Subject)
      reads this
    {
      cfg.lockOf(cfg.laneOf(subject)) !in s.held
    }

    predicate FitsIfAny(s: Subject, q: Option<Request>)
      reads this
    {
      q.Some? ==> (cfg.fits)(s, q.value)
    }

    /** The advisory lock; a wait that ends without it is a failed statement. */
    method AcquireLane(p: nat) returns (r: Answer<()>)
      requires Valid() && p in st.workers && st.workers[p].Preparing?
      modifies this
      ensures Valid() && old(run) <= run
      ensures r.Success? ==> p in st.workers && st.workers[p] == Locked(old(st.workers[p]).s)
      ensures r.Failure? ==> p !in st.workers && Released(st, p)
      ensures alone ==> Untouched(old(st), st) && (r.Success? <==> LaneFree(old(st), old(st.workers[p]).s))
    {
      var _ :- Await(p);
      if cfg.lockOf(cfg.laneOf(st.workers[p].s)) in st.held {
        Throw(p);
        return Failure(());
      }
      Perform(Acquire(p));
      return Success(());
    }

    /** Under the lock: the retained row and the request the host still sees. */
    method ReadBoth(p: nat) returns (r: Answer<()>)
      requires Valid() && p in st.workers && st.workers[p].Locked?
      modifies this
      ensures Valid() && old(run) <= run
      ensures r.Success? ==> p in st.workers && st.workers[p].Asked? && st.workers[p].s == old(st.workers[p]).s
      ensures r.Failure? ==> p !in st.workers && Released(st, p)
      ensures alone ==>
                var s := old(st.workers[p]).s;
                && Untouched(old(st), st)
                && (r.Success? ==> FitsIfAny(s, asks(s)) && st.workers[p].seen == asks(s) && Found(old(st).rows, s, st.workers[p].kept))
                && (r.Failure? ==> !FitsIfAny(s, asks(s)) || forall kept :: !Found(old(st).rows, s, kept))
    {
      var s := st.workers[p].s;
      var _ :- Await(p);
      var kept := Select(s);
      if kept.Failure? {
        Throw(p);
        return Failure(());
      }
      Perform(Look(p, kept.value));
      var _ :- Await(p);
      var seen := Ask(s);
      if seen.Some? && !(cfg.fits)(s, seen.value) {
        Throw(p);
        return Failure(());
      }
      Perform(ReceivingJobs.Ask(p, seen));
      return Success(());
    }

    /** The lane's lock, and what there is under it. */
    method EnterLane(p: nat) returns (r: Answer<()>)
      requires Valid() && p in st.workers && st.workers[p].Preparing?
      modifies this
      ensures Valid() && old(run) <= run
      ensures r.Success? ==> p in st.workers && st.workers[p].Asked? && st.workers[p].s == old(st.workers[p]).s
      ensures r.Failure? ==> p !in st.workers && Released(st, p)
      ensures alone ==>
                var s := old(st.workers[p]).s;
                && Untouched(old(st), st)
                && (r.Success? ==>
                      && LaneFree(old(st), s) && FitsIfAny(s, asks(s))
                      && st.workers[p].seen == asks(s) && Found(old(st).rows, s, st.workers[p].kept))
                && (r.Failure? ==> !LaneFree(old(st), s) || !FitsIfAny(s, asks(s)) || forall kept :: !Found(old(st).rows, s, kept))
    {
      var _ :- Await(p);
      var _ :- AcquireLane(p);
      r := ReadBoth(p);
    }

    /** The lane is unused and the request can be signed for: it fits, and pays for some transaction. */
    predicate Signable(s: State, subject: Subject, request: Request)
      reads this
    {
      NonceOf(s.executed, cfg.laneOf(subject)) == 0 && (cfg.fits)(subject, request) && request.reward >= 1
    }

    method SignRow(p: nat) returns (r: Answer<()>)
      requires Valid() && p in st.workers && st.workers[p].Asked?
      requires st.workers[p].kept.None? && st.workers[p].seen.Some?
      modifies this
      ensures Valid() && old(run) <= run
      ensures r.Success? ==> p in st.workers && st.workers[p].Signed? && st.workers[p].s == old(st.workers[p]).s
      ensures r.Failure? ==> p !in st.workers && Released(st, p)
      ensures alone ==>
                var s, request := old(st.workers[p]).s, old(st.workers[p]).seen.value;
                && Untouched(old(st), st) && (r.Success? <==> Signable(old(st), s, request))
                && (r.Success? ==> st.workers[p].row == Row(s, request, st.workers[p].row.raw))
    {
      var s, request := st.workers[p].s, st.workers[p].seen.value;
      var _ :- Await(p);
      var raw: Tx := *;
      if alone && !ReceivingJobs.Valid(cfg, s, Row(s, request, raw)) {
        raw := Tx(cfg.laneOf(s), 0, request.target, request.data, 1, 1, 0);
      }
      Rewards.LeastCovering(1, 1, request.reward);
      if NonceOf(st.executed, cfg.laneOf(s)) != 0 || !ReceivingJobs.Valid(cfg, s, Row(s, request, raw)) {
        Throw(p);
        return Failure(());
      }
      Perform(Sign(p, raw));
      return Success(());
    }

    method RecheckRow(p: nat) returns (r: Answer<()>)
      requires Valid() && p in st.workers && st.workers[p].Signed?
      modifies this
      ensures Valid() && old(run) <= run
      ensures r.Success? ==> p in st.workers && st.workers[p] == Rechecked(old(st.workers[p]).s, old(st.workers[p]).row)
      ensures r.Failure? ==> p !in st.workers && Released(st, p)
      ensures alone ==>
                var s, row := old(st.workers[p]).s, old(st.workers[p]).row;
                && Untouched(old(st), st)
                && (r.Success? <==> asks(s) == Some(row.request) && NonceOf(old(st).executed, cfg.laneOf(s)) == 0)
    {
      var row := st.workers[p].row;
      var _ :- Await(p);
      var current := Ask(st.workers[p].s);
      if !current.Some? || !Matches(current, row) || NonceOf(st.executed, cfg.laneOf(st.workers[p].s)) != 0 {
        Throw(p);
        return Failure(());
      }
      Perform(Recheck(p, current));
      return Success(());
    }

    method InsertAndCommit(p: nat) returns (r: Answer<()>)
      requires Valid() && p in st.workers && st.workers[p].Rechecked?
      modifies this
      ensures Valid() && old(run) <= run && Released(st, p)
      ensures r.Success? ==> p in st.workers && st.workers[p] == Prepared(old(st.workers[p]).s, Some(old(st.workers[p]).row))
      ensures r.Failure? ==> p !in st.workers
      ensures alone ==>
                && r.Success? && st.rows == old(st).rows + [old(st.workers[p]).row]
                && st.sent == old(st).sent && st.executed == old(st).executed
    {
      Perform(Insert(p));
      var _ :- Await(p);
      Perform(Commit(p));
      return Success(());
    }

    /** The subject's transaction for this request has been added to the table. */
    static predicate OneRowMore(before: State, after: State, s: Subject, request: Request, row: Row) {
      && after.rows == before.rows + [row] && row == Row(s, request, row.raw)
      && after.sent == before.sent && after.executed == before.executed
    }

    /** Nothing is retained yet: sign, check everything again, insert and commit. */
    method SignAndRetain(p: nat) returns (r: Answer<()>)
      requires Valid() && p in st.workers && st.workers[p].Asked?
      requires st.workers[p].kept.None? && st.workers[p].seen.Some?
      modifies this
      ensures Valid() && old(run) <= run && Released(st, p)
      ensures r.Success? ==>
                && p in st.workers && st.workers[p].Prepared?
                && st.workers[p].s == old(st.workers[p]).s && st.workers[p].result.Some?
      ensures r.Failure? ==> p !in st.workers
      ensures alone && asks(old(st.workers[p]).s) == old(st.workers[p]).seen ==>
                var s, request := old(st.workers[p]).s, old(st.workers[p]).seen.value;
                && (r.Success? <==> Signable(old(st), s, request))
                && (r.Failure? ==> Untouched(old(st), st))
                && (r.Success? ==> OneRowMore(old(st), st, s, request, st.workers[p].result.value))
    {
      var _ :- SignRow(p);
      var _ :- RecheckRow(p);
      r := InsertAndCommit(p);
    }

    /** A retained row is answered again if it is intact and still what the host asks for. */
    method ReuseRow(p: nat) returns (r: Answer<()>)
      requires Valid() && p in st.workers && st.workers[p].Asked? && st.workers[p].kept.Some?
      modifies this
      ensures Valid() && old(run) <= run && Released(st, p)
      ensures r.Success? ==> p in st.workers && st.workers[p] == Prepared(old(st.workers[p]).s, old(st.workers[p]).kept)
      ensures r.Failure? ==> p !in st.workers
      ensures alone ==>
                var w := old(st.workers[p]);
                Untouched(old(st), st) && (r.Success? <==> ReceivingJobs.Valid(cfg, w.s, w.kept.value) && Matches(w.seen, w.kept.value))
    {
      var w := st.workers[p];
      var _ :- Await(p);
      if !ReceivingJobs.Valid(cfg, w.s, w.kept.value) || !Matches(w.seen, w.kept.value) {
        Throw(p);
        return Failure(());
      }
      Perform(Reuse(p));
      return Success(());
    }

    /** A retained transaction is intact and still asked for, or what is asked for can be signed, or nothing is asked for. */
    predicate Preparable(s: State, subject: Subject, kept: Option<Row>)
      reads this
    {
      match kept
      case Some(row) => ReceivingJobs.Valid(cfg, subject, row) && Matches(asks(subject), row)
      case None => asks(subject).Some? ==> Signable(s, subject, asks(subject).value)
    }

    method Finish(p: nat) returns (r: Answer<()>)
      requires Valid() && p in st.workers && st.workers[p].Asked?
      modifies this
      ensures Valid() && old(run) <= run && Released(st, p)
      ensures r.Success? ==> p in st.workers && st.workers[p].Prepared? && st.workers[p].s == old(st.workers[p]).s
      ensures r.Success? && st.workers[p].result.None? ==> old(st.workers[p]).kept.None? && old(st.workers[p]).seen.None?
      ensures r.Failure? ==> p !in st.workers
      ensures alone && asks(old(st.workers[p]).s) == old(st.workers[p]).seen ==>
                var w := old(st.workers[p]);
                && (r.Success? <==> Preparable(old(st), w.s, w.kept))
                && (r.Success? && (w.kept.Some? || w.seen.None?) ==> st.workers[p].result == w.kept && Untouched(old(st), st))
                && (r.Success? && w.kept.None? && w.seen.Some? ==>
                      st.workers[p].result.Some? && OneRowMore(old(st), st, w.s, w.seen.value, st.workers[p].result.value))
    {
      if st.workers[p].kept.Some? {
        r := ReuseRow(p);
      } else if st.workers[p].seen.None? {
        Perform(Satisfied(p));
        r := Success(());
      } else {
        r := SignAndRetain(p);
      }
    }

    /** What a call answers and adds when this is what it finds. */
    predicate PreparedFrom(before: State, after: State, s: Subject, kept: Option<Row>, r: Answer<Option<Tx>>)
      reads this
    {
      && (r.Success? <==> LaneFree(before, s) && FitsIfAny(s, asks(s)) && Preparable(before, s, kept))
      && (r.Success? && (kept.Some? || asks(s).None?) ==>
            Untouched(before, after) && r.value == if kept.Some? then Some(kept.value.raw) else None)
      && (r.Success? && kept.None? && asks(s).Some? ==>
            r.value.Some? && OneRowMore(before, after, s, asks(s).value, Row(s, asks(s).value, r.value.value)))
    }

    /**
     An answer names the subject's one retained transaction; a transaction that
     was retained when the call started is the answer, whatever happened since.
     Left alone with its lane free, the call ends well exactly when there is an intact
     transaction that is still asked for, or nothing asked for, or a request it can
     sign, and then it adds the one row.
     */
    method Prepare(p: nat, s: Subject) returns (r: Answer<Option<Tx>>)
      requires Valid() && p !in st.workers && Released(st, p)
      modifies this
      ensures Valid() && old(run) <= run && Released(st, p)
      ensures r.Success? && r.value.Some? ==> IsRetained(st.rows, s, r.value.value)
      ensures r.Success? ==> forall tx :: IsRetained(old(st).rows, s, tx) ==> r.value == Some(tx)
      ensures r.Failure? ==> p !in st.workers
      ensures alone ==> forall kept {:trigger Found(old(st).rows, s, kept)} ::
                Found(old(st).rows, s, kept) ==> PreparedFrom(old(st), st, s, kept, r)
    {
      ghost var before := |acts|;
      Perform(StartPrepare(p, s));
      var _ :- EnterLane(p);
      if st.workers[p].kept.None? {
        NothingWasRetained(cfg, run, acts, before, |acts|, p);
      }
      var finished := Finish(p);
      OnlyOneFound(old(st).rows, s);
      if finished.Failure? { return Failure(()); }
      if st.workers[p].result.Some? {
        AnswerIsRetained(cfg, run, acts, before, |acts|, p);
      }
      var result := st.workers[p].result;
      r := Success(if result.Some? then Some(result.value.raw) else None);
    }

    method LoadRow(p: nat) returns (r: Answer<()>)
      requires Valid() && p in st.workers && st.workers[p].Resuming?
      modifies this
      ensures Valid() && old(run) <= run
      ensures r.Success? ==> p in st.workers && st.workers[p].Loaded? && st.workers[p].s == old(st.workers[p]).s
      ensures r.Failure? ==> p !in st.workers
      ensures alone ==>
                var s := old(st.workers[p]).s;
                && Untouched(old(st), st)
                && (r.Success? ==> Found(old(st).rows, s, Some(st.workers[p].row)) && ReceivingJobs.Valid(cfg, s, st.workers[p].row))
                && (r.Failure? ==> forall row :: Found(old(st).rows, s, Some(row)) ==> !ReceivingJobs.Valid(cfg, s, row))
    {
      var s := st.workers[p].s;
      var _ :- Await(p);
      var kept := Select(s);
      if kept.Failure? || !kept.value.Some? || !ReceivingJobs.Valid(cfg, s, kept.value.value) {
        Throw(p);
        return Failure(());
      }
      Perform(Load(p, kept.value.value));
      return Success(());
    }

    /** The call ends without sending anything. */
    method End(p: nat, status: Status) returns (r: Answer<Status>)
      requires Valid() && p in st.workers && st.workers[p].Loaded?
      requires status == Confirmed ==> st.workers[p].row.raw in st.executed
      modifies this
      ensures Valid() && old(run) <= run && r == Success(status) && Untouched(old(st), st)
      ensures p in st.workers && st.workers[p] == Resumed(old(st.workers[p]).s, old(st.workers[p]).row, status == Confirmed)
    {
      if status == Confirmed {
        Perform(Receipt(p));
      } else {
        Perform(Settled(p));
      }
      return Success(status);
    }

    /** No node knows the transaction: send it, if its nonce is unused and the request still stands. */
    method Send(p: nat) returns (r: Answer<Status>)
      requires Valid() && p in st.workers && st.workers[p].Loaded?
      modifies this
      ensures Valid() && old(run) <= run
      ensures r.Success? ==>
                && p in st.workers && st.workers[p] == Resumed(old(st.workers[p]).s, old(st.workers[p]).row, false)
                && r.value != Confirmed && (r.value == Pending ==> old(st.workers[p]).row.raw in st.sent)
      ensures r.Failure? ==> p !in st.workers
      ensures alone ==>
                var w := old(st.workers[p]);
                && st.rows == old(st).rows && st.executed == old(st).executed
                && (r.Success? <==> NonceOf(old(st).executed, cfg.laneOf(w.s)) == 0 && Matches(asks(w.s), w.row))
                && (r.Success? ==> r.value == if asks(w.s).None? then AlreadySatisfied else Pending)
                && st.sent == if r == Success(Pending) then old(st).sent + {w.row.raw} else old(st).sent
    {
      var w := st.workers[p];
      var _ :- Await(p);
      if NonceOf(st.executed, cfg.laneOf(w.s)) != 0 {
        Throw(p);
        return Failure(());
      }
      var current := Ask(w.s);
      if !current.Some? {
        r := End(p, AlreadySatisfied);
        return;
      }
      if !Matches(current, w.row) {
        Throw(p);
        return Failure(());
      }
      Perform(CheckNonce(p, current));
      var _ :- Await(p);
      Perform(Broadcast(p));
      return Success(Pending);
    }

    /** What is reported of a transaction, and whether it was sent, when the node tells the truth. */
    predicate Reported(before: State, after: State, s: Subject, row: Row, r: Answer<Status>)
      reads this
    {
      && after.rows == before.rows && after.executed == before.executed
      && (r == Success(Confirmed) <==> Matches(asks(s), row) && row.raw in before.executed)
      && (r == Success(AlreadySatisfied) <==> asks(s).None? && row.raw !in before.executed)
      && (r == Success(Pending) <==>
            && asks(s) == Some(row.request) && row.raw !in before.executed
            && (row.raw in before.sent || NonceOf(before.executed, cfg.laneOf(s)) == 0))
      && after.sent == if r == Success(Pending) then before.sent + {row.raw} else before.sent
    }

    /** The receipt decides first, then a satisfied request, then whether a node knows the transaction. */
    method Report(p: nat) returns (r: Answer<Status>)
      requires Valid() && p in st.workers && st.workers[p].Loaded?
      modifies this
      ensures Valid() && old(run) <= run
      ensures r.Success? ==> p in st.workers && st.workers[p] == Resumed(old(st.workers[p]).s, old(st.workers[p]).row, r.value == Confirmed)
      ensures r.Failure? ==> p !in st.workers
      ensures alone ==> Reported(old(st), st, old(st.workers[p]).s, old(st.workers[p]).row, r)
    {
      var row := st.workers[p].row;
      var _ :- Await(p);
      var seen := Ask(st.workers[p].s);
      if !Matches(seen, row) {
        Throw(p);
        return Failure(());
      }
      var receipt, confirms, known: bool := *, *, *;
      if alone {
        receipt, confirms, known := true, true, row.raw in st.sent;
      }
      if receipt && row.raw in st.executed {
        r := End(p, if confirms then Confirmed else Pending);
      } else if !seen.Some? {
        r := End(p, AlreadySatisfied);
      } else if known {
        r := End(p, Pending);
      } else {
        r := Send(p);
      }
    }

    /**
     An ended call reports on the subject's one retained transaction: confirmed
     only with that transaction on the chain, and nothing but its bytes are sent.
     Left alone, it says what has become of an intact transaction, and sends one that
     no node knows if its lane is unused and it is still asked for.
     */
    method Resume(p: nat, s: Subject) returns (r: Answer<Status>)
      requires Valid() && p !in st.workers
      modifies this
      ensures Valid() && old(run) <= run
      ensures r.Success? ==>
                && p in st.workers && st.workers[p].Resumed? && st.workers[p].s == s
                && IsRetained(st.rows, s, st.workers[p].row.raw)
                && (r.value == Confirmed <==> st.workers[p].confirmed)
      ensures r.Failure? ==> p !in st.workers
      ensures alone ==> forall kept {:trigger Found(old(st).rows, s, kept)} :: Found(old(st).rows, s, kept) ==>
                if kept.Some? && ReceivingJobs.Valid(cfg, s, kept.value) then Reported(old(st), st, s, kept.value, r)
                else r.Failure? && Untouched(old(st), st)
    {
      Perform(StartResume(p, s));
      var _ :- LoadRow(p);
      r := Report(p);
      if r.Success? {
        ReportIsRetained(cfg, run, acts, |acts|, p);
      }
    }
  }

  lemma OnlyOneFound(rows: seq<Row>, s: Subject)
    ensures forall a, b :: Found(rows, s, a) && Found(rows, s, b) ==> a == b
  {
  }
}
