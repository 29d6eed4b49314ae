/**
 How far overlapping dispatches of a receiving attempt can overspend: the bound
 of ReceivingBudget is reached exactly by budgets that use up the whole surplus.
 */
module BudgetTightness {
  import opened Wrappers
  import opened ReceivingKind
  import opened ReceivingBudget
  import Rewards

  /** A job that costs its whole budget. */
  function FullJob(h: Host, a: Attempt, k: Kind, revision: Option<nat>, price: int): Job {
    Job(k, if k == Publication && (h.publicationOf)(a).Some? then PublicationId((h.publicationOf)(a).value) else AttemptId(a),
        revision, h.gas.Of(k), price)
  }

  /** Attempt a may sign the job on an empty ledger, and is charged x for it. */
  ghost predicate Fits(h: Host, costs: map<Attempt, Costs>, a: Attempt, j: Job, x: int) {
    Dispatches(h, costs, a, j) && Funds(costs, a, j) && JobCost(j) == x <= (h.surplus)(a)
  }

  /** At this price every kind has a job that costs its budget. */
  ghost predicate Priced(h: Host, c: Costs, a: Attempt, price: int) {
    forall k: Kind, revision: Option<nat> {:trigger Fits(h, map[a := c], a, FullJob(h, a, k, revision, price), c.budgets.Of(k))} ::
      (revision.Some? ==> k == Finalization) && (k == Publication ==> c.publication.Some?)
      ==> Fits(h, map[a := c], a, FullJob(h, a, k, revision, price), c.budgets.Of(k))
  }

  /** Every kind the attempt pays for has a budget that covers its gas at this price. */
  ghost predicate BudgetedAt(h: Host, c: Costs, price: int) {
    && price > 0
    && forall k: Kind {:trigger c.budgets.Of(k)} :: h.gas.Of(k) > 0 && (k != Publication || c.publication.Some? ==> c.budgets.Of(k) == CostOf(h.gas.Of(k), price))
  }

  lemma NewBudgetsBudgeted(h: Host, c: Costs, price: int)
    requires NewBudgets(h.gas, price, c.publication.Some?) == Success(c.budgets)
    ensures BudgetedAt(h, c, price)
  {
  }

  lemma FixedBudgetsArePriced(h: Host, c: Costs, a: Attempt, price: int)
    requires BudgetedAt(h, c, price) && RowOk(h, c, a)
    ensures Priced(h, c, a, price)
  {
    forall k: Kind, revision: Option<nat> | (revision.Some? ==> k == Finalization) && (k == Publication ==> c.publication.Some?)
      ensures Fits(h, map[a := c], a, FullJob(h, a, k, revision, price), c.budgets.Of(k))
    {
      FullJobFits(h, c, a, k, revision, price);
    }
  }

  lemma FullJobFits(h: Host, c: Costs, a: Attempt, k: Kind, revision: Option<nat>, price: int)
    requires BudgetedAt(h, c, price) && RowOk(h, c, a)
    requires (revision.Some? ==> k == Finalization) && (k == Publication ==> c.publication.Some?)
    ensures Fits(h, map[a := c], a, FullJob(h, a, k, revision, price), c.budgets.Of(k))
  {
    assert c.budgets.Of(k) == CostOf(h.gas.Of(k), price);
    Rewards.CostIsPositive(h.gas.Of(k), price);
    assert c.budgets.Of(Publication) >= 0 && c.budgets.Of(Preparation) >= 0 && c.budgets.Of(Registration) >= 0;
    assert c.budgets.Of(Observation) >= 0 && c.budgets.Of(Finalization) >= 0;
  }

  /** Every kind but finalization, once. */
  function Others(h: Host, c: Costs, a: Attempt, price: int): seq<Job> {
    (if c.publication.Some? then [FullJob(h, a, Publication, None, price)] else [])
    + [FullJob(h, a, Preparation, None, price)] + [FullJob(h, a, Registration, None, price)]
    + [FullJob(h, a, Observation, None, price)]
  }

  /** And f revisions of the finalization. */
  function AllJobs(h: Host, c: Costs, a: Attempt, price: int, f: nat): seq<Job> {
    if f == 0 then Others(h, c, a, price)
    else AllJobs(h, c, a, price, f - 1) + [FullJob(h, a, Finalization, Some(f), price)]
  }

  lemma FinalizationsAppend(costs: map<Attempt, Costs>, jobs: seq<Job>, j: Job, x: Attempt)
    ensures Finalizations(costs, jobs + [j], x)
            == Finalizations(costs, jobs, x) + if Funds(costs, x, j) && j.kind == Finalization then 1 else 0
  {
  }

  lemma AddJob(h: Host, costs: map<Attempt, Costs>, jobs: seq<Job>, j: Job, a: Attempt, x: int)
    requires Fits(h, costs, a, j, x)
    ensures Spent(costs, jobs + [j], a) == Spent(costs, jobs, a) + x
    ensures Finalizations(costs, jobs + [j], a) == Finalizations(costs, jobs, a) + if j.kind == Finalization then 1 else 0
  {
    SpentAppend(costs, jobs, j, a);
    FinalizationsAppend(costs, jobs, j, a);
  }

  /** One more job that costs its budget. */
  lemma AddFullJob(h: Host, c: Costs, a: Attempt, price: int, jobs: seq<Job>, k: Kind, revision: Option<nat>)
    requires Priced(h, c, a, price)
    requires (revision.Some? ==> k == Finalization) && (k == Publication ==> c.publication.Some?)
    ensures var more := jobs + [FullJob(h, a, k, revision, price)];
            && Spent(map[a := c], more, a) == Spent(map[a := c], jobs, a) + c.budgets.Of(k)
            && Finalizations(map[a := c], more, a) == Finalizations(map[a := c], jobs, a) + if k == Finalization then 1 else 0
  {
    assert Fits(h, map[a := c], a, FullJob(h, a, k, revision, price), c.budgets.Of(k));
    AddJob(h, map[a := c], jobs, FullJob(h, a, k, revision, price), a, c.budgets.Of(k));
  }

  lemma OthersCost(h: Host, c: Costs, a: Attempt, price: int)
    requires Priced(h, c, a, price) && (c.publication.None? ==> c.budgets.publication == 0)
    ensures Spent(map[a := c], Others(h, c, a, price), a) == c.budgets.Total() - c.budgets.finalization
    ensures Finalizations(map[a := c], Others(h, c, a, price), a) == 0
  {
    var costs, b := map[a := c], c.budgets;
    var j1, j2, j3 := FullJob(h, a, Preparation, None, price), FullJob(h, a, Registration, None, price), FullJob(h, a, Observation, None, price);
    var s0: seq<Job> := [];
    if c.publication.Some? {
      var j0 := FullJob(h, a, Publication, None, price);
      AddFullJob(h, c, a, price, [], Publication, None);
      s0 := [j0];
      assert [] + [j0] == s0;
    }
    AddFullJob(h, c, a, price, s0, Preparation, None);
    AddFullJob(h, c, a, price, s0 + [j1], Registration, None);
    AddFullJob(h, c, a, price, s0 + [j1] + [j2], Observation, None);
  }

  lemma {:induction false} AllJobsCost(h: Host, c: Costs, a: Attempt, price: int, f: nat)
    requires Priced(h, c, a, price) && (c.publication.None? ==> c.budgets.publication == 0)
    ensures Finalizations(map[a := c], AllJobs(h, c, a, price, f), a) == f
    ensures Spent(map[a := c], AllJobs(h, c, a, price, f), a)
            == c.budgets.Total() - c.budgets.finalization + Times(f, c.budgets.finalization)
  {
    if f == 0 {
      OthersCost(h, c, a, price);
    } else {
      AllJobsCost(h, c, a, price, f - 1);
      AddFullJob(h, c, a, price, AllJobs(h, c, a, price, f - 1), Finalization, Some(f));
    }
  }

  function Times(n: nat, b: int): int {
    if n == 0 then 0 else Times(n - 1, b) + b
  }

  lemma {:induction false} TimesIsProduct(n: nat, b: int)
    ensures Times(n, b) == n * b
  {
    if n > 0 {
      TimesIsProduct(n - 1, b);
      OneMore(n - 1, b);
    }
  }

  /** Jobs that can each be signed on an empty ledger, in lanes of their own. */
  ghost predicate Signable(h: Host, costs: map<Attempt, Costs>, a: Attempt, jobs: seq<Job>) {
    && (forall i :: 0 <= i < |jobs| ==> Dispatches(h, costs, a, jobs[i]) && JobCost(jobs[i]) <= (h.surplus)(a))
    && (forall i, j :: 0 <= i < |jobs| && 0 <= j < |jobs| && SameLane(jobs[i], jobs[j]) ==> i == j)
  }

  /** Finalizations have revisions up to f. */
  ghost predicate RevisedUpTo(jobs: seq<Job>, f: nat) {
    forall i :: 0 <= i < |jobs| && jobs[i].kind == Finalization ==> jobs[i].revision.Some? && jobs[i].revision.value <= f
  }

  lemma {:induction false} AllJobsSignable(h: Host, c: Costs, a: Attempt, price: int, f: nat)
    requires Priced(h, c, a, price)
    ensures Signable(h, map[a := c], a, AllJobs(h, c, a, price, f)) && RevisedUpTo(AllJobs(h, c, a, price, f), f)
  {
    if f == 0 {
      OthersSignable(h, c, a, price);
    } else {
      AllJobsSignable(h, c, a, price, f - 1);
      OneMoreSignable(h, c, a, price, f, AllJobs(h, c, a, price, f - 1));
    }
  }

  lemma FullJobSignable(h: Host, c: Costs, a: Attempt, price: int, k: Kind, revision: Option<nat>)
    requires Priced(h, c, a, price)
    requires (revision.Some? ==> k == Finalization) && (k == Publication ==> c.publication.Some?)
    ensures Dispatches(h, map[a := c], a, FullJob(h, a, k, revision, price)) && JobCost(FullJob(h, a, k, revision, price)) <= (h.surplus)(a)
  {
    assert Fits(h, map[a := c], a, FullJob(h, a, k, revision, price), c.budgets.Of(k));
  }

  lemma OthersSignable(h: Host, c: Costs, a: Attempt, price: int)
    requires Priced(h, c, a, price)
    ensures Signable(h, map[a := c], a, Others(h, c, a, price)) && RevisedUpTo(Others(h, c, a, price), 0)
  {
    if c.publication.Some? {
      FullJobSignable(h, c, a, price, Publication, None);
    }
    FullJobSignable(h, c, a, price, Preparation, None);
    FullJobSignable(h, c, a, price, Registration, None);
    FullJobSignable(h, c, a, price, Observation, None);
  }

  lemma OneMoreSignable(h: Host, c: Costs, a: Attempt, price: int, f: nat, init: seq<Job>)
    requires Priced(h, c, a, price) && f > 0 && Signable(h, map[a := c], a, init) && RevisedUpTo(init, f - 1)
    ensures Signable(h, map[a := c], a, init + [FullJob(h, a, Finalization, Some(f), price)])
    ensures RevisedUpTo(init + [FullJob(h, a, Finalization, Some(f), price)], f)
  {
    FullJobSignable(h, c, a, price, Finalization, Some(f));
  }

  // ------------------------------------------------- all signed, then all committed

  lemma Extend(h: Host, run: seq<State>, acts: seq<Action>, u: State, act: Action)
    requires IsRun(h, run, acts) && Step(h, run[|acts|], u, act)
    ensures IsRun(h, run + [u], acts + [act])
  {
    forall i | 0 <= i < |acts| + 1
      ensures Step(h, (run + [u])[i], (run + [u])[i + 1], (acts + [act])[i])
    {
      if i < |acts| {
        assert Step(h, run[i], run[i + 1], acts[i]);
      }
    }
  }

  function PendingFrom(a: Attempt, jobs: seq<Job>, from: nat, to: nat): map<nat, Pending>
    requires to <= |jobs|
  {
    map p: nat | from <= p < to :: Pending(a, jobs[p])
  }

  lemma {:induction false} SignAll(h: Host, run: seq<State>, acts: seq<Action>, costs: map<Attempt, Costs>, a: Attempt, jobs: seq<Job>, n: nat)
    returns (more: seq<State>, did: seq<Action>)
    requires IsRun(h, run, acts) && run[|acts|] == State(costs, [], map[])
    requires Signable(h, costs, a, jobs) && n <= |jobs|
    ensures IsRun(h, more, did) && acts <= did && more[|did|] == State(costs, [], PendingFrom(a, jobs, 0, n))
  {
    if n == 0 {
      more, did := run, acts;
      assert PendingFrom(a, jobs, 0, 0) == map[];
    } else {
      more, did := SignAll(h, run, acts, costs, a, jobs, n - 1);
      var u := State(costs, [], PendingFrom(a, jobs, 0, n));
      assert PendingFrom(a, jobs, 0, n) == PendingFrom(a, jobs, 0, n - 1)[n - 1 := Pending(a, jobs[n - 1])];
      assert Spent(costs, [], a) == 0;
      Extend(h, more, did, u, Sign(n - 1, a, jobs[n - 1]));
      more, did := more + [u], did + [Sign(n - 1, a, jobs[n - 1])];
    }
  }

  lemma {:induction false} CommitAll(h: Host, run: seq<State>, acts: seq<Action>, costs: map<Attempt, Costs>, a: Attempt, jobs: seq<Job>, n: nat)
    returns (more: seq<State>, did: seq<Action>)
    requires IsRun(h, run, acts) && run[|acts|] == State(costs, [], PendingFrom(a, jobs, 0, |jobs|))
    requires Signable(h, costs, a, jobs) && n <= |jobs|
    ensures IsRun(h, more, did) && acts <= did && more[|did|] == State(costs, jobs[..n], PendingFrom(a, jobs, n, |jobs|))
  {
    if n == 0 {
      more, did := run, acts;
    } else {
      more, did := CommitAll(h, run, acts, costs, a, jobs, n - 1);
      var u := State(costs, jobs[..n], PendingFrom(a, jobs, n, |jobs|));
      CommitNext(h, costs, a, jobs, n);
      Extend(h, more, did, u, Commit(n - 1));
      more, did := more + [u], did + [Commit(n - 1)];
    }
  }

  lemma CommitNext(h: Host, costs: map<Attempt, Costs>, a: Attempt, jobs: seq<Job>, n: nat)
    requires Signable(h, costs, a, jobs) && 1 <= n <= |jobs|
    ensures Step(h, State(costs, jobs[..n - 1], PendingFrom(a, jobs, n - 1, |jobs|)),
                 State(costs, jobs[..n], PendingFrom(a, jobs, n, |jobs|)), Commit(n - 1))
  {
    assert PendingFrom(a, jobs, n, |jobs|) == PendingFrom(a, jobs, n - 1, |jobs|) - {n - 1};
    assert jobs[..n] == jobs[..n - 1] + [jobs[n - 1]];
    var done := jobs[..n - 1];
    assert forall i :: 0 <= i < |done| ==> done[i] == jobs[i];
  }

  // ----------------------------------------------------------------- exactness

  /** A run that opens attempt a, signs f finalizations for it and overspends by all that the bound allows. */
  ghost predicate Reaches(h: Host, a: Attempt, unregistered: bool, price: int, f: nat, run: seq<State>, acts: seq<Action>) {
    && IsRun(h, run, acts) && acts != [] && acts[0] == Open(a, unregistered, price)
    && var s := run[|acts|];
    && a in s.costs && Finalizations(s.costs, s.jobs, a) == f
    && Spent(s.costs, s.jobs, a) == (h.surplus)(a) + (f - 1) * s.costs[a].budgets.finalization
  }

  lemma OpensFirst(h: Host, a: Attempt, unregistered: bool, price: int) returns (c: Costs)
    requires OpenCosts(h, map[], a, unregistered, price).Success?
    ensures OpenCosts(h, map[], a, unregistered, price).value == (map[a := c], Some(c.budgets)) && Priced(h, c, a, price)
    ensures c.publication.None? ==> c.budgets.publication == 0
  {
    var funds := if unregistered then (h.publicationOf)(a) else None;
    c := Costs(funds, NewBudgets(h.gas, price, funds.Some?).value);
    NewBudgetsOk(h.gas, price, funds.Some?);
    NewBudgetsBudgeted(h, c, price);
    FixedBudgetsArePriced(h, c, a, price);
  }

  /**
   For an attempt that opens on an empty ledger, and any number of finalizations,
   some run overspends by all of the bound if and only if the five budgets use
   up the surplus.
   */
  lemma BoundReachedExactlyWhenUsedUp(h: Host, a: Attempt, unregistered: bool, price: int, f: nat)
    requires OpenCosts(h, map[], a, unregistered, price).Success? && f >= 1
    ensures OpenCosts(h, map[], a, unregistered, price).value.1.Some?
    ensures (exists run: seq<State>, acts: seq<Action> :: Reaches(h, a, unregistered, price, f, run, acts))
            <==> OpenCosts(h, map[], a, unregistered, price).value.1.value.Total() == (h.surplus)(a)
  {
    var c := OpensFirst(h, a, unregistered, price);
    if c.budgets.Total() == (h.surplus)(a) {
      var run, acts := ReachBound(h, a, unregistered, price, f, c);
    } else {
      forall run: seq<State>, acts: seq<Action>
        ensures !Reaches(h, a, unregistered, price, f, run, acts)
      {
        if Reaches(h, a, unregistered, price, f, run, acts) {
          StaysBelow(h, a, unregistered, price, f, c, run, acts);
        }
      }
    }
  }

  lemma Opens(h: Host, a: Attempt, unregistered: bool, price: int, c: Costs) returns (run: seq<State>, acts: seq<Action>)
    requires OpenCosts(h, map[], a, unregistered, price) == Success((map[a := c], Some(c.budgets)))
    ensures IsRun(h, run, acts) && acts == [Open(a, unregistered, price)] && run[1] == State(map[a := c], [], map[])
  {
    run, acts := [State(map[], [], map[]), State(map[a := c], [], map[])], [Open(a, unregistered, price)];
    assert Step(h, run[0], run[1], acts[0]);
  }

  lemma ReachBound(h: Host, a: Attempt, unregistered: bool, price: int, f: nat, c: Costs)
    returns (run: seq<State>, acts: seq<Action>)
    requires OpenCosts(h, map[], a, unregistered, price) == Success((map[a := c], Some(c.budgets)))
    requires Priced(h, c, a, price) && (c.publication.None? ==> c.budgets.publication == 0)
    requires c.budgets.Total() == (h.surplus)(a)
    ensures Reaches(h, a, unregistered, price, f, run, acts)
  {
    var jobs := AllJobs(h, c, a, price, f);
    AllJobsSignable(h, c, a, price, f);
    run, acts := Opens(h, a, unregistered, price, c);
    run, acts := SignAll(h, run, acts, map[a := c], a, jobs, |jobs|);
    run, acts := CommitAll(h, run, acts, map[a := c], a, jobs, |jobs|);
    assert jobs[..|jobs|] == jobs;
    AllJobsCost(h, c, a, price, f);
    TimesIsProduct(f, c.budgets.finalization);
    OneMore(f - 1, c.budgets.finalization);
  }

  lemma StaysBelow(h: Host, a: Attempt, unregistered: bool, price: int, f: nat, c: Costs, run: seq<State>, acts: seq<Action>)
    requires OpenCosts(h, map[], a, unregistered, price) == Success((map[a := c], Some(c.budgets)))
    requires Reaches(h, a, unregistered, price, f, run, acts) && f >= 1
    ensures c.budgets.Total() == (h.surplus)(a)
  {
    FirstCostsStay(h, a, unregistered, price, c, run, acts);
    SpentBelow(h, run[|acts|].costs, run[|acts|].jobs, a);
    Squeezed(c.budgets.Total(), (h.surplus)(a), c.budgets.finalization, f);
  }

  lemma FirstCostsStay(h: Host, a: Attempt, unregistered: bool, price: int, c: Costs, run: seq<State>, acts: seq<Action>)
    requires OpenCosts(h, map[], a, unregistered, price) == Success((map[a := c], Some(c.budgets)))
    requires IsRun(h, run, acts) && acts != [] && acts[0] == Open(a, unregistered, price)
    ensures var s := run[|acts|];
            a in s.costs && s.costs[a] == c && CostsInv(h, s.costs) && LanesUsedOnce(h, s.costs, s.jobs)
  {
    assert Step(h, run[0], run[0 + 1], acts[0]);
    CostsAreFixed(h, run, acts, 1, |acts|);
    RunKeepsInv(h, run, acts, |acts|);
  }

  lemma Squeezed(total: int, surplus: int, b: int, f: int)
    requires total <= surplus && surplus + (f - 1) * b <= total - b + f * b
    ensures total == surplus
  {
    OneMore(f - 1, b);
  }

  lemma SpentBelow(h: Host, costs: map<Attempt, Costs>, jobs: seq<Job>, a: Attempt)
    requires CostsInv(h, costs) && LanesUsedOnce(h, costs, jobs) && a in costs
    ensures var b := costs[a].budgets;
            && Spent(costs, jobs, a) <= b.Total() - b.finalization + Finalizations(costs, jobs, a) * b.finalization
            && b.Total() <= (h.surplus)(a)
  {
    SpentByKind(costs, jobs, a);
    EveryKindWithin(h, costs, jobs, a);
  }
}
