/**
 The spending ledger of a funded receiving attempt: five budgets fixed once under
 an advisory lock, and a check, before each signature, of everything already
 retained for the attempt.  A signature and the commit of its job are separate
 steps, so dispatches of one attempt may overlap unless its lease keeps them apart.
 */
module ReceivingBudget {
  import opened Wrappers
  import opened ReceivingKind
  import Rewards

  type Attempt = nat

  /** Job subjects: a publication or an attempt; the two are never confused. */
  datatype Id = PublicationId(n: nat) | AttemptId(a: Attempt)

  datatype PerKind = PerKind(publication: int, preparation: int, registration: int, observation: int, finalization: int) {
    function Of(k: Kind): int {
      match k
      case Publication => publication
      case Preparation => preparation
      case Registration => registration
      case Observation => observation
      case Finalization => finalization
    }

    function Total(): int { publication + preparation + registration + observation + finalization }
  }

  datatype Costs = Costs(publication: Option<nat>, budgets: PerKind)

  /** A retained job, with the gas terms its signed bytes carry. */
  datatype Job = Job(kind: Kind, subject: Id, revision: Option<nat>, gas: int, maxFee: int)

  /** What the attempt's body and the host fix: the sum to spend, the publication it refers to, the gas per kind. */
  datatype Host = Host(surplus: Attempt -> int, publicationOf: Attempt -> Option<nat>, gas: PerKind)

  datatype CostError = OverBudget | Unpriced

  // ----------------------------------------------------------------- budgets

  function CostOf(gas: int, price: int): int {
    var cost := Rewards.CostCoveringReward(gas, price);
    if cost.Success? then cost.value else 0
  }

  /** Every kind is priced except a publication that need not be paid for. */
  function NewBudgets(gas: PerKind, price: int, funds: bool): Result<PerKind, CostError> {
    if price <= 0 || exists k: Kind :: gas.Of(k) <= 0 then Failure(Unpriced)
    else Success(PerKind(if funds then CostOf(gas.publication, price) else 0, CostOf(gas.preparation, price),
                         CostOf(gas.registration, price), CostOf(gas.observation, price), CostOf(gas.finalization, price)))
  }

  predicate Owns(costs: map<Attempt, Costs>, a: Attempt, publication: nat) {
    a in costs && costs[a].publication == Some(publication)
  }

  predicate Owned(costs: map<Attempt, Costs>, publication: nat) {
    exists a :: a in costs && Owns(costs, a, publication)
  }

  /** The one transaction that fixes an attempt's budgets; None when another attempt pays for the publication. */
  function OpenCosts(h: Host, costs: map<Attempt, Costs>, a: Attempt, unregistered: bool, price: int)
    : Result<(map<Attempt, Costs>, Option<PerKind>), CostError>
  {
    var funds := if unregistered then (h.publicationOf)(a) else None;
    if a in costs then
      if costs[a].budgets.Total() <= (h.surplus)(a) then Success((costs, Some(costs[a].budgets))) else Failure(OverBudget)
    else if funds.Some? && Owned(costs, funds.value) then Success((costs, None))
    else
      var budgets :- NewBudgets(h.gas, price, funds.Some?);
      if budgets.Total() <= (h.surplus)(a) then Success((costs[a := Costs(funds, budgets)], Some(budgets)))
      else Failure(OverBudget)
  }

  /** Somebody whose costs are fixed pays for the publication. */
  ghost predicate PaidBy(costs: map<Attempt, Costs>, b: Attempt, publication: nat) {
    b in costs && costs[b].publication == Some(publication)
  }

  /** The attempt is new and would have to pay for a publication that another one pays for. */
  ghost predicate PaidByAnother(h: Host, costs: map<Attempt, Costs>, a: Attempt, unregistered: bool) {
    && a !in costs && unregistered && (h.publicationOf)(a).Some?
    && exists b :: PaidBy(costs, b, (h.publicationOf)(a).value)
  }

  /** Budgets that are the least rewards covering the gas of their own kind, and none for a publication that is not paid for. */
  ghost predicate LeastBudgets(b: PerKind, gas: PerKind, price: int, funds: bool) {
    && IsLeast(b.preparation, gas.preparation * price) && IsLeast(b.registration, gas.registration * price)
    && IsLeast(b.observation, gas.observation * price) && IsLeast(b.finalization, gas.finalization * price)
    && (if funds then IsLeast(b.publication, gas.publication * price) else b.publication == 0)
  }

  ghost predicate IsLeast(reward: int, attodollars: int) {
    Rewards.Covers(reward, attodollars) && !Rewards.Covers(reward - 1, attodollars)
  }

  lemma CostOfIsLeast(gas: int, price: int)
    requires gas > 0 && price > 0
    ensures IsLeast(CostOf(gas, price), gas * price)
  {
    Rewards.LeastCovering(gas, price, CostOf(gas, price));
    Rewards.LeastCovering(gas, price, CostOf(gas, price) - 1);
  }

  lemma NewBudgetsAreLeast(gas: PerKind, price: int, funds: bool)
    ensures NewBudgets(gas, price, funds).Success? <==>
              price > 0 && gas.publication > 0 && gas.preparation > 0 && gas.registration > 0 && gas.observation > 0 && gas.finalization > 0
    ensures NewBudgets(gas, price, funds).Success? ==> LeastBudgets(NewBudgets(gas, price, funds).value, gas, price, funds)
  {
    assert gas.Of(Publication) == gas.publication && gas.Of(Preparation) == gas.preparation && gas.Of(Registration) == gas.registration;
    assert gas.Of(Observation) == gas.observation && gas.Of(Finalization) == gas.finalization;
    if NewBudgets(gas, price, funds).Success? {
      CostOfIsLeast(gas.publication, price);
      CostOfIsLeast(gas.preparation, price);
      CostOfIsLeast(gas.registration, price);
      CostOfIsLeast(gas.observation, price);
      CostOfIsLeast(gas.finalization, price);
    }
  }

  /**
   Opening hands out exactly the budgets that are stored afterwards, or none when
   another attempt pays for the publication; stored budgets are handed out again
   as they are, and new ones cover each kind's own gas, without excess.
   */
  lemma OpenAnswersExactly(h: Host, costs: map<Attempt, Costs>, a: Attempt, unregistered: bool, price: int)
    ensures var r := OpenCosts(h, costs, a, unregistered, price);
            && (r.Success? && r.value.1 == None <==> PaidByAnother(h, costs, a, unregistered))
            && (r.Success? && r.value.1 == None ==> r.value.0 == costs)
            && (r.Success? && r.value.1.Some? ==>
                  && a in r.value.0 && r.value.1 == Some(r.value.0[a].budgets) && r.value.1.value.Total() <= (h.surplus)(a)
                  && (a in costs ==> r.value.0 == costs)
                  && (a !in costs ==>
                        && r.value.0 == costs[a := r.value.0[a]]
                        && r.value.0[a].publication == (if unregistered then (h.publicationOf)(a) else None)
                        && LeastBudgets(r.value.0[a].budgets, h.gas, price, r.value.0[a].publication.Some?)))
            && (a in costs ==> (r.Success? <==> costs[a].budgets.Total() <= (h.surplus)(a)))
  {
    var funds := if unregistered then (h.publicationOf)(a) else None;
    NewBudgetsAreLeast(h.gas, price, funds.Some?);
    if funds.Some? {
      assert Owned(costs, funds.value) <==> exists b :: PaidBy(costs, b, funds.value) by {
        assert forall b :: Owns(costs, b, funds.value) <==> PaidBy(costs, b, funds.value);
      }
    }
  }

  // ------------------------------------------------------------------- spent

  function JobCost(j: Job): int {
    CostOf(j.gas, j.maxFee)
  }

  /** The rows the ledger query joins to an attempt. */
  predicate Funds(costs: map<Attempt, Costs>, a: Attempt, j: Job) {
    || j.subject == AttemptId(a)
    || (j.kind == Publication && j.subject.PublicationId? && Owns(costs, a, j.subject.n))
  }

  function Spent(costs: map<Attempt, Costs>, jobs: seq<Job>, a: Attempt): int {
    if jobs == [] then 0
    else Spent(costs, jobs[..|jobs| - 1], a)
         + if Funds(costs, a, jobs[|jobs| - 1]) then JobCost(jobs[|jobs| - 1]) else 0
  }

  /** The tables as one process uses them. */
  class Ledger {
    const host: Host
    var costs: map<Attempt, Costs>
    var jobs: seq<Job>

    constructor (host: Host)
      ensures this.host == host && costs == map[] && jobs == []
    {
      this.host, costs, jobs := host, map[], [];
    }

    method Open(a: Attempt, unregistered: bool, price: int) returns (r: Result<Option<PerKind>, CostError>)
      modifies this`costs
      ensures var spec := OpenCosts(host, old(costs), a, unregistered, price);
              && r.Success? == spec.Success?
              && (r.Success? ==> costs == spec.value.0 && r.value == spec.value.1)
              && (r.Failure? ==> costs == old(costs) && r.error == spec.error)
      ensures r.Success? && r.value.Some? ==> a in costs && r.value == Some(costs[a].budgets)
      ensures r == Success(None) <==> PaidByAnother(host, old(costs), a, unregistered)
    {
      OpenAnswersExactly(host, costs, a, unregistered, price);
      if a in costs {
        if costs[a].budgets.Total() > (host.surplus)(a) { return Failure(OverBudget); }
        return Success(Some(costs[a].budgets));
      }
      var funds := if unregistered then (host.publicationOf)(a) else None;
      if funds.Some? && Owned(costs, funds.value) { return Success(None); }
      var budgets :- NewBudgets(host.gas, price, funds.Some?);
      if budgets.Total() > (host.surplus)(a) { return Failure(OverBudget); }
      costs := costs[a := Costs(funds, budgets)];
      return Success(Some(budgets));
    }

    /** The check inside the signing callback, summed row by row. */
    method MaySign(a: Attempt, gas: int, maxFee: int) returns (r: bool)
      ensures r <==> gas > 0 && maxFee > 0 && Spent(costs, jobs, a) + CostOf(gas, maxFee) <= (host.surplus)(a)
    {
      if gas <= 0 || maxFee <= 0 { return false; }
      var total := CostOf(gas, maxFee);
      for i := 0 to |jobs|
        invariant total == CostOf(gas, maxFee) + Spent(costs, jobs[..i], a)
      {
        assert jobs[..i + 1][..i] == jobs[..i];
        if Funds(costs, a, jobs[i]) {
          total := total + JobCost(jobs[i]);
        }
      }
      assert jobs[..|jobs|] == jobs;
      return total <= (host.surplus)(a);
    }
  }

  // ------------------------------------------------------------------- steps

  datatype Pending = Pending(a: Attempt, job: Job)

  datatype State = State(costs: map<Attempt, Costs>, jobs: seq<Job>, pending: map<nat, Pending>)

  datatype Action =
    | Open(a: Attempt, unregistered: bool, price: int)
    | Sign(p: nat, a: Attempt, job: Job)
    | Commit(p: nat)
    | Drop(p: nat)

  /** One lane per kind, subject and revision; only finalizations have revisions. */
  predicate SameLane(j: Job, k: Job) {
    j.kind == k.kind && j.subject == k.subject && j.revision == k.revision
  }

  predicate Unused(jobs: seq<Job>, j: Job) {
    forall i :: 0 <= i < |jobs| ==> !SameLane(jobs[i], j)
  }

  /** The job a dispatch of attempt a prepares: its subject, and a reward, its budget, that is positive and covers it. */
  predicate Dispatches(h: Host, costs: map<Attempt, Costs>, a: Attempt, j: Job) {
    && a in costs
    && (if j.kind == Publication then (h.publicationOf)(a).Some? && j.subject == PublicationId((h.publicationOf)(a).value)
        else j.subject == AttemptId(a))
    && (j.revision.Some? ==> j.kind == Finalization)
    && costs[a].budgets.Of(j.kind) > 0
    && Rewards.RequireCovered(costs[a].budgets.Of(j.kind), j.gas, j.maxFee).Success?
  }

  predicate Enabled(h: Host, s: State, act: Action) {
    match act
    case Open(a, unregistered, price) => OpenCosts(h, s.costs, a, unregistered, price).Success?
    case Sign(p, a, job) =>
      && p !in s.pending && Unused(s.jobs, job) && Dispatches(h, s.costs, a, job)
      && Spent(s.costs, s.jobs, a) + JobCost(job) <= (h.surplus)(a)
    case Commit(p) => p in s.pending && Unused(s.jobs, s.pending[p].job)
    case Drop(p) => p in s.pending
  }

  function Apply(h: Host, s: State, act: Action): State
    requires Enabled(h, s, act)
  {
    match act
    case Open(a, unregistered, price) => s.(costs := OpenCosts(h, s.costs, a, unregistered, price).value.0)
    case Sign(p, a, job) => s.(pending := s.pending[p := Pending(a, job)])
    case Commit(p) => s.(jobs := s.jobs + [s.pending[p].job], pending := s.pending - {p})
    case Drop(p) => s.(pending := s.pending - {p})
  }

  // ------------------------------------------------------------ any interleaving

  predicate RowOk(h: Host, c: Costs, a: Attempt) {
    && c.budgets.Total() <= (h.surplus)(a)
    && (forall k: Kind :: c.budgets.Of(k) >= 0)
    && (c.publication.Some? ==> c.publication == (h.publicationOf)(a))
    && (c.publication.None? ==> c.budgets.publication == 0)
  }

  ghost predicate CostsInv(h: Host, costs: map<Attempt, Costs>) {
    && (forall a :: a in costs ==> RowOk(h, costs[a], a))
    && (forall a, b, n :: Owns(costs, a, n) && Owns(costs, b, n) ==> a == b)
  }

  predicate JobOk(h: Host, costs: map<Attempt, Costs>, j: Job) {
    exists a :: a in costs && Dispatches(h, costs, a, j)
  }

  ghost predicate JobsInv(h: Host, s: State) {
    && (forall i :: 0 <= i < |s.jobs| ==> JobOk(h, s.costs, s.jobs[i]))
    && (forall i, j :: 0 <= i < |s.jobs| && 0 <= j < |s.jobs| && SameLane(s.jobs[i], s.jobs[j]) ==> i == j)
    && (forall p :: p in s.pending ==> Dispatches(h, s.costs, s.pending[p].a, s.pending[p].job))
  }

  lemma NewBudgetsOk(gas: PerKind, price: int, funds: bool)
    requires NewBudgets(gas, price, funds).Success?
    ensures forall k: Kind :: NewBudgets(gas, price, funds).value.Of(k) >= 0
    ensures !funds ==> NewBudgets(gas, price, funds).value.publication == 0
  {
  }

  /** An opening that writes adds one row, for a publication nobody paid for yet. */
  lemma OpenAdds(h: Host, costs: map<Attempt, Costs>, now: map<Attempt, Costs>, a: Attempt, unregistered: bool, price: int) returns (c: Costs)
    requires OpenCosts(h, costs, a, unregistered, price).Success? && now == OpenCosts(h, costs, a, unregistered, price).value.0
    requires now != costs
    ensures a !in costs && now == costs[a := c] && RowOk(h, c, a)
    ensures c.publication.Some? ==> !Owned(costs, c.publication.value)
  {
    var funds := if unregistered then (h.publicationOf)(a) else None;
    NewBudgetsOk(h.gas, price, funds.Some?);
    c := Costs(funds, NewBudgets(h.gas, price, funds.Some?).value);
  }

  /** A fixed cost row is never changed, and a publication keeps its one payer. */
  lemma OpenKeepsCosts(h: Host, costs: map<Attempt, Costs>, now: map<Attempt, Costs>, a: Attempt, unregistered: bool, price: int)
    requires CostsInv(h, costs)
    requires OpenCosts(h, costs, a, unregistered, price).Success? && now == OpenCosts(h, costs, a, unregistered, price).value.0
    ensures CostsInv(h, now)
    ensures forall b :: b in costs ==> b in now && now[b] == costs[b]
  {
    if now != costs {
      var c := OpenAdds(h, costs, now, a, unregistered, price);
      OneOwner(h, costs, a, c);
    }
  }

  lemma OneOwner(h: Host, costs: map<Attempt, Costs>, a: Attempt, c: Costs)
    requires CostsInv(h, costs) && a !in costs
    requires c.publication.Some? ==> !Owned(costs, c.publication.value)
    ensures var now := costs[a := c]; forall x, y, n :: Owns(now, x, n) && Owns(now, y, n) ==> x == y
  {
    var now := costs[a := c];
    forall x, y, n | Owns(now, x, n) && Owns(now, y, n)
      ensures x == y
    {
      assert x != a ==> Owns(costs, x, n);
      assert y != a ==> Owns(costs, y, n);
    }
  }

  /**
   A job is charged to the attempt that dispatched it and to nobody else.  For a
   publication this rests on the reward: only its payer's budget for it is not 0.
   */
  lemma ChargedToOne(h: Host, costs: map<Attempt, Costs>, a: Attempt, x: Attempt, j: Job)
    requires CostsInv(h, costs) && Dispatches(h, costs, a, j)
    ensures Funds(costs, x, j) <==> x == a
    ensures 0 <= JobCost(j) <= costs[a].budgets.Of(j.kind)
  {
    var c := costs[a];
    assert RowOk(h, c, a);
    Rewards.CostIsPositive(j.gas, j.maxFee);
    if j.kind == Publication {
      assert Owns(costs, a, j.subject.n);
    }
  }

  /** The budget a kind is paid from. */
  predicate WithinOwnBudget(b: PerKind, k: Kind, cost: int) {
    match k
    case Publication => cost <= b.publication
    case Preparation => cost <= b.preparation
    case Registration => cost <= b.registration
    case Observation => cost <= b.observation
    case Finalization => cost <= b.finalization
  }

  /** A job costs the least reward that covers its gas terms, which its own kind's budget can pay. */
  lemma JobPaidByItsKind(h: Host, costs: map<Attempt, Costs>, a: Attempt, j: Job)
    requires Dispatches(h, costs, a, j)
    ensures IsLeast(JobCost(j), j.gas * j.maxFee) && WithinOwnBudget(costs[a].budgets, j.kind, JobCost(j))
  {
    CostOfIsLeast(j.gas, j.maxFee);
  }

  /** What all jobs an attempt dispatched cost. */
  function DispatchedCost(h: Host, costs: map<Attempt, Costs>, jobs: seq<Job>, a: Attempt): int {
    if jobs == [] then 0
    else DispatchedCost(h, costs, jobs[..|jobs| - 1], a)
         + if Dispatches(h, costs, a, jobs[|jobs| - 1]) then JobCost(jobs[|jobs| - 1]) else 0
  }

  /** The ledger query adds up exactly the jobs the attempt dispatched. */
  lemma {:induction false} SpentIsDispatched(h: Host, costs: map<Attempt, Costs>, jobs: seq<Job>, a: Attempt)
    requires CostsInv(h, costs) && forall i :: 0 <= i < |jobs| ==> JobOk(h, costs, jobs[i])
    ensures Spent(costs, jobs, a) == DispatchedCost(h, costs, jobs, a)
  {
    if jobs != [] {
      var last := jobs[|jobs| - 1];
      SpentIsDispatched(h, costs, jobs[..|jobs| - 1], a);
      assert JobOk(h, costs, last);
      var b :| b in costs && Dispatches(h, costs, b, last);
      ChargedToOne(h, costs, b, a, last);
      if Dispatches(h, costs, a, last) {
        ChargedToOne(h, costs, a, b, last);
      }
    }
  }

  ghost predicate Grows(costs: map<Attempt, Costs>, now: map<Attempt, Costs>) {
    forall b :: b in costs ==> b in now && now[b] == costs[b]
  }

  lemma {:induction false} SpentIsStable(h: Host, costs: map<Attempt, Costs>, now: map<Attempt, Costs>, jobs: seq<Job>, x: Attempt)
    requires CostsInv(h, costs) && CostsInv(h, now) && Grows(costs, now)
    requires forall i :: 0 <= i < |jobs| ==> JobOk(h, costs, jobs[i])
    ensures Spent(now, jobs, x) == Spent(costs, jobs, x)
  {
    if jobs != [] {
      var last := jobs[|jobs| - 1];
      SpentIsStable(h, costs, now, jobs[..|jobs| - 1], x);
      var a :| a in costs && Dispatches(h, costs, a, last);
      ChargedToOne(h, costs, a, x, last);
      ChargedToOne(h, now, a, x, last);
    }
  }

  lemma SpentAppend(costs: map<Attempt, Costs>, jobs: seq<Job>, j: Job, x: Attempt)
    ensures Spent(costs, jobs + [j], x) == Spent(costs, jobs, x) + if Funds(costs, x, j) then JobCost(j) else 0
  {
  }

  lemma StepKeepsCosts(h: Host, s: State, u: State, act: Action)
    requires CostsInv(h, s.costs) && Enabled(h, s, act) && u == Apply(h, s, act)
    ensures CostsInv(h, u.costs) && Grows(s.costs, u.costs)
  {
    if act.Open? {
      OpenKeepsCosts(h, s.costs, u.costs, act.a, act.unregistered, act.price);
    }
  }

  lemma JobStaysOk(h: Host, costs: map<Attempt, Costs>, now: map<Attempt, Costs>, j: Job)
    requires JobOk(h, costs, j) && Grows(costs, now)
    ensures JobOk(h, now, j)
  {
  }

  lemma StepKeepsJobs(h: Host, s: State, u: State, act: Action)
    requires JobsInv(h, s) && Enabled(h, s, act) && u == Apply(h, s, act) && Grows(s.costs, u.costs)
    ensures JobsInv(h, u)
  {
    forall i | 0 <= i < |u.jobs|
      ensures JobOk(h, u.costs, u.jobs[i])
    {
      if i < |s.jobs| {
        JobStaysOk(h, s.costs, u.costs, s.jobs[i]);
      } else {
        assert Dispatches(h, u.costs, s.pending[act.p].a, u.jobs[i]);
      }
    }
  }

  ghost predicate Step(h: Host, s: State, u: State, act: Action) {
    Enabled(h, s, act) && u == Apply(h, s, act)
  }

  ghost predicate IsRun(h: Host, run: seq<State>, acts: seq<Action>) {
    && |run| == |acts| + 1 && run[0] == State(map[], [], map[])
    && forall i :: 0 <= i < |acts| ==> Step(h, run[i], run[i + 1], acts[i])
  }

  lemma {:induction false} RunKeepsInv(h: Host, run: seq<State>, acts: seq<Action>, i: nat)
    requires IsRun(h, run, acts) && i < |run|
    ensures CostsInv(h, run[i].costs) && JobsInv(h, run[i])
  {
    if i > 0 {
      RunKeepsInv(h, run, acts, i - 1);
      assert Step(h, run[i - 1], run[i - 1 + 1], acts[i - 1]);
      StepKeepsCosts(h, run[i - 1], run[i], acts[i - 1]);
      StepKeepsJobs(h, run[i - 1], run[i], acts[i - 1]);
    }
  }

  /** The five stored budgets stay within what the attempt may spend. */
  lemma BudgetsStayWithin(h: Host, run: seq<State>, acts: seq<Action>, i: nat, a: Attempt)
    requires IsRun(h, run, acts) && i < |run| && a in run[i].costs
    ensures run[i].costs[a].budgets.Total() <= (h.surplus)(a)
    ensures forall k: Kind :: run[i].costs[a].budgets.Of(k) >= 0
  {
    RunKeepsInv(h, run, acts, i);
    assert RowOk(h, run[i].costs[a], a);
  }

  lemma CostsGrow(h: Host, run: seq<State>, acts: seq<Action>, k: nat)
    requires IsRun(h, run, acts) && k < |acts|
    ensures Grows(run[k].costs, run[k + 1].costs)
  {
    RunKeepsInv(h, run, acts, k);
    assert Step(h, run[k], run[k + 1], acts[k]);
    StepKeepsCosts(h, run[k], run[k + 1], acts[k]);
  }

  lemma GrowsOn(a: map<Attempt, Costs>, b: map<Attempt, Costs>, c: map<Attempt, Costs>)
    requires Grows(a, b) && Grows(b, c)
    ensures Grows(a, c)
  {
  }

  /** What an attempt's costs are fixed to never changes. */
  lemma {:induction false} CostsAreFixed(h: Host, run: seq<State>, acts: seq<Action>, i: nat, j: nat)
    requires IsRun(h, run, acts) && i <= j < |run|
    ensures Grows(run[i].costs, run[j].costs)
    decreases j - i
  {
    if i < j {
      CostsGrow(h, run, acts, i);
      CostsAreFixed(h, run, acts, i + 1, j);
      GrowsOn(run[i].costs, run[i + 1].costs, run[j].costs);
    }
  }

  /** What the k-th action, an opening, answers. */
  function Answered(h: Host, run: seq<State>, acts: seq<Action>, k: nat): Option<PerKind>
    requires k < |acts| < |run| && acts[k].Open? && Enabled(h, run[k], acts[k])
  {
    OpenCosts(h, run[k].costs, acts[k].a, acts[k].unregistered, acts[k].price).value.1
  }

  /** Any two openings of an attempt that answer with budgets answer the same ones. */
  lemma AnswersAgree(h: Host, run: seq<State>, acts: seq<Action>, i: nat, j: nat)
    requires IsRun(h, run, acts) && i < j < |acts| && acts[i].Open? && acts[j].Open? && acts[i].a == acts[j].a
    ensures Enabled(h, run[i], acts[i]) && Enabled(h, run[j], acts[j])
    ensures Answered(h, run, acts, i).Some? ==> Answered(h, run, acts, j) == Answered(h, run, acts, i)
  {
    assert Step(h, run[i], run[i + 1], acts[i]);
    assert Step(h, run[j], run[j + 1], acts[j]);
    OpenAnswersExactly(h, run[i].costs, acts[i].a, acts[i].unregistered, acts[i].price);
    OpenAnswersExactly(h, run[j].costs, acts[j].a, acts[j].unregistered, acts[j].price);
    if Answered(h, run, acts, i).Some? {
      CostsAreFixed(h, run, acts, i + 1, j);
    }
  }

  /** Whatever the chain said when each attempt looked, a publication is retained for its one payer. */
  lemma PublicationHasOnePayer(h: Host, run: seq<State>, acts: seq<Action>, i: nat, x: nat, a: Attempt, b: Attempt)
    requires IsRun(h, run, acts) && i < |run| && x < |run[i].jobs| && run[i].jobs[x].kind == Publication
    requires Dispatches(h, run[i].costs, a, run[i].jobs[x]) && Dispatches(h, run[i].costs, b, run[i].jobs[x])
    ensures a == b && run[i].costs[a].publication == (h.publicationOf)(a)
    ensures Funds(run[i].costs, a, run[i].jobs[x])
  {
    RunKeepsInv(h, run, acts, i);
    ChargedToOne(h, run[i].costs, a, a, run[i].jobs[x]);
    ChargedToOne(h, run[i].costs, b, a, run[i].jobs[x]);
    assert RowOk(h, run[i].costs[a], a);
  }

  // ------------------------------------------------------ apart from the lease

  /** What an attempt's jobs of one kind cost. */
  function SpentOn(costs: map<Attempt, Costs>, jobs: seq<Job>, a: Attempt, k: Kind): int {
    if jobs == [] then 0
    else SpentOn(costs, jobs[..|jobs| - 1], a, k)
         + if Funds(costs, a, jobs[|jobs| - 1]) && jobs[|jobs| - 1].kind == k then JobCost(jobs[|jobs| - 1]) else 0
  }

  function Finalizations(costs: map<Attempt, Costs>, jobs: seq<Job>, a: Attempt): nat {
    if jobs == [] then 0
    else Finalizations(costs, jobs[..|jobs| - 1], a)
         + if Funds(costs, a, jobs[|jobs| - 1]) && jobs[|jobs| - 1].kind == Finalization then 1 else 0
  }

  lemma {:induction false} SpentByKind(costs: map<Attempt, Costs>, jobs: seq<Job>, a: Attempt)
    ensures Spent(costs, jobs, a) ==
              SpentOn(costs, jobs, a, Publication) + SpentOn(costs, jobs, a, Preparation) + SpentOn(costs, jobs, a, Registration)
              + SpentOn(costs, jobs, a, Observation) + SpentOn(costs, jobs, a, Finalization)
  {
    if jobs != [] {
      SpentByKind(costs, jobs[..|jobs| - 1], a);
    }
  }

  ghost predicate LanesUsedOnce(h: Host, costs: map<Attempt, Costs>, jobs: seq<Job>) {
    && (forall i :: 0 <= i < |jobs| ==> JobOk(h, costs, jobs[i]))
    && (forall i, j :: 0 <= i < |jobs| && 0 <= j < |jobs| && SameLane(jobs[i], jobs[j]) ==> i == j)
  }

  lemma {:induction false} NothingSpentOn(costs: map<Attempt, Costs>, jobs: seq<Job>, a: Attempt, k: Kind)
    requires forall i :: 0 <= i < |jobs| && jobs[i].kind == k ==> !Funds(costs, a, jobs[i])
    ensures SpentOn(costs, jobs, a, k) == 0
  {
    if jobs != [] {
      NothingSpentOn(costs, jobs[..|jobs| - 1], a, k);
    }
  }

  /** A kind without revisions has one lane for the attempt, so its budget bounds what it costs. */
  lemma {:induction false} OnceWithinBudget(h: Host, costs: map<Attempt, Costs>, jobs: seq<Job>, a: Attempt, k: Kind)
    requires CostsInv(h, costs) && LanesUsedOnce(h, costs, jobs) && a in costs && k != Finalization
    ensures SpentOn(costs, jobs, a, k) <= costs[a].budgets.Of(k)
  {
    assert RowOk(h, costs[a], a);
    if jobs != [] {
      var init, last := jobs[..|jobs| - 1], jobs[|jobs| - 1];
      if Funds(costs, a, last) && last.kind == k {
        var b :| b in costs && Dispatches(h, costs, b, last);
        ChargedToOne(h, costs, b, a, last);
        forall i | 0 <= i < |init| && init[i].kind == k
          ensures !Funds(costs, a, init[i])
        {
          SameKindSameLane(h, costs, a, init[i], last);
          assert init[i] == jobs[i];
        }
        NothingSpentOn(costs, init, a, k);
      } else {
        assert forall i :: 0 <= i < |init| ==> init[i] == jobs[i];
        OnceWithinBudget(h, costs, init, a, k);
      }
    }
  }

  lemma SameKindSameLane(h: Host, costs: map<Attempt, Costs>, a: Attempt, i: Job, j: Job)
    requires CostsInv(h, costs) && JobOk(h, costs, i) && JobOk(h, costs, j)
    requires i.kind == j.kind != Finalization && Funds(costs, a, j)
    ensures Funds(costs, a, i) ==> SameLane(i, j)
  {
  }

  lemma {:induction false} FinalizationsWithinBudget(h: Host, costs: map<Attempt, Costs>, jobs: seq<Job>, a: Attempt)
    requires CostsInv(h, costs) && a in costs && forall i :: 0 <= i < |jobs| ==> JobOk(h, costs, jobs[i])
    ensures SpentOn(costs, jobs, a, Finalization) <= Finalizations(costs, jobs, a) * costs[a].budgets.finalization
  {
    if jobs != [] {
      var init, last := jobs[..|jobs| - 1], jobs[|jobs| - 1];
      assert forall i :: 0 <= i < |init| ==> init[i] == jobs[i];
      FinalizationsWithinBudget(h, costs, init, a);
      var b :| b in costs && Dispatches(h, costs, b, last);
      ChargedToOne(h, costs, b, a, last);
      OneMore(Finalizations(costs, init, a), costs[a].budgets.finalization);
    }
  }

  lemma OneMore(n: int, b: int)
    ensures (n + 1) * b == n * b + b
  {
  }

  /**
   However dispatches overlap, an attempt overspends by at most one finalization
   budget per finalization after its first; with one finalization it cannot.
   */
  lemma OverspendingIsBounded(h: Host, run: seq<State>, acts: seq<Action>, i: nat, a: Attempt)
    requires IsRun(h, run, acts) && i < |run| && a in run[i].costs
    ensures var s := run[i];
            var f := Finalizations(s.costs, s.jobs, a);
            && (f <= 1 ==> Spent(s.costs, s.jobs, a) <= (h.surplus)(a))
            && (f >= 1 ==> Spent(s.costs, s.jobs, a) <= (h.surplus)(a) + (f - 1) * s.costs[a].budgets.finalization)
  {
    RunKeepsInv(h, run, acts, i);
    BoundByKind(h, run[i].costs, run[i].jobs, a);
  }

  lemma BoundByKind(h: Host, costs: map<Attempt, Costs>, jobs: seq<Job>, a: Attempt)
    requires CostsInv(h, costs) && LanesUsedOnce(h, costs, jobs) && a in costs
    ensures var f := Finalizations(costs, jobs, a);
            && (f <= 1 ==> Spent(costs, jobs, a) <= (h.surplus)(a))
            && (f >= 1 ==> Spent(costs, jobs, a) <= (h.surplus)(a) + (f - 1) * costs[a].budgets.finalization)
  {
    SpentByKind(costs, jobs, a);
    EveryKindWithin(h, costs, jobs, a);
    var f: int, b := Finalizations(costs, jobs, a), costs[a].budgets.finalization;
    assert costs[a].budgets.Of(Finalization) >= 0;
    OneMore(f - 1, b);
    assert f == 0 ==> f * b == 0;
  }

  lemma EveryKindWithin(h: Host, costs: map<Attempt, Costs>, jobs: seq<Job>, a: Attempt)
    requires CostsInv(h, costs) && LanesUsedOnce(h, costs, jobs) && a in costs
    ensures RowOk(h, costs[a], a)
    ensures SpentOn(costs, jobs, a, Publication) + SpentOn(costs, jobs, a, Preparation) + SpentOn(costs, jobs, a, Registration)
            + SpentOn(costs, jobs, a, Observation) <= costs[a].budgets.Total() - costs[a].budgets.finalization
    ensures SpentOn(costs, jobs, a, Finalization) <= Finalizations(costs, jobs, a) * costs[a].budgets.finalization
  {
    OnceWithinBudget(h, costs, jobs, a, Publication);
    OnceWithinBudget(h, costs, jobs, a, Preparation);
    OnceWithinBudget(h, costs, jobs, a, Registration);
    OnceWithinBudget(h, costs, jobs, a, Observation);
    FinalizationsWithinBudget(h, costs, jobs, a);
  }

  // --------------------------------------------------------- under the lease

  /** No other dispatch of the attempt is between its signature and its commit. */
  ghost predicate Alone(s: State, a: Attempt) {
    forall q :: q in s.pending ==> s.pending[q].a != a
  }

  ghost predicate Leased(run: seq<State>, acts: seq<Action>) {
    forall i :: 0 <= i < |acts| && i < |run| && acts[i].Sign? ==> Alone(run[i], acts[i].a)
  }

  ghost predicate SpentInv(h: Host, s: State) {
    && (forall a :: a in s.costs ==> Spent(s.costs, s.jobs, a) <= (h.surplus)(a))
    && (forall p :: p in s.pending ==> var x := s.pending[p]; Spent(s.costs, s.jobs, x.a) + JobCost(x.job) <= (h.surplus)(x.a))
    && (forall p, q :: p in s.pending && q in s.pending && s.pending[p].a == s.pending[q].a ==> p == q)
  }

  lemma OpenKeepsSpent(h: Host, s: State, u: State, act: Action)
    requires CostsInv(h, s.costs) && JobsInv(h, s) && SpentInv(h, s)
    requires act.Open? && Step(h, s, u, act) && CostsInv(h, u.costs) && Grows(s.costs, u.costs)
    ensures SpentInv(h, u)
  {
    forall a
      ensures Spent(u.costs, u.jobs, a) == Spent(s.costs, s.jobs, a)
    {
      SpentIsStable(h, s.costs, u.costs, s.jobs, a);
    }
    forall a | a in u.costs && a !in s.costs
      ensures Spent(u.costs, u.jobs, a) <= (h.surplus)(a)
    {
      assert RowOk(h, u.costs[a], a);
      assert u.costs[a].budgets.Of(Publication) >= 0 && u.costs[a].budgets.Of(Preparation) >= 0 && u.costs[a].budgets.Of(Registration) >= 0;
      assert u.costs[a].budgets.Of(Observation) >= 0 && u.costs[a].budgets.Of(Finalization) >= 0;
      NothingForStranger(h, s.costs, s.jobs, a);
    }
  }

  lemma {:induction false} NothingForStranger(h: Host, costs: map<Attempt, Costs>, jobs: seq<Job>, a: Attempt)
    requires CostsInv(h, costs) && a !in costs && forall i :: 0 <= i < |jobs| ==> JobOk(h, costs, jobs[i])
    ensures Spent(costs, jobs, a) == 0
  {
    if jobs != [] {
      NothingForStranger(h, costs, jobs[..|jobs| - 1], a);
      assert JobOk(h, costs, jobs[|jobs| - 1]);
      var b :| b in costs && Dispatches(h, costs, b, jobs[|jobs| - 1]);
      ChargedToOne(h, costs, b, a, jobs[|jobs| - 1]);
    }
  }

  lemma CommitKeepsSpent(h: Host, s: State, u: State, p: nat)
    requires CostsInv(h, s.costs) && JobsInv(h, s) && SpentInv(h, s) && Step(h, s, u, Commit(p))
    ensures SpentInv(h, u)
  {
    var x := s.pending[p];
    forall a
      ensures Spent(u.costs, u.jobs, a) == Spent(s.costs, s.jobs, a) + if a == x.a then JobCost(x.job) else 0
    {
      SpentAppend(s.costs, s.jobs, x.job, a);
      ChargedToOne(h, s.costs, x.a, a, x.job);
    }
  }

  lemma {:induction false} LeasedRunKeepsSpent(h: Host, run: seq<State>, acts: seq<Action>, i: nat)
    requires IsRun(h, run, acts) && Leased(run, acts) && i < |run|
    ensures SpentInv(h, run[i])
  {
    if i > 0 {
      LeasedRunKeepsSpent(h, run, acts, i - 1);
      RunKeepsInv(h, run, acts, i - 1);
      RunKeepsInv(h, run, acts, i);
      assert Step(h, run[i - 1], run[i - 1 + 1], acts[i - 1]);
      match acts[i - 1]
      case Open(_, _, _) =>
        StepKeepsCosts(h, run[i - 1], run[i], acts[i - 1]);
        OpenKeepsSpent(h, run[i - 1], run[i], acts[i - 1]);
      case Commit(p) => CommitKeepsSpent(h, run[i - 1], run[i], p);
      case Sign(_, a, _) => assert Alone(run[i - 1], a);
      case Drop(_) =>
    }
  }

  /**
   While the lease keeps the dispatches of an attempt apart, everything signed
   for it, each finalization revision and an owned publication included, costs at
   most what it may spend.
   */
  lemma LeasedSpendingStaysWithin(h: Host, run: seq<State>, acts: seq<Action>, i: nat, a: Attempt)
    requires IsRun(h, run, acts) && Leased(run, acts) && i < |run| && a in run[i].costs
    ensures Spent(run[i].costs, run[i].jobs, a) <= (h.surplus)(a)
  {
    LeasedRunKeepsSpent(h, run, acts, i);
  }

  // One attempt may spend 13; its finalization is budgeted 10 and three other kinds 1 each.
  const BUDGETS := PerKind(0, 1, 1, 1, 10)
  const HOST := Host((a: Attempt) => 13, (a: Attempt) => None, PerKind(1, 1, 1, 1, 9_000_000_000_000))
  const FIRST := Job(Finalization, AttemptId(0), Some(1), 9_000_000_000_000, 1)
  const SECOND := FIRST.(revision := Some(2))
  const FIXED: map<Attempt, Costs> := map[0 := Costs(None, BUDGETS)]

  lemma OverlapOpens()
    ensures Step(HOST, State(map[], [], map[]), State(FIXED, [], map[]), Open(0, false, 1))
  {
  }

  lemma OverlapSigns(pending: map<nat, Pending>, p: nat, revision: nat)
    requires p !in pending
    ensures var job := FIRST.(revision := Some(revision));
            Step(HOST, State(FIXED, [], pending), State(FIXED, [], pending[p := Pending(0, job)]), Sign(p, 0, job))
  {
  }

  /** Without that, two finalizations signed on the same reading of the ledger overspend. */
  lemma OverlapOverspends() returns (run: seq<State>, acts: seq<Action>)
    ensures IsRun(HOST, run, acts) && 0 in run[|acts|].costs
    ensures Spent(run[|acts|].costs, run[|acts|].jobs, 0) > (HOST.surplus)(0)
  {
    acts := [Open(0, false, 1), Sign(1, 0, FIRST), Sign(2, 0, SECOND), Commit(1), Commit(2)];
    run := [State(map[], [], map[]), State(FIXED, [], map[]), State(FIXED, [], map[1 := Pending(0, FIRST)]),
            State(FIXED, [], BOTH), State(FIXED, [FIRST], map[2 := Pending(0, SECOND)]), State(FIXED, [FIRST, SECOND], map[])];
    OverlapOpens();
    OverlapSigns(map[], 1, 1);
    OverlapSigns(map[1 := Pending(0, FIRST)], 2, 2);
    OverlapCommits();
    OverlapSpends();
  }

  const BOTH: map<nat, Pending> := map[1 := Pending(0, FIRST), 2 := Pending(0, SECOND)]

  lemma OverlapCommits()
    ensures Step(HOST, State(FIXED, [], BOTH), State(FIXED, [FIRST], map[2 := Pending(0, SECOND)]), Commit(1))
    ensures Step(HOST, State(FIXED, [FIRST], map[2 := Pending(0, SECOND)]), State(FIXED, [FIRST, SECOND], map[]), Commit(2))
  {
  }

  lemma OverlapSpends()
    ensures Spent(FIXED, [FIRST, SECOND], 0) == 20
  {
    SpentAppend(FIXED, [], FIRST, 0);
    SpentAppend(FIXED, [FIRST], SECOND, 0);
    assert [] + [FIRST] == [FIRST] && [FIRST] + [SECOND] == [FIRST, SECOND];
    assert CostOf(9_000_000_000_000, 1) == 10;
  }
}
