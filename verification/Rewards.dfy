/**
 Relay rewards: the ceiling division that covers a gas cost with its ten percent
 margin, the split of a source reward over the recipients, and the parts each
 recipient's quote is divided into.
 */
module Rewards {
  import opened Wrappers

  datatype RewardError = NotPositive | AboveMaximum | BadCount | AboveCeiling | Uncovered

  /** One microdollar in attodollars, times the hundred that the margin of 110 is taken of. */
  const DIVISOR := 100 * 1_000_000_000_000

  function CostCoveringReward(gas: int, price: int): Result<int, RewardError> {
    if gas <= 0 || price <= 0 then Failure(NotPositive)
    else Success((gas * price * 110 + DIVISOR - 1) / DIVISOR)
  }

  /** The reward a guard demands. */
  function RequireCovered(reward: int, gas: int, price: int): Result<(), RewardError> {
    var cost :- CostCoveringReward(gas, price);
    if reward < cost then Failure(Uncovered) else Success(())
  }

  // ------------------------------------------------------- what covering means

  /** A reward that pays gas times price with the ten percent margin. */
  predicate Covers(reward: int, attodollars: int) {
    reward * 100_000_000_000_000 >= attodollars * 110
  }

  /** The computed reward is the least one that covers; so the guard passes exactly on the rewards that cover. */
  lemma LeastCovering(gas: int, price: int, reward: int)
    requires gas > 0 && price > 0
    ensures CostCoveringReward(gas, price).Success? && CostCoveringReward(gas, price).value > 0
    ensures Covers(reward, gas * price) <==> reward >= CostCoveringReward(gas, price).value
    ensures RequireCovered(reward, gas, price).Success? <==> Covers(reward, gas * price)
  {
  }

  /** A dearer transaction never costs less. */
  lemma CostIsMonotone(gas: int, price: int, quotedGas: int, quotedPrice: int)
    requires 0 < gas <= quotedGas && 0 < price <= quotedPrice
    ensures CostCoveringReward(gas, price).value <= CostCoveringReward(quotedGas, quotedPrice).value
  {
    Dearer(gas, price, quotedGas, quotedPrice);
    LeastCovering(gas, price, CostCoveringReward(quotedGas, quotedPrice).value);
    LeastCovering(quotedGas, quotedPrice, CostCoveringReward(quotedGas, quotedPrice).value);
  }

  lemma Dearer(gas: int, price: int, quotedGas: int, quotedPrice: int)
    requires 0 < gas <= quotedGas && 0 < price <= quotedPrice
    ensures gas * price <= quotedGas * quotedPrice
  {
  }

  /** Covering two costs separately covers their sum, and costs at most one unit more than covering it at once. */
  lemma CostIsSubadditive(a: int, p: int, b: int, q: int)
    requires a > 0 && p > 0 && b > 0 && q > 0
    ensures var whole := CostCoveringReward(1, a * p + b * q);
            var parts := CostCoveringReward(a, p).value + CostCoveringReward(b, q).value;
            whole.Success? && whole.value <= parts <= whole.value + 1
  {
  }

  // ------------------------------------------------------------------ the quote

  datatype Policy = Policy(singleSourceMaximum: int, batchSourceMaximum: int, childMaximum: int, childQuote: int)

  datatype ChildGas = ChildGas(acceptance: int, confirmation: int, submission: int, completion: int)

  datatype ChildQuote = ChildQuote(sourceExecutorFeeAllocation: int, sourceGroupReward: int,
                                   sourceRecipientCount: nat, sourceRecipientIndex: nat,
                                   submissionReimbursement: int, deliverySuccessFee: int,
                                   maxOperatorFee: int, totalReward: int)

  function ValidatePolicy(p: Policy): Result<(), RewardError> {
    if !(0 <= p.singleSourceMaximum <= 5000 && 0 <= p.batchSourceMaximum <= 10000
         && 0 <= p.childMaximum <= 20000 && 0 <= p.childQuote <= 20000)
    then Failure(AboveMaximum)
    else if p.childQuote > p.childMaximum then Failure(AboveCeiling)
    else Success(())
  }

  function QuoteSource(gas: int, price: int, count: int, p: Policy): Result<int, RewardError> {
    var _ :- ValidatePolicy(p);
    if count < 1 || count > 10 then Failure(BadCount)
    else
      var reward :- CostCoveringReward(gas, price);
      if reward > (if count == 1 then p.singleSourceMaximum else p.batchSourceMaximum)
      then Failure(AboveCeiling)
      else Success(reward)
  }

  /** The share of recipient `index`: the remainder goes to the first recipients, one unit each. */
  function Allocation(reward: int, count: nat, index: nat): int
    requires count > 0
  {
    reward / count + if index < reward % count then 1 else 0
  }

  function QuoteChild(gas: ChildGas, price: int, sourceReward: int, count: nat, index: nat, p: Policy): Result<ChildQuote, RewardError>
    requires count > 0
  {
    var share := Allocation(sourceReward, count, index);
    var acceptance :- CostCoveringReward(gas.acceptance, price);
    var confirmation :- CostCoveringReward(gas.confirmation, price);
    var submission :- CostCoveringReward(gas.submission, price);
    var minimumDelivery :- CostCoveringReward(gas.completion, price);
    var reimbursement := acceptance + confirmation + submission;
    if share + reimbursement + minimumDelivery > p.childQuote then Failure(Uncovered)
    else Success(ChildQuote(share, sourceReward, count, index, reimbursement,
                            p.childQuote - share - reimbursement, p.childMaximum, p.childQuote))
  }

  /** The quotes of the children from `index` on. */
  function QuoteChildren(children: seq<ChildGas>, index: nat, price: int, sourceReward: int, p: Policy): Result<seq<ChildQuote>, RewardError>
    requires index <= |children|
    decreases |children| - index
  {
    if index == |children| then Success([])
    else
      var first :- QuoteChild(children[index], price, sourceReward, |children|, index, p);
      var rest :- QuoteChildren(children, index + 1, price, sourceReward, p);
      Success([first] + rest)
  }

  datatype Quote = Quote(sourceReward: int, children: seq<ChildQuote>)

  function QuoteCrossChain(sourceGas: int, price: int, children: seq<ChildGas>, p: Policy): Result<Quote, RewardError> {
    var sourceReward :- QuoteSource(sourceGas, price, |children|, p);
    var quotes :- QuoteChildren(children, 0, price, sourceReward, p);
    Success(Quote(sourceReward, quotes))
  }

  // ------------------------------------------------------- when there is a quote

  /** The least reward that covers, or 0 where nothing can be priced. */
  function Least(gas: int, price: int): int {
    if gas > 0 && price > 0 then CostCoveringReward(gas, price).value else 0
  }

  /** The bounds nobody may configure away, and a quote within its own maximum. */
  predicate WithinBounds(p: Policy) {
    && 0 <= p.singleSourceMaximum <= 5000 && 0 <= p.batchSourceMaximum <= 10000
    && 0 <= p.childQuote <= p.childMaximum <= 20000
  }

  /** A single recipient's source is held to the single ceiling, several recipients' to the batch ceiling. */
  predicate SourceWithinCeiling(reward: int, count: nat, p: Policy) {
    (count == 1 ==> reward <= p.singleSourceMaximum) && (count >= 2 ==> reward <= p.batchSourceMaximum)
  }

  predicate Priced(gas: ChildGas) {
    gas.acceptance > 0 && gas.confirmation > 0 && gas.submission > 0 && gas.completion > 0
  }

  /** What is set aside for a recipient before its delivery: its share of the source and its three transactions. */
  function SetAside(gas: ChildGas, price: int, sourceReward: int, count: nat, index: nat): int
    requires count > 0
  {
    Allocation(sourceReward, count, index) + Least(gas.acceptance, price) + Least(gas.confirmation, price) + Least(gas.submission, price)
  }

  lemma ChildQuotedExactly(gas: ChildGas, price: int, reward: int, count: nat, index: nat, p: Policy)
    requires count > 0 && price > 0
    ensures var r := QuoteChild(gas, price, reward, count, index, p);
            && (r.Success? <==> Priced(gas) && SetAside(gas, price, reward, count, index) + Least(gas.completion, price) <= p.childQuote)
            && (r.Success? ==>
                  && r.value.sourceExecutorFeeAllocation + r.value.submissionReimbursement == SetAside(gas, price, reward, count, index)
                  && r.value.sourceExecutorFeeAllocation == Allocation(reward, count, index)
                  && r.value.deliverySuccessFee == p.childQuote - SetAside(gas, price, reward, count, index)
                  && r.value.sourceGroupReward == reward && r.value.maxOperatorFee == p.childMaximum && r.value.totalReward == p.childQuote)
  {
  }

  lemma {:induction false} QuotedExactlyFrom(children: seq<ChildGas>, index: nat, price: int, reward: int, p: Policy)
    requires index <= |children| && price > 0
    ensures QuoteChildren(children, index, price, reward, p).Success? <==>
              forall k :: index <= k < |children| ==> QuoteChild(children[k], price, reward, |children|, k, p).Success?
    decreases |children| - index
  {
    if index < |children| {
      QuotedExactlyFrom(children, index + 1, price, reward, p);
    }
  }

  /**
   There is a quote exactly when the policy is within its bounds, there are one to
   ten recipients, everything is priced, the source is within its ceiling, and
   each recipient's quote covers its share, its transactions and its delivery.
   */
  lemma QuotesExactly(sourceGas: int, price: int, children: seq<ChildGas>, p: Policy)
    ensures QuoteCrossChain(sourceGas, price, children, p).Success? <==>
              && WithinBounds(p) && 1 <= |children| <= 10 && sourceGas > 0 && price > 0
              && SourceWithinCeiling(Least(sourceGas, price), |children|, p)
              && forall k :: 0 <= k < |children| ==>
                   && Priced(children[k])
                   && SetAside(children[k], price, Least(sourceGas, price), |children|, k) + Least(children[k].completion, price) <= p.childQuote
    ensures QuoteCrossChain(sourceGas, price, children, p).Success? ==>
              QuoteCrossChain(sourceGas, price, children, p).value.sourceReward == Least(sourceGas, price)
  {
    SourceQuotedExactly(sourceGas, price, |children|, p);
    if QuoteSource(sourceGas, price, |children|, p).Success? {
      QuotedExactlyFrom(children, 0, price, Least(sourceGas, price), p);
      forall k | 0 <= k < |children|
        ensures QuoteChild(children[k], price, Least(sourceGas, price), |children|, k, p).Success? <==>
                  Priced(children[k])
                  && SetAside(children[k], price, Least(sourceGas, price), |children|, k) + Least(children[k].completion, price) <= p.childQuote
      {
        ChildQuotedExactly(children[k], price, Least(sourceGas, price), |children|, k, p);
      }
    }
  }

  lemma SourceQuotedExactly(gas: int, price: int, count: nat, p: Policy)
    ensures var r := QuoteSource(gas, price, count, p);
            && (r.Success? <==> WithinBounds(p) && 1 <= count <= 10 && gas > 0 && price > 0 && SourceWithinCeiling(Least(gas, price), count, p))
            && (r.Success? ==> r.value == Least(gas, price))
  {
  }

  // --------------------------------------------------------- conservation

  function SumAllocations(quotes: seq<ChildQuote>): int {
    if quotes == [] then 0 else quotes[0].sourceExecutorFeeAllocation + SumAllocations(quotes[1..])
  }

  function Min(a: int, b: int): int {
    if a < b then a else b
  }

  lemma {:induction false} QuotedOneByOne(children: seq<ChildGas>, index: nat, price: int, sourceReward: int, p: Policy)
    requires index <= |children| && QuoteChildren(children, index, price, sourceReward, p).Success?
    ensures var quotes := QuoteChildren(children, index, price, sourceReward, p).value;
            && |quotes| == |children| - index
            && forall k :: 0 <= k < |quotes| ==>
                 QuoteChild(children[index + k], price, sourceReward, |children|, index + k, p) == Success(quotes[k])
    decreases |children| - index
  {
    if index < |children| {
      QuotedOneByOne(children, index + 1, price, sourceReward, p);
      var quotes := QuoteChildren(children, index, price, sourceReward, p).value;
      forall k | 0 <= k < |quotes|
        ensures QuoteChild(children[index + k], price, sourceReward, |children|, index + k, p) == Success(quotes[k])
      {
        if k > 0 {
          var j := k - 1;
          assert quotes[k] == quotes[1..][j];
        }
      }
    }
  }

  /** What stands behind the k-th quote. */
  lemma QuotedAt(sourceGas: int, price: int, children: seq<ChildGas>, p: Policy, k: nat)
    requires QuoteCrossChain(sourceGas, price, children, p).Success? && k < |children|
    ensures var q := QuoteCrossChain(sourceGas, price, children, p).value;
            && 0 < |q.children| == |children|
            && QuoteSource(sourceGas, price, |children|, p) == Success(q.sourceReward)
            && QuoteChild(children[k], price, q.sourceReward, |children|, k, p) == Success(q.children[k])
  {
    var q := QuoteCrossChain(sourceGas, price, children, p).value;
    QuotedOneByOne(children, 0, price, q.sourceReward, p);
    assert QuoteChild(children[0 + k], price, q.sourceReward, |children|, 0 + k, p) == Success(q.children[k]);
  }

  lemma SharesAreEven(reward: int, count: nat, i: nat, j: nat)
    requires count > 0 && i <= j && reward >= 0
    ensures 0 <= Allocation(reward, count, j) <= Allocation(reward, count, i) <= Allocation(reward, count, j) + 1
  {
  }

  lemma {:induction false} SharesFrom(quotes: seq<ChildQuote>, index: nat, count: nat, reward: int)
    requires count > 0 && index + |quotes| == count
    requires forall k :: 0 <= k < |quotes| ==> quotes[k].sourceExecutorFeeAllocation == Allocation(reward, count, index + k)
    ensures SumAllocations(quotes) ==
              (count - index) * (reward / count) + (reward % count - Min(reward % count, index))
    decreases |quotes|
  {
    if quotes != [] {
      SharesFrom(quotes[1..], index + 1, count, reward);
      assert quotes[0].sourceExecutorFeeAllocation == Allocation(reward, count, index + 0);
      assert (count - index) * (reward / count) == (count - (index + 1)) * (reward / count) + reward / count;
    }
  }

  /** Every unit of the source reward is allocated once, and no two recipients' shares differ by more than one. */
  lemma SourceRewardIsConserved(sourceGas: int, price: int, children: seq<ChildGas>, p: Policy)
    requires QuoteCrossChain(sourceGas, price, children, p).Success?
    ensures var q := QuoteCrossChain(sourceGas, price, children, p).value;
            && SumAllocations(q.children) == q.sourceReward
            && (forall i, j :: 0 <= i <= j < |q.children| ==>
                  var a, b := q.children[i].sourceExecutorFeeAllocation, q.children[j].sourceExecutorFeeAllocation;
                  b <= a <= b + 1)
  {
    var q := QuoteCrossChain(sourceGas, price, children, p).value;
    var n := |children|;
    QuotedAt(sourceGas, price, children, p, 0);
    LeastCovering(sourceGas, price, 0);
    forall k | 0 <= k < n
      ensures q.children[k].sourceExecutorFeeAllocation == Allocation(q.sourceReward, n, k)
    {
      QuotedAt(sourceGas, price, children, p, k);
    }
    SharesFrom(q.children, 0, n, q.sourceReward);
    WholeAndRemainder(q.sourceReward, n);
    forall i, j | 0 <= i <= j < n
      ensures var a, b := q.children[i].sourceExecutorFeeAllocation, q.children[j].sourceExecutorFeeAllocation;
              b <= a <= b + 1
    {
      SharesAreEven(q.sourceReward, n, i, j);
    }
  }

  lemma WholeAndRemainder(reward: int, count: nat)
    requires count > 0
    ensures count * (reward / count) + reward % count == reward
    ensures Min(reward % count, 0) == 0
  {
  }

  lemma CostIsPositive(gas: int, price: int)
    requires CostCoveringReward(gas, price).Success?
    ensures CostCoveringReward(gas, price).value >= 1
  {
  }

  predicate PartsTotal(c: ChildQuote, p: Policy) {
    && c.sourceExecutorFeeAllocation + c.submissionReimbursement + c.deliverySuccessFee == p.childQuote == c.totalReward
    && c.sourceExecutorFeeAllocation >= 0 && c.submissionReimbursement >= 3 && c.deliverySuccessFee >= 1
    && c.totalReward <= c.maxOperatorFee == p.childMaximum
  }

  lemma ChildParts(gas: ChildGas, price: int, reward: int, count: nat, index: nat, p: Policy)
    requires count > 0 && reward >= 0 && p.childQuote <= p.childMaximum
    requires QuoteChild(gas, price, reward, count, index, p).Success?
    ensures PartsTotal(QuoteChild(gas, price, reward, count, index, p).value, p)
    ensures QuoteChild(gas, price, reward, count, index, p).value.deliverySuccessFee >= CostCoveringReward(gas.completion, price).value
  {
  }

  /** The three parts of a recipient's reward total the quote, none is negative, and the fee left covers delivery. */
  lemma PartsTotalTheQuote(sourceGas: int, price: int, children: seq<ChildGas>, p: Policy, k: nat)
    requires QuoteCrossChain(sourceGas, price, children, p).Success? && k < |children|
    ensures var q := QuoteCrossChain(sourceGas, price, children, p).value;
            && |q.children| == |children| <= 10
            && PartsTotal(q.children[k], p) && p.childMaximum <= 20000
            && q.children[k].sourceRecipientIndex == k && q.children[k].sourceRecipientCount == |children|
    ensures CostCoveringReward(children[k].completion, price).Success?
    ensures QuoteCrossChain(sourceGas, price, children, p).value.children[k].deliverySuccessFee
            >= CostCoveringReward(children[k].completion, price).value
  {
    var q := QuoteCrossChain(sourceGas, price, children, p).value;
    QuotedAt(sourceGas, price, children, p, k);
    CostIsPositive(sourceGas, price);
    ChildParts(children[k], price, q.sourceReward, |children|, k, p);
  }

  // ------------------------------------------- what a quote promises later on

  /** What a transaction turned out to use. */
  datatype Used = Used(gas: int, price: int)

  predicate Within(u: Used, gas: int, price: int) {
    0 < u.gas <= gas && 0 < u.price <= price
  }

  lemma GuardPasses(reward: int, u: Used, gas: int, price: int)
    requires Within(u, gas, price) && reward >= CostCoveringReward(gas, price).value
    ensures RequireCovered(reward, u.gas, u.price).Success?
  {
    CostIsMonotone(u.gas, u.price, gas, price);
  }

  /**
   A quote that succeeds passes every later guard of the worker whose
   transactions stay within the quoted gas and price: the source, the
   confirmation, the submission on top of what the confirmation really cost,
   and the completion.
   */
  lemma QuoteSatisfiesLaterGuards(sourceGas: int, price: int, children: seq<ChildGas>, p: Policy, k: nat,
                                  source: Used, confirm: Used, submit: Used, complete: Used)
    requires QuoteCrossChain(sourceGas, price, children, p).Success? && k < |children|
    requires Within(source, sourceGas, price) && Within(confirm, children[k].confirmation, price)
    requires Within(submit, children[k].submission, price) && Within(complete, children[k].completion, price)
    ensures var q := QuoteCrossChain(sourceGas, price, children, p).value;
            && |q.children| == |children|
            && RequireCovered(q.sourceReward, source.gas, source.price).Success?
            && RequireCovered(q.children[k].submissionReimbursement, confirm.gas, confirm.price).Success?
            && RequireCovered(q.children[k].submissionReimbursement, 1,
                              submit.gas * submit.price + confirm.gas * confirm.price).Success?
            && RequireCovered(q.children[k].deliverySuccessFee, complete.gas, complete.price).Success?
  {
    var q := QuoteCrossChain(sourceGas, price, children, p).value;
    PartsTotalTheQuote(sourceGas, price, children, p, k);
    QuotedAt(sourceGas, price, children, p, k);
    var gas := children[k];
    LeastCovering(gas.acceptance, price, 0);
    LeastCovering(gas.confirmation, price, 0);
    LeastCovering(gas.submission, price, 0);
    GuardPasses(q.sourceReward, source, sourceGas, price);
    GuardPasses(q.children[k].submissionReimbursement, confirm, gas.confirmation, price);
    GuardPasses(q.children[k].deliverySuccessFee, complete, gas.completion, price);
    CostIsSubadditive(submit.gas, submit.price, confirm.gas, confirm.price);
    CostIsMonotone(submit.gas, submit.price, gas.submission, price);
    CostIsMonotone(confirm.gas, confirm.price, gas.confirmation, price);
  }
}
