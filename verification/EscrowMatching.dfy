/**
 Which V4 payout bundles a relayer accepts: every binding has its authority, all
 share a pool and an asset, and the non-zero outputs of the withdrawal are exactly
 the authorized escrow amounts.
 */
module EscrowMatching {
  import opened Wrappers

  /** Addresses and amounts as parsed from text; None is text that does not parse. */
  type Address = Option<nat>
  type Units = Option<nat>

  /** A hash field: missing or empty, text that is not 32 bytes, or 32 bytes in lower case. */
  datatype Hash = Missing | Odd(text: string) | Hex32(n: nat)

  datatype Binding = Binding(intentHash: Hash, adapter: Address, escrow: Address, payoutAuthority: Address, amountIn: Units)

  datatype Intent = Intent(adapter: Address, escrow: Address, sourcePool: Address, token: Address, payoutAuthority: Address,
                           amountIn: Units, assetId: Units)

  datatype Authority = Authority(version: int, quoteHash: Hash, intentHash: Hash, signatureIsHex: bool, keyHashOk: bool,
                                 payoutAuthority: Address, intent: Intent)

  datatype Bundle = Bundle(pool: Address, single: Option<Binding>, batch: Option<seq<Binding>>,
                           recipients: seq<Address>, amounts: seq<Units>, destEids: seq<int>, emptyOptions: seq<bool>, pubSignals: seq<int>)

  datatype Validated = Validated(intentHash: nat, escrow: nat, amountIn: nat, sourcePool: nat, token: nat, assetId: nat)

  predicate NonZero(a: Address) {
    a.Some? && a.value != 0
  }

  predicate Positive(u: Units) {
    u.Some? && u.value > 0
  }

  // ------------------------------------------------------ one binding's authority

  /** The checks of one binding against its authority, in order. */
  function Authorize(b: Binding, a: Authority, relayer: nat, pool: Address): Option<Validated> {
    var i := a.intent;
    if !b.intentHash.Hex32? || !NonZero(b.adapter) || !NonZero(b.escrow) || !NonZero(b.payoutAuthority) then None
    else if !Positive(b.amountIn) then None
    else if a.version != 4 || !a.quoteHash.Hex32? || !a.intentHash.Hex32? || !a.signatureIsHex then None
    else if !NonZero(a.payoutAuthority) || !a.keyHashOk then None
    else if !NonZero(i.adapter) || !NonZero(i.escrow) || !NonZero(i.sourcePool) || !NonZero(i.token) || !NonZero(i.payoutAuthority) then None
    else if a.quoteHash != a.intentHash || a.intentHash != b.intentHash then None
    else if b.adapter != i.adapter || b.escrow != i.escrow || b.payoutAuthority != i.payoutAuthority then None
    else if a.payoutAuthority != i.payoutAuthority || i.payoutAuthority != Some(relayer) then None
    else if !Positive(i.amountIn) || b.amountIn != i.amountIn then None
    else if pool != i.sourcePool || !Positive(i.assetId) then None
    else Some(Validated(a.intentHash.n, i.escrow.value, i.amountIn.value, i.sourcePool.value, i.token.value, i.assetId.value))
  }

  /**
   Binding, authority and intent agree on hash, adapter, escrow, authority and
   amount, all for this relayer and this pool, and the entry is what they say.
   */
  predicate Agrees(b: Binding, a: Authority, relayer: nat, pool: Address, v: Validated) {
    && b.intentHash == a.intentHash == a.quoteHash == Hex32(v.intentHash)
    && b.adapter == a.intent.adapter && a.intent.adapter !in {None, Some(0)}
    && b.escrow == a.intent.escrow == Some(v.escrow) && v.escrow > 0
    && b.payoutAuthority == a.payoutAuthority == a.intent.payoutAuthority == Some(relayer) && relayer > 0
    && b.amountIn == a.intent.amountIn == Some(v.amountIn) && v.amountIn > 0
    && pool == a.intent.sourcePool == Some(v.sourcePool) && v.sourcePool > 0
    && a.intent.token == Some(v.token) && v.token > 0
    && a.intent.assetId == Some(v.assetId) && v.assetId > 0
    && a.version == 4 && a.signatureIsHex && a.keyHashOk
  }

  /** A binding is authorized, as this entry, exactly when everything agrees on it. */
  lemma AuthorizesExactly(b: Binding, a: Authority, relayer: nat, pool: Address, v: Validated)
    ensures Authorize(b, a, relayer, pool) == Some(v) <==> Agrees(b, a, relayer, pool, v)
  {
  }

  // -------------------------------------------------------------- what is exact

  predicate ShapeOk(bundle: Bundle, relayer: Address, domain: int) {
    && 0 < domain <= 9007199254740991 && NonZero(relayer)
    && |bundle.pubSignals| == 50 && bundle.pubSignals[14] == 0
    && bundle.pubSignals[49] == relayer.value && bundle.pubSignals[17] == domain
    && |bundle.recipients| == |bundle.amounts| == |bundle.destEids| == |bundle.emptyOptions| == 10
    && (forall i :: 0 <= i < 10 ==> bundle.destEids[i] == domain && bundle.emptyOptions[i])
  }

  /** A bundle names one binding, or a batch of two to ten. */
  function Bindings(bundle: Bundle): Option<seq<Binding>> {
    if bundle.single.Some? && bundle.batch.Some? then None
    else if bundle.single.Some? then Some([bundle.single.value])
    else if bundle.batch.None? || |bundle.batch.value| < 2 || |bundle.batch.value| > 10 then None
    else bundle.batch
  }

  lemma BindingsExactly(bundle: Bundle, bindings: seq<Binding>)
    ensures Bindings(bundle) == Some(bindings) <==>
              || (bundle.batch.None? && |bindings| == 1 && bundle.single == Some(bindings[0]))
              || (bundle.single.None? && bundle.batch == Some(bindings) && 2 <= |bindings| <= 10)
  {
    if |bindings| == 1 { assert bindings == [bindings[0]]; }
  }

  predicate DistinctHashes(authorities: seq<Authority>) {
    && (forall i :: 0 <= i < |authorities| ==> authorities[i].intentHash != Missing && authorities[i].intentHash != Odd(""))
    && (forall i, j :: 0 <= i < j < |authorities| ==> authorities[i].intentHash != authorities[j].intentHash)
  }

  /** Binding b is authorized as v by an authority with its intent hash. */
  ghost predicate AuthorizedBy(b: Binding, authorities: seq<Authority>, relayer: nat, pool: Address, v: Validated) {
    exists j :: 0 <= j < |authorities| && authorities[j].intentHash == b.intentHash
                && Agrees(b, authorities[j], relayer, pool, v)
  }

  ghost predicate AllAuthorized(bindings: seq<Binding>, authorities: seq<Authority>, relayer: nat, pool: Address, vs: seq<Validated>) {
    |vs| == |bindings| && forall k :: 0 <= k < |bindings| ==> AuthorizedBy(bindings[k], authorities, relayer, pool, vs[k])
  }

  /** One pool and asset, and neither an escrow nor an intent twice. */
  predicate Separate(vs: seq<Validated>) {
    && (forall k :: 0 <= k < |vs| ==> vs[k].sourcePool == vs[0].sourcePool && vs[k].token == vs[0].token && vs[k].assetId == vs[0].assetId)
    && (forall i, j :: 0 <= i < j < |vs| ==> vs[i].escrow != vs[j].escrow && vs[i].intentHash != vs[j].intentHash)
  }

  predicate Pays(amounts: seq<Units>, recipients: seq<Address>, i: int, v: Validated) {
    && 0 <= i < |amounts| && i < |recipients|
    && amounts[i] == Some(v.amountIn) && recipients[i] == Some(v.escrow)
  }

  ghost predicate PaysSome(amounts: seq<Units>, recipients: seq<Address>, i: int, vs: seq<Validated>) {
    exists k :: 0 <= k < |vs| && Pays(amounts, recipients, i, vs[k])
  }

  ghost predicate Paid(amounts: seq<Units>, recipients: seq<Address>, v: Validated) {
    exists i :: 0 <= i < |amounts| && Pays(amounts, recipients, i, v)
  }

  /** The non-zero outputs and the validated escrows pair off: same escrow, same amount, none left over on either side. */
  ghost predicate OutputsExact(amounts: seq<Units>, recipients: seq<Address>, vs: seq<Validated>) {
    && |amounts| == |recipients|
    && (forall i :: 0 <= i < |amounts| ==> amounts[i].Some?)
    && (forall i :: 0 <= i < |amounts| && Positive(amounts[i]) ==> PaysSome(amounts, recipients, i, vs))
    && (forall k :: 0 <= k < |vs| ==> Paid(amounts, recipients, vs[k]))
    && (forall i, j :: 0 <= i < j < |amounts| && Positive(amounts[i]) && Positive(amounts[j]) ==> recipients[i] != recipients[j])
  }

  /** Everything an accepted bundle satisfies, with the validated entries of its bindings. */
  ghost predicate Exact(bundle: Bundle, authorities: seq<Authority>, relayer: Address, domain: int, vs: seq<Validated>) {
    && ShapeOk(bundle, relayer, domain)
    && Bindings(bundle).Some? && |Bindings(bundle).value| == |authorities|
    && DistinctHashes(authorities)
    && AllAuthorized(Bindings(bundle).value, authorities, relayer.value, bundle.pool, vs)
    && Separate(vs)
    && OutputsExact(bundle.amounts, bundle.recipients, vs)
  }

  // ------------------------------------------------------------ the validator

  /** The authorities by their intent hash, as `authorityByIntent` holds them. */
  ghost predicate Indexes(byIntent: map<Hash, Authority>, authorities: seq<Authority>) {
    && (forall j :: 0 <= j < |authorities| ==> authorities[j].intentHash in byIntent && byIntent[authorities[j].intentHash] == authorities[j])
    && (forall h :: h in byIntent ==> exists j :: 0 <= j < |authorities| && authorities[j].intentHash == h)
  }

  method IndexAuthorities(authorities: seq<Authority>) returns (r: Option<map<Hash, Authority>>)
    ensures r.Some? <==> DistinctHashes(authorities)
    ensures r.Some? ==> Indexes(r.value, authorities)
  {
    var byIntent: map<Hash, Authority> := map[];
    for i := 0 to |authorities|
      invariant DistinctHashes(authorities[..i])
      invariant forall j :: 0 <= j < i ==> authorities[j].intentHash in byIntent && byIntent[authorities[j].intentHash] == authorities[j]
      invariant forall h :: h in byIntent ==> exists j :: 0 <= j < i && authorities[j].intentHash == h
    {
      var hash := authorities[i].intentHash;
      if hash == Missing || hash == Odd("") || hash in byIntent { return None; }
      byIntent := byIntent[hash := authorities[i]];
    }
    return Some(byIntent);
  }

  method AuthorizeAll(bindings: seq<Binding>, byIntent: map<Hash, Authority>, relayer: nat, pool: Address) returns (r: Option<seq<Validated>>)
    ensures r.Some? <==> forall k :: 0 <= k < |bindings| ==>
              bindings[k].intentHash in byIntent && Authorize(bindings[k], byIntent[bindings[k].intentHash], relayer, pool).Some?
    ensures r.Some? ==> |r.value| == |bindings| && forall k :: 0 <= k < |bindings| ==>
              Authorize(bindings[k], byIntent[bindings[k].intentHash], relayer, pool) == Some(r.value[k])
  {
    var validated: seq<Validated> := [];
    for k := 0 to |bindings|
      invariant |validated| == k
      invariant forall j :: 0 <= j < k ==>
                  bindings[j].intentHash in byIntent && Authorize(bindings[j], byIntent[bindings[j].intentHash], relayer, pool) == Some(validated[j])
    {
      if bindings[k].intentHash !in byIntent { return None; }
      var v := Authorize(bindings[k], byIntent[bindings[k].intentHash], relayer, pool);
      if !v.Some? { return None; }
      validated := validated + [v.value];
    }
    return Some(validated);
  }

  method CheckSeparate(vs: seq<Validated>) returns (ok: bool)
    requires vs != []
    ensures ok <==> Separate(vs)
  {
    var escrows: set<nat>, intents: set<nat> := {}, {};
    for k := 0 to |vs|
      invariant Separate(vs[..k])
      invariant forall e :: e in escrows <==> exists j :: 0 <= j < k && vs[j].escrow == e
      invariant forall h :: h in intents <==> exists j :: 0 <= j < k && vs[j].intentHash == h
    {
      var v := vs[k];
      if v.sourcePool != vs[0].sourcePool || v.token != vs[0].token || v.assetId != vs[0].assetId { return false; }
      if v.escrow in escrows || v.intentHash in intents { return false; }
      escrows, intents := escrows + {v.escrow}, intents + {v.intentHash};
    }
    return true;
  }

  datatype Output = Output(amount: nat, index: nat)

  ghost predicate IsListed(outputs: seq<Output>, i: int) {
    exists o :: 0 <= o < |outputs| && outputs[o].index == i
  }

  predicate IsOutput(o: Output, amounts: seq<Units>, n: nat) {
    o.index < n && o.index < |amounts| && o.amount > 0 && amounts[o.index] == Some(o.amount)
  }

  /** Those of the first n outputs that carry money, in order. */
  ghost predicate Lists(outputs: seq<Output>, amounts: seq<Units>, n: nat) {
    && (forall o :: 0 <= o < |outputs| ==> IsOutput(outputs[o], amounts, n))
    && (forall o, p :: 0 <= o < p < |outputs| ==> outputs[o].index < outputs[p].index)
    && (forall i :: 0 <= i < n && i < |amounts| && Positive(amounts[i]) ==> IsListed(outputs, i))
  }

  lemma ListsOneMore(outputs: seq<Output>, more: seq<Output>, amounts: seq<Units>, i: nat)
    requires i < |amounts| && Lists(outputs, amounts, i) && amounts[i].Some?
    requires more == if amounts[i].value > 0 then outputs + [Output(amounts[i].value, i)] else outputs
    ensures Lists(more, amounts, i + 1)
  {
    forall j | 0 <= j <= i && Positive(amounts[j])
      ensures IsListed(more, j)
    {
      if j < i {
        assert IsListed(outputs, j);
        var o :| 0 <= o < |outputs| && outputs[o].index == j;
        assert more[o].index == j;
      } else {
        assert more[|outputs|].index == i;
      }
    }
  }

  predicate AllParse(amounts: seq<Units>) {
    forall i :: 0 <= i < |amounts| ==> amounts[i].Some?
  }

  /** The filter over the first n outputs. */
  function Carrying(amounts: seq<Units>, n: nat): seq<Output>
    requires n <= |amounts| && AllParse(amounts)
  {
    if n == 0 then []
    else Carrying(amounts, n - 1) + if amounts[n - 1].value > 0 then [Output(amounts[n - 1].value, n - 1)] else []
  }

  function Total(amounts: seq<Units>, n: nat): nat
    requires n <= |amounts| && AllParse(amounts)
  {
    if n == 0 then 0 else Total(amounts, n - 1) + amounts[n - 1].value
  }

  function Carried(outputs: seq<Output>): nat {
    if outputs == [] then 0 else Carried(outputs[..|outputs| - 1]) + outputs[|outputs| - 1].amount
  }

  /** The filter keeps the order and every output that carries money. */
  lemma {:induction false} CarryingLists(amounts: seq<Units>, n: nat)
    requires n <= |amounts| && AllParse(amounts)
    ensures Lists(Carrying(amounts, n), amounts, n)
  {
    if n > 0 {
      CarryingLists(amounts, n - 1);
      ListsOneMore(Carrying(amounts, n - 1), Carrying(amounts, n), amounts, n - 1);
    }
  }

  /** It leaves out only zeros, so it keeps the total. */
  lemma {:induction false} CarryingKeepsTotal(amounts: seq<Units>, n: nat)
    requires n <= |amounts| && AllParse(amounts)
    ensures Carried(Carrying(amounts, n)) == Total(amounts, n)
  {
    if n > 0 {
      CarryingKeepsTotal(amounts, n - 1);
      var before, amount := Carrying(amounts, n - 1), amounts[n - 1].value;
      assert amount > 0 ==> (before + [Output(amount, n - 1)])[..|before|] == before;
      assert amount == 0 ==> Carrying(amounts, n) == before;
    }
  }

  method NonZeroOutputs(amounts: seq<Units>) returns (r: Option<seq<Output>>)
    ensures r.Some? <==> AllParse(amounts)
    ensures r.Some? ==> r.value == Carrying(amounts, |amounts|)
  {
    for i := 0 to |amounts|
      invariant forall j :: 0 <= j < i ==> amounts[j].Some?
    {
      if !amounts[i].Some? { return None; }
    }
    var outputs: seq<Output> := [];
    for i := 0 to |amounts|
      invariant outputs == Carrying(amounts, i)
    {
      if amounts[i].value > 0 {
        outputs := outputs + [Output(amounts[i].value, i)];
      }
    }
    return Some(outputs);
  }

  function To(o: Output, recipients: seq<Address>): Address {
    if o.index < |recipients| then recipients[o.index] else None
  }

  predicate Expected(o: Output, recipients: seq<Address>, expected: map<nat, Validated>) {
    && To(o, recipients).Some?
    && To(o, recipients).value in expected && expected[To(o, recipients).value].amountIn == o.amount
  }

  /** Every listed output pays an expected escrow its amount, no escrow twice. */
  ghost predicate OutputsMatch(outputs: seq<Output>, recipients: seq<Address>, expected: map<nat, Validated>) {
    && (forall o :: 0 <= o < |outputs| ==> Expected(outputs[o], recipients, expected))
    && (forall o, p :: 0 <= o < p < |outputs| ==> To(outputs[o], recipients) != To(outputs[p], recipients))
  }

  method MatchOutputs(outputs: seq<Output>, recipients: seq<Address>, expected: map<nat, Validated>) returns (ok: bool, matched: set<nat>)
    ensures ok <==> OutputsMatch(outputs, recipients, expected)
    ensures ok ==> |matched| == |outputs| && matched <= expected.Keys
  {
    matched := {};
    for o := 0 to |outputs|
      invariant forall p :: 0 <= p < o ==> Expected(outputs[p], recipients, expected) && To(outputs[p], recipients).value in matched
      invariant forall p, q :: 0 <= p < q < o ==> To(outputs[p], recipients) != To(outputs[q], recipients)
      invariant |matched| == o && matched <= expected.Keys
      invariant forall e :: e in matched ==> exists p :: 0 <= p < o && To(outputs[p], recipients) == Some(e)
    {
      var recipient := To(outputs[o], recipients);
      if !recipient.Some? { return false, matched; }
      var escrow := recipient.value;
      if escrow !in expected || escrow in matched || outputs[o].amount != expected[escrow].amountIn { return false, matched; }
      matched := matched + {escrow};
    }
    return true, matched;
  }

  // --------------------------------------------------------------- pigeonhole

  function Sum(pairs: seq<(nat, nat)>): nat {
    if pairs == [] then 0 else Sum(pairs[..|pairs| - 1]) + pairs[|pairs| - 1].1
  }

  predicate NoRepeats(pairs: seq<(nat, nat)>) {
    forall i, j :: 0 <= i < j < |pairs| ==> pairs[i] != pairs[j]
  }

  function Without(pairs: seq<(nat, nat)>, i: nat): seq<(nat, nat)>
    requires i < |pairs|
  {
    pairs[..i] + pairs[i + 1..]
  }

  lemma {:induction false} SumWithout(pairs: seq<(nat, nat)>, i: nat)
    requires i < |pairs|
    ensures Sum(pairs) == Sum(Without(pairs, i)) + pairs[i].1
  {
    var n := |pairs| - 1;
    if i == n {
      assert Without(pairs, i) == pairs[..n];
    } else {
      SumWithout(pairs[..n], i);
      assert Without(pairs, i)[..n - 1] == Without(pairs[..n], i);
      assert Without(pairs, i)[n - 1] == pairs[n];
    }
  }

  /** A list without repeats inside another is no longer; at equal length it has the same members and the same sum. */
  lemma {:induction false} Pigeonhole(a: seq<(nat, nat)>, b: seq<(nat, nat)>)
    requires NoRepeats(a) && forall x :: x in a ==> x in b
    ensures |a| <= |b|
    ensures |a| == |b| ==> Sum(a) == Sum(b) && forall x :: x in b ==> x in a
    decreases |a|
  {
    if a != [] {
      var init, last := a[..|a| - 1], a[|a| - 1];
      assert a == init + [last] && last in a;
      var i :| 0 <= i < |b| && b[i] == last;
      var rest := Without(b, i);
      forall x | x in init
        ensures x in rest
      {
        var j :| 0 <= j < |init| && init[j] == x;
        assert a[j] == x && a[j] != a[|a| - 1];
        assert x in b;
        var k :| 0 <= k < |b| && b[k] == x;
        assert rest[if k < i then k else k - 1] == x;
      }
      Pigeonhole(init, rest);
      SumWithout(b, i);
      assert forall x :: x in b ==> x == last || x in rest by {
        assert b == b[..i] + [b[i]] + b[i + 1..];
      }
    }
  }

  // ---------------------------------------------------------- outputs and entries

  function Entries(vs: seq<Validated>): (r: seq<(nat, nat)>)
    ensures |r| == |vs| && forall k :: 0 <= k < |vs| ==> r[k] == (vs[k].escrow, vs[k].amountIn)
  {
    if vs == [] then [] else Entries(vs[..|vs| - 1]) + [(vs[|vs| - 1].escrow, vs[|vs| - 1].amountIn)]
  }

  function Payments(outputs: seq<Output>, recipients: seq<Address>): (r: seq<(nat, nat)>)
    requires forall o :: 0 <= o < |outputs| ==> To(outputs[o], recipients).Some?
    ensures |r| == |outputs| && forall o :: 0 <= o < |outputs| ==> r[o] == (To(outputs[o], recipients).value, outputs[o].amount)
  {
    if outputs == [] then []
    else Payments(outputs[..|outputs| - 1], recipients) + [(To(outputs[|outputs| - 1], recipients).value, outputs[|outputs| - 1].amount)]
  }

  lemma {:induction false} PaymentsSum(outputs: seq<Output>, recipients: seq<Address>)
    requires forall o :: 0 <= o < |outputs| ==> To(outputs[o], recipients).Some?
    ensures Sum(Payments(outputs, recipients)) == Carried(outputs)
  {
    if outputs != [] {
      PaymentsSum(outputs[..|outputs| - 1], recipients);
      assert Payments(outputs, recipients)[..|outputs| - 1] == Payments(outputs[..|outputs| - 1], recipients);
    }
  }

  ghost predicate IsEscrow(vs: seq<Validated>, n: nat, e: nat) {
    exists k :: 0 <= k < n && k < |vs| && vs[k].escrow == e
  }

  /** The first n entries by escrow, as `expectedByEscrow` holds them. */
  ghost predicate ByEscrow(expected: map<nat, Validated>, vs: seq<Validated>, n: nat) {
    && (forall k :: 0 <= k < n && k < |vs| ==> vs[k].escrow in expected && expected[vs[k].escrow] == vs[k])
    && (forall e :: e in expected ==> IsEscrow(vs, n, e))
    && |expected| == n
  }

  lemma ByEscrowSnoc(before: map<nat, Validated>, vs: seq<Validated>, k: nat)
    requires k < |vs| && Separate(vs) && ByEscrow(before, vs, k)
    ensures ByEscrow(before[vs[k].escrow := vs[k]], vs, k + 1)
  {
  }

  method ExpectedByEscrow(vs: seq<Validated>) returns (expected: map<nat, Validated>)
    requires Separate(vs)
    ensures ByEscrow(expected, vs, |vs|)
  {
    expected := map[];
    for k := 0 to |vs|
      invariant ByEscrow(expected, vs, k)
    {
      ByEscrowSnoc(expected, vs, k);
      expected := expected[vs[k].escrow := vs[k]];
    }
  }

  predicate AllPositive(vs: seq<Validated>) {
    forall k :: 0 <= k < |vs| ==> vs[k].amountIn > 0
  }

  /** What the validator has found when it looks at the outputs. */
  ghost predicate Ready(amounts: seq<Units>, recipients: seq<Address>, vs: seq<Validated>, outputs: seq<Output>) {
    && |amounts| == |recipients| && AllParse(amounts) && Lists(outputs, amounts, |amounts|)
    && Separate(vs) && AllPositive(vs)
  }

  lemma MatchedPaysEntries(amounts: seq<Units>, recipients: seq<Address>, vs: seq<Validated>, outputs: seq<Output>, expected: map<nat, Validated>)
    requires Ready(amounts, recipients, vs, outputs) && ByEscrow(expected, vs, |vs|) && OutputsMatch(outputs, recipients, expected)
    ensures forall o :: 0 <= o < |outputs| ==> To(outputs[o], recipients).Some?
    ensures NoRepeats(Payments(outputs, recipients)) && forall x :: x in Payments(outputs, recipients) ==> x in Entries(vs)
  {
  }

  lemma PaymentPays(amounts: seq<Units>, recipients: seq<Address>, vs: seq<Validated>, outputs: seq<Output>, k: nat)
    requires Ready(amounts, recipients, vs, outputs) && k < |vs|
    requires forall o :: 0 <= o < |outputs| ==> To(outputs[o], recipients).Some?
    ensures Entries(vs)[k] in Payments(outputs, recipients) <==> Paid(amounts, recipients, vs[k])
  {
    if Entries(vs)[k] in Payments(outputs, recipients) {
      var o :| 0 <= o < |outputs| && Payments(outputs, recipients)[o] == Entries(vs)[k];
      assert Pays(amounts, recipients, outputs[o].index, vs[k]);
    }
    if Paid(amounts, recipients, vs[k]) {
      var i :| 0 <= i < |amounts| && Pays(amounts, recipients, i, vs[k]);
      assert IsListed(outputs, i);
      var o :| 0 <= o < |outputs| && outputs[o].index == i;
      assert Payments(outputs, recipients)[o] == Entries(vs)[k];
    }
  }

  /** The counting and matching of the validator finds exactly the pairing. */
  lemma MatchingIsExact(amounts: seq<Units>, recipients: seq<Address>, vs: seq<Validated>, outputs: seq<Output>, expected: map<nat, Validated>)
    requires Ready(amounts, recipients, vs, outputs) && ByEscrow(expected, vs, |vs|)
    requires |outputs| == |expected| && OutputsMatch(outputs, recipients, expected)
    ensures OutputsExact(amounts, recipients, vs)
  {
    MatchedPaysEntries(amounts, recipients, vs, outputs, expected);
    Pigeonhole(Payments(outputs, recipients), Entries(vs));
    forall k | 0 <= k < |vs|
      ensures Paid(amounts, recipients, vs[k])
    {
      assert Entries(vs)[k] in Entries(vs);
      PaymentPays(amounts, recipients, vs, outputs, k);
    }
    forall i | 0 <= i < |amounts| && Positive(amounts[i])
      ensures PaysSome(amounts, recipients, i, vs)
    {
      assert IsListed(outputs, i);
      var o :| 0 <= o < |outputs| && outputs[o].index == i;
      assert Expected(outputs[o], recipients, expected);
      var k :| 0 <= k < |vs| && vs[k].escrow == recipients[i].value;
      assert Pays(amounts, recipients, i, vs[k]);
    }
    forall i, j | 0 <= i < j < |amounts| && Positive(amounts[i]) && Positive(amounts[j])
      ensures recipients[i] != recipients[j]
    {
      assert IsListed(outputs, i) && IsListed(outputs, j);
    }
  }

  lemma ExactPaysEntries(amounts: seq<Units>, recipients: seq<Address>, vs: seq<Validated>, outputs: seq<Output>, o: nat)
    requires Ready(amounts, recipients, vs, outputs) && OutputsExact(amounts, recipients, vs) && o < |outputs|
    ensures To(outputs[o], recipients).Some?
    ensures exists k :: 0 <= k < |vs| && vs[k].escrow == To(outputs[o], recipients).value && vs[k].amountIn == outputs[o].amount
  {
  }

  lemma ExactOutputsMatch(amounts: seq<Units>, recipients: seq<Address>, vs: seq<Validated>, outputs: seq<Output>, expected: map<nat, Validated>)
    requires Ready(amounts, recipients, vs, outputs) && ByEscrow(expected, vs, |vs|) && OutputsExact(amounts, recipients, vs)
    ensures OutputsMatch(outputs, recipients, expected)
  {
    forall o | 0 <= o < |outputs|
      ensures Expected(outputs[o], recipients, expected)
    {
      ExactPaysEntries(amounts, recipients, vs, outputs, o);
    }
    forall o, p | 0 <= o < p < |outputs|
      ensures To(outputs[o], recipients) != To(outputs[p], recipients)
    {
      assert IsOutput(outputs[o], amounts, |amounts|) && IsOutput(outputs[p], amounts, |amounts|);
    }
  }

  lemma EntriesArePaid(amounts: seq<Units>, recipients: seq<Address>, vs: seq<Validated>, outputs: seq<Output>)
    requires Ready(amounts, recipients, vs, outputs) && OutputsExact(amounts, recipients, vs)
    requires forall o :: 0 <= o < |outputs| ==> To(outputs[o], recipients).Some?
    ensures forall x :: x in Entries(vs) ==> x in Payments(outputs, recipients)
  {
    forall x | x in Entries(vs)
      ensures x in Payments(outputs, recipients)
    {
      var k :| 0 <= k < |vs| && Entries(vs)[k] == x;
      PaymentPays(amounts, recipients, vs, outputs, k);
    }
  }

  lemma ExactIsMatched(amounts: seq<Units>, recipients: seq<Address>, vs: seq<Validated>, outputs: seq<Output>, expected: map<nat, Validated>)
    requires Ready(amounts, recipients, vs, outputs) && ByEscrow(expected, vs, |vs|) && OutputsExact(amounts, recipients, vs)
    ensures |outputs| == |expected| && OutputsMatch(outputs, recipients, expected)
    ensures forall o :: 0 <= o < |outputs| ==> To(outputs[o], recipients).Some?
    ensures Sum(Payments(outputs, recipients)) == Sum(Entries(vs))
  {
    ExactOutputsMatch(amounts, recipients, vs, outputs, expected);
    MatchedPaysEntries(amounts, recipients, vs, outputs, expected);
    EntriesArePaid(amounts, recipients, vs, outputs);
    Pigeonhole(Payments(outputs, recipients), Entries(vs));
    Pigeonhole(Entries(vs), Payments(outputs, recipients));
  }

  lemma AuthorizedIsPositive(bindings: seq<Binding>, authorities: seq<Authority>, relayer: nat, pool: Address, vs: seq<Validated>)
    requires AllAuthorized(bindings, authorities, relayer, pool, vs)
    ensures AllPositive(vs)
  {
  }

  /** The ten outputs of an accepted bundle total exactly what its bindings authorize. */
  lemma OutputsTotalTheAuthorized(bundle: Bundle, authorities: seq<Authority>, relayer: Address, domain: int, vs: seq<Validated>)
    requires Exact(bundle, authorities, relayer, domain, vs)
    ensures |bundle.amounts| == 10 && AllParse(bundle.amounts)
    ensures Total(bundle.amounts, 10) == Sum(Entries(vs))
  {
    var outputs := Carrying(bundle.amounts, 10);
    CarryingLists(bundle.amounts, 10);
    CarryingKeepsTotal(bundle.amounts, 10);
    AuthorizedIsPositive(Bindings(bundle).value, authorities, relayer.value, bundle.pool, vs);
    var expected := ExpectedMap(vs, |vs|);
    ExactIsMatched(bundle.amounts, bundle.recipients, vs, outputs, expected);
    PaymentsSum(outputs, bundle.recipients);
  }

  lemma {:induction false} ExpectedMap(vs: seq<Validated>, k: nat) returns (expected: map<nat, Validated>)
    requires k <= |vs| && Separate(vs)
    ensures ByEscrow(expected, vs, k)
  {
    if k == 0 {
      expected := map[];
    } else {
      var before := ExpectedMap(vs, k - 1);
      ByEscrowSnoc(before, vs, k - 1);
      expected := before[vs[k - 1].escrow := vs[k - 1]];
    }
  }

  // ------------------------------------------------------- bindings and authorities

  function HashesOf(authorities: seq<Authority>): (r: seq<Hash>)
    ensures |r| == |authorities| && forall j :: 0 <= j < |r| ==> r[j] == authorities[j].intentHash
  {
    if authorities == [] then [] else HashesOf(authorities[..|authorities| - 1]) + [authorities[|authorities| - 1].intentHash]
  }

  function IntentsOf(vs: seq<Validated>): (r: seq<Hash>)
    ensures |r| == |vs| && forall k :: 0 <= k < |r| ==> r[k] == Hex32(vs[k].intentHash)
  {
    if vs == [] then [] else IntentsOf(vs[..|vs| - 1]) + [Hex32(vs[|vs| - 1].intentHash)]
  }

  function Members(s: seq<Hash>): set<Hash> {
    set h | h in s
  }

  lemma {:induction false} DistinctCount(s: seq<Hash>)
    requires forall i, j :: 0 <= i < j < |s| ==> s[i] != s[j]
    ensures |Members(s)| == |s|
  {
    if s != [] {
      var init, last := s[..|s| - 1], s[|s| - 1];
      DistinctCount(init);
      assert last !in init && s == init + [last];
      assert Members(s) == Members(init) + {last};
    }
  }

  lemma AuthorityOf(b: Binding, authorities: seq<Authority>, relayer: nat, pool: Address, v: Validated) returns (j: nat)
    requires AuthorizedBy(b, authorities, relayer, pool, v)
    ensures j < |authorities| && authorities[j].intentHash == Hex32(v.intentHash)
  {
    j :| 0 <= j < |authorities| && authorities[j].intentHash == b.intentHash && Agrees(b, authorities[j], relayer, pool, v);
    AuthorizesExactly(b, authorities[j], relayer, pool, v);
  }

  /** In an accepted bundle bindings and authorities pair off by intent hash: no authority is left over either. */
  lemma AuthoritiesPairOff(bundle: Bundle, authorities: seq<Authority>, relayer: Address, domain: int, vs: seq<Validated>, j: nat)
    requires Exact(bundle, authorities, relayer, domain, vs) && j < |authorities|
    ensures exists k :: 0 <= k < |vs| && authorities[j].intentHash == Hex32(vs[k].intentHash)
    ensures forall k, l :: 0 <= k < |vs| && 0 <= l < |vs| && vs[k].intentHash == vs[l].intentHash ==> k == l
  {
    var bindings := Bindings(bundle).value;
    var intents, hashes := IntentsOf(vs), HashesOf(authorities);
    forall h | h in Members(intents)
      ensures h in Members(hashes)
    {
      var k :| 0 <= k < |intents| && intents[k] == h;
      assert AuthorizedBy(bindings[k], authorities, relayer.value, bundle.pool, vs[k]);
      var i := AuthorityOf(bindings[k], authorities, relayer.value, bundle.pool, vs[k]);
      assert hashes[i] == h;
    }
    DistinctCount(intents);
    DistinctCount(hashes);
    SameSize(Members(intents), Members(hashes));
    assert hashes[j] in Members(intents);
  }

  lemma SameSize(a: set<Hash>, b: set<Hash>)
    requires (forall h :: h in a ==> h in b) && |a| == |b|
    ensures forall h :: h in b ==> h in a
  {
    assert a <= b;
    assert b == a + (b - a) && |b| == |a| + |b - a|;
  }

  // ------------------------------------------------------------ the whole check

  /** The validated entries are determined by bundle and authorities. */
  lemma EntriesAreDetermined(bindings: seq<Binding>, byIntent: map<Hash, Authority>, authorities: seq<Authority>, relayer: nat, pool: Address,
                             vs: seq<Validated>)
    requires Indexes(byIntent, authorities)
    ensures AllAuthorized(bindings, authorities, relayer, pool, vs) <==>
              && |vs| == |bindings|
              && forall k :: 0 <= k < |bindings| ==>
                   bindings[k].intentHash in byIntent && Authorize(bindings[k], byIntent[bindings[k].intentHash], relayer, pool) == Some(vs[k])
  {
    if |vs| == |bindings| {
      forall k | 0 <= k < |bindings|
        ensures AuthorizedBy(bindings[k], authorities, relayer, pool, vs[k]) <==>
                  bindings[k].intentHash in byIntent && Authorize(bindings[k], byIntent[bindings[k].intentHash], relayer, pool) == Some(vs[k])
      {
        EntryIsDetermined(bindings[k], byIntent, authorities, relayer, pool, vs[k]);
      }
    }
  }

  lemma EntryIsDetermined(b: Binding, byIntent: map<Hash, Authority>, authorities: seq<Authority>, relayer: nat, pool: Address, v: Validated)
    requires Indexes(byIntent, authorities)
    ensures AuthorizedBy(b, authorities, relayer, pool, v) <==>
              b.intentHash in byIntent && Authorize(b, byIntent[b.intentHash], relayer, pool) == Some(v)
  {
    if b.intentHash in byIntent {
      AuthorizesExactly(b, byIntent[b.intentHash], relayer, pool, v);
    }
  }

  /** Map, validate and separate: the entries of the bindings, if there are such. */
  method ValidateEntries(bindings: seq<Binding>, authorities: seq<Authority>, relayer: nat, pool: Address) returns (r: Option<seq<Validated>>)
    requires bindings != []
    ensures r.Some? ==> DistinctHashes(authorities) && AllAuthorized(bindings, authorities, relayer, pool, r.value) && Separate(r.value)
    ensures forall vs :: DistinctHashes(authorities) && AllAuthorized(bindings, authorities, relayer, pool, vs) && Separate(vs) ==> r == Some(vs)
  {
    var index := IndexAuthorities(authorities);
    if !index.Some? { return None; }
    var validated := AuthorizeAll(bindings, index.value, relayer, pool);
    forall vs
      ensures AllAuthorized(bindings, authorities, relayer, pool, vs) <==> validated == Some(vs)
    {
      EntriesAreDetermined(bindings, index.value, authorities, relayer, pool, vs);
      if validated.Some? && AllAuthorized(bindings, authorities, relayer, pool, vs) {
        assert validated.value == vs;
      }
    }
    if !validated.Some? { return None; }
    var separate := CheckSeparate(validated.value);
    return if separate then validated else None;
  }

  /** Count and match the outputs; the closing comparison of the sizes can no longer fail. */
  method CheckOutputs(amounts: seq<Units>, recipients: seq<Address>, vs: seq<Validated>) returns (ok: bool)
    requires |amounts| == |recipients| && Separate(vs) && AllPositive(vs)
    ensures ok <==> OutputsExact(amounts, recipients, vs)
  {
    var expected := ExpectedByEscrow(vs);
    var outputs := NonZeroOutputs(amounts);
    if !outputs.Some? { return false; }
    CarryingLists(amounts, |amounts|);
    if OutputsExact(amounts, recipients, vs) {
      ExactIsMatched(amounts, recipients, vs, outputs.value, expected);
    }
    if |outputs.value| != |expected| { return false; }
    var matches, matched := MatchOutputs(outputs.value, recipients, expected);
    if !matches { return false; }
    MatchingIsExact(amounts, recipients, vs, outputs.value, expected);
    assert |matched| == |expected|;
    return true;
  }

  /** The proof's signals name the relayer, the domain and no executor fee, and all ten outputs are local. */
  method CheckShape(bundle: Bundle, relayer: Address, domain: int) returns (ok: bool)
    ensures ok <==> ShapeOk(bundle, relayer, domain)
  {
    if domain > 9007199254740991 || domain <= 0 || !relayer.Some? || relayer.value == 0 { return false; }
    if |bundle.pubSignals| != 50 || bundle.pubSignals[14] != 0 { return false; }
    if bundle.pubSignals[49] != relayer.value || bundle.pubSignals[17] != domain { return false; }
    if |bundle.recipients| != 10 || |bundle.amounts| != 10 || |bundle.destEids| != 10 || |bundle.emptyOptions| != 10 { return false; }
    for i := 0 to 10
      invariant forall k :: 0 <= k < i ==> bundle.destEids[k] == domain && bundle.emptyOptions[k]
    {
      if bundle.destEids[i] != domain || !bundle.emptyOptions[i] { return false; }
    }
    return true;
  }

  /** The validator accepts exactly the exact bundles and returns the entries of their bindings, in order. */
  method ValidateBundle(bundle: Bundle, authorities: seq<Authority>, relayer: Address, domain: int) returns (r: Option<seq<Validated>>)
    ensures r.Some? ==> Exact(bundle, authorities, relayer, domain, r.value)
    ensures forall vs :: Exact(bundle, authorities, relayer, domain, vs) ==> r == Some(vs)
  {
    var shaped := CheckShape(bundle, relayer, domain);
    if !shaped { return None; }
    var bindings := Bindings(bundle);
    if !bindings.Some? || |bindings.value| != |authorities| { return None; }
    var validated := ValidateEntries(bindings.value, authorities, relayer.value, bundle.pool);
    if !validated.Some? { return None; }
    AuthorizedIsPositive(bindings.value, authorities, relayer.value, bundle.pool, validated.value);
    var exact := CheckOutputs(bundle.amounts, bundle.recipients, validated.value);
    return if exact then validated else None;
  }
}
