/**
 `runPayoutV7Execution`: the stages of one run over a batch of children.  The
 chain only moves forward (a status never falls, funding is never undone) and
 may do so before every `await`; any `await` may throw and end the run.  In a calm
 period nothing throws and the chain does what the run undertakes and no more.
 */
module StagingV7 {
  import opened Wrappers

  type Answer<T> = Result<T, ()>

  datatype Reading = Reading(status: int, funded: bool)

  /** What a run undertook, with what was true on chain at that moment. */
  datatype Event =
    | Preflight
    | Accept(child: nat)
    | Source(allAccepted: bool)
    | Registration(child: nat, funded: bool)
    | Provenance(child: nat, hash: Option<nat>)
    | Confirm(child: nat, funded: bool, hash: Option<nat>)
    | Submit(child: nat)
    | Downstream(child: nat, hash: Option<nat>)

  /** The place of an event in the plan for n children. */
  function Rank(e: Event, n: nat): nat {
    match e
    case Preflight => 0
    case Accept(c) => 1 + c
    case Source(_) => 1 + n
    case Registration(c, _) => 2 + n + 5 * c
    case Provenance(c, _) => 3 + n + 5 * c
    case Confirm(c, _, _) => 4 + n + 5 * c
    case Submit(c) => 5 + n + 5 * c
    case Downstream(c, _) => 6 + n + 5 * c
  }

  /** Every event once, in plan order. */
  predicate InPlanOrder(log: seq<Event>, n: nat) {
    forall i, j :: 0 <= i < j < |log| ==> Rank(log[i], n) < Rank(log[j], n)
  }

  /** What an event needs, given the log before it. */
  predicate Permitted(before: seq<Event>, e: Event) {
    match e
    case Source(accepted) => accepted && before != [] && before[0] == Preflight
    case Registration(_, funded) => funded
    case Provenance(_, hash) => hash.Some?
    case Confirm(_, funded, hash) => funded && hash.Some?
    case Downstream(_, hash) => hash.Some?
    case _ => true
  }

  /** No source without a preflight first and all children accepted; no confirmation without funding and a source hash. */
  predicate Guarded(log: seq<Event>) {
    forall i :: 0 <= i < |log| ==> Permitted(log[..i], log[i])
  }

  predicate Below(log: seq<Event>, n: nat, rank: nat) {
    forall i :: 0 <= i < |log| ==> Rank(log[i], n) < rank
  }

  lemma Appends(log: seq<Event>, e: Event, n: nat)
    requires InPlanOrder(log, n) && Guarded(log) && Below(log, n, Rank(e, n)) && Permitted(log, e)
    ensures InPlanOrder(log + [e], n) && Guarded(log + [e]) && Below(log + [e], n, Rank(e, n) + 1)
  {
  }

  /** What an event brings about when nothing interferes. */
  function Effect(chain: seq<Reading>, e: Event): (after: seq<Reading>)
    ensures |after| == |chain|
  {
    match e
    case Accept(c) => Raise(chain, c, 1)
    case Source(_) => seq(|chain|, i requires 0 <= i < |chain| => chain[i].(funded := true))
    case Confirm(c, _, _) => Raise(chain, c, 2)
    case Submit(c) => Raise(chain, c, 3)
    case _ => chain
  }

  function Raise(chain: seq<Reading>, c: nat, status: int): seq<Reading> {
    if c < |chain| && chain[c].status < status then chain[c := chain[c].(status := status)] else chain
  }

  class World {
    const n: nat

    /** Nothing throws, and only what the run undertakes moves the chain. */
    const calm: bool

    var chain: seq<Reading>
    var log: seq<Event>

    /** The hashes `source` and `submit` answered in this run. */
    var sourceAnswer: Option<nat>
    var submitAnswers: map<nat, nat>

    constructor (chain: seq<Reading>, calm: bool)
      ensures this.chain == chain && n == |chain| && this.calm == calm
      ensures log == [] && sourceAnswer == None && submitAnswers == map[]
    {
      this.chain, this.n, this.calm, log := chain, |chain|, calm, [];
      sourceAnswer, submitAnswers := None, map[];
    }

    ghost predicate Valid()
      reads this
    {
      |chain| == n && InPlanOrder(log, n) && Guarded(log)
    }

    static ghost predicate Forward(a: seq<Reading>, b: seq<Reading>) {
      && |a| == |b|
      && forall i :: 0 <= i < |a| ==> a[i].status <= b[i].status && (a[i].funded ==> b[i].funded)
    }

    method Await() returns (r: Answer<()>)
      requires Valid()
      modifies this`chain
      ensures Valid() && Forward(old(chain), chain)
      ensures calm ==> r.Success? && chain == old(chain)
    {
      if calm { return Success(()); }
      var steps: nat := *;
      while steps > 0
        invariant |chain| == n && Forward(old(chain), chain)
      {
        var i: nat, next: Reading := *, *;
        if i < n && chain[i].status <= next.status && (chain[i].funded ==> next.funded) {
          chain := chain[i := next];
        }
        steps := steps - 1;
      }
      var threw: bool := *;
      return if threw then Failure(()) else Success(());
    }

    method ReadState(child: nat) returns (r: Answer<Reading>)
      requires Valid() && child < n
      modifies this`chain
      ensures Valid() && Forward(old(chain), chain)
      ensures r.Success? ==> r.value == chain[child]
      ensures calm ==> r.Success? && chain == old(chain)
    {
      var _ :- Await();
      return Success(chain[child]);
    }

    /** All children, read one after the other while the chain moves. */
    method ReadStates() returns (r: Answer<seq<Reading>>)
      requires Valid()
      modifies this`chain
      ensures Valid() && Forward(old(chain), chain)
      ensures r.Success? ==> Forward(old(chain), r.value) && Forward(r.value, chain)
      ensures calm ==> r.Success? && chain == old(chain) == r.value
    {
      var states: seq<Reading> := [];
      for i := 0 to n
        invariant Valid() && Forward(old(chain), chain) && |states| == i
        invariant calm ==> chain == old(chain) && states == chain[..i]
        invariant forall k :: 0 <= k < i ==>
                    && old(chain)[k].status <= states[k].status <= chain[k].status
                    && (old(chain)[k].funded ==> states[k].funded) && (states[k].funded ==> chain[k].funded)
      {
        var state :- ReadState(i);
        states := states + [state];
      }
      return Success(states);
    }

    /** An effect: it is undertaken, then it may still throw. */
    method Undertake(e: Event) returns (r: Answer<()>)
      requires Valid() && Below(log, n, Rank(e, n)) && Permitted(log, e)
      modifies this
      ensures Valid() && Forward(old(chain), chain) && log == old(log) + [e]
      ensures Below(log, n, Rank(e, n) + 1)
      ensures sourceAnswer == old(sourceAnswer) && submitAnswers == old(submitAnswers)
      ensures calm ==> r.Success? && chain == Effect(old(chain), e)
    {
      Appends(log, e, n);
      log := log + [e];
      if calm {
        EffectIsForward(chain, e);
        chain := Effect(chain, e);
        return Success(());
      }
      r := Await();
    }

    /** `source()` answers the hash of its transaction. */
    method UndertakeSource(accepted: bool) returns (r: Answer<nat>)
      requires Valid() && Below(log, n, 1 + n) && Permitted(log, Source(accepted))
      modifies this
      ensures Valid() && Forward(old(chain), chain) && log == old(log) + [Source(accepted)] && Below(log, n, 2 + n)
      ensures r.Success? ==> sourceAnswer == Some(r.value)
      ensures submitAnswers == old(submitAnswers)
      ensures calm ==> r.Success? && chain == Effect(old(chain), Source(accepted))
    {
      var _ :- Undertake(Source(accepted));
      var answer: nat := *;
      sourceAnswer := Some(answer);
      return Success(answer);
    }

    /** `submit(child)` answers the hash of its transaction. */
    method UndertakeSubmit(child: nat) returns (r: Answer<nat>)
      requires Valid() && child < n && Below(log, n, 5 + n + 5 * child)
      modifies this
      ensures Valid() && Forward(old(chain), chain) && log == old(log) + [Submit(child)] && Below(log, n, 6 + n + 5 * child)
      ensures r.Success? ==> submitAnswers == old(submitAnswers)[child := r.value]
      ensures r.Failure? ==> submitAnswers == old(submitAnswers)
      ensures sourceAnswer == old(sourceAnswer)
      ensures calm ==> r.Success? && chain == Effect(old(chain), Submit(child))
    {
      var _ :- Undertake(Submit(child));
      var answer: nat := *;
      submitAnswers := submitAnswers[child := answer];
      return Success(answer);
    }
  }

  lemma EffectIsForward(chain: seq<Reading>, e: Event)
    ensures World.Forward(chain, Effect(chain, e))
  {
  }

  predicate SomeFunded(states: seq<Reading>) {
    exists i :: 0 <= i < |states| && states[i].funded
  }

  predicate AllFunded(states: seq<Reading>) {
    forall i :: 0 <= i < |states| ==> states[i].funded
  }

  predicate SomeBelow(states: seq<Reading>, x: int) {
    exists i :: 0 <= i < |states| && states[i].status < x
  }

  predicate Mixed(states: seq<Reading>) {
    SomeFunded(states) && !AllFunded(states)
  }

  predicate Fresh(states: seq<Reading>) {
    !SomeFunded(states) && SomeBelow(states, 3)
  }

  /** What acceptance undertakes for the first k children of a reading. */
  function Accepting(states: seq<Reading>, k: nat): seq<Event>
    requires k <= |states|
  {
    if k == 0 then []
    else Accepting(states, k - 1) + if states[k - 1].status == 0 then [Accept(k - 1)] else []
  }

  function Opening(states: seq<Reading>): seq<Event> {
    if Fresh(states) then [Preflight] else []
  }

  function Sourcing(states: seq<Reading>): seq<Event> {
    if Fresh(states) then [Source(true)] else []
  }

  // ------------------------------------------------------------- calm periods

  /** The first k children accepted. */
  function AcceptedTo(chain: seq<Reading>, k: nat): (after: seq<Reading>)
    ensures |after| == |chain|
  {
    seq(|chain|, i requires 0 <= i < |chain| => if i < k && chain[i].status == 0 then chain[i].(status := 1) else chain[i])
  }

  predicate AllWithin(states: seq<Reading>, low: int, high: int) {
    forall i :: 0 <= i < |states| ==> low <= states[i].status <= high
  }

  /** The source hash a run has at hand after its second reading. */
  function SourceHash(w: World, states: seq<Reading>, stored: Option<nat>): Option<nat>
    reads w
  {
    if Fresh(states) then w.sourceAnswer else stored
  }

  /** A second reading from which a run goes on: none lacks acceptance, none is failed, funding is whole, and the source is known. */
  predicate Sourceable(states: seq<Reading>, stored: Option<nat>) {
    AllWithin(states, 1, 6) && !Mixed(states) && (Fresh(states) || stored.Some? || !SomeBelow(states, 3))
  }

  /** A child a run can deal with: its escrow is funded and the hashes it needs are known. */
  predicate Workable(s: Reading, source: Option<nat>, stored: Option<nat>) {
    && (s.status == 1 || s.status == 2 ==> s.funded)
    && (s.status == 1 ==> source.Some?)
    && (s.status == 3 ==> stored.Some?)
  }

  // ------------------------------------------------------------------- stages

  /** Preflight and acceptance; hands back the first reading. */
  method AcceptStage(w: World) returns (r: Answer<()>, ghost first: seq<Reading>)
    requires w.Valid() && w.log == []
    modifies w
    ensures w.Valid() && World.Forward(old(w.chain), w.chain) && Below(w.log, w.n, 1 + w.n)
    ensures w.sourceAnswer == old(w.sourceAnswer) && w.submitAnswers == old(w.submitAnswers)
    ensures r.Success? ==> World.Forward(first, w.chain) && !Mixed(first)
    ensures r.Success? ==> |first| == w.n && w.log == Opening(first) + Accepting(first, w.n)
    ensures Mixed(first) ==> r.Failure? && w.log == []
    ensures OnlyOpening(w.log)
    ensures w.calm ==> first == old(w.chain) && (r.Success? <==> !Mixed(first))
    ensures w.calm && r.Success? ==> w.chain == AcceptedTo(first, w.n)
  {
    first := [];
    var read := w.ReadStates();
    if read.Failure? { r := Failure(()); return; }
    var states := read.value;
    first := states;
    if Mixed(states) { r := Failure(()); return; }
    if Fresh(states) {
      r := w.Undertake(Preflight);
      if r.Failure? { return; }
    }
    r := AcceptChildren(w, states);
  }

  ghost predicate HasSource(log: seq<Event>) {
    exists i :: 0 <= i < |log| && log[i].Source?
  }

  predicate OnlyOpening(log: seq<Event>) {
    forall i :: 0 <= i < |log| ==> log[i] == Preflight || log[i].Accept?
  }

  /** The children that read status 0, in order. */
  method AcceptChildren(w: World, states: seq<Reading>) returns (r: Answer<()>)
    requires w.Valid() && |states| == w.n && World.Forward(states, w.chain) && Below(w.log, w.n, 1) && OnlyOpening(w.log)
    modifies w
    ensures w.Valid() && World.Forward(old(w.chain), w.chain) && Below(w.log, w.n, 1 + w.n) && OnlyOpening(w.log)
    ensures w.sourceAnswer == old(w.sourceAnswer) && w.submitAnswers == old(w.submitAnswers)
    ensures World.Forward(states, w.chain)
    ensures r.Success? ==> w.log == old(w.log) + Accepting(states, w.n)
    ensures w.calm ==> r.Success?
    ensures w.calm && states == old(w.chain) ==> w.chain == AcceptedTo(states, w.n)
  {
    for i := 0 to w.n
      invariant w.Valid() && World.Forward(old(w.chain), w.chain) && World.Forward(states, w.chain)
      invariant w.sourceAnswer == old(w.sourceAnswer) && w.submitAnswers == old(w.submitAnswers)
      invariant Below(w.log, w.n, 1 + i) && OnlyOpening(w.log)
      invariant w.log == old(w.log) + Accepting(states, i)
      invariant w.calm && states == old(w.chain) ==> w.chain == AcceptedTo(states, i)
    {
      if states[i].status == 0 {
        r := w.Undertake(Accept(i));
        if r.Failure? { return; }
      }
    }
    r := Success(());
  }

  /**
   The second reading and the source.  A mixed reading ends the run with no
   source undertaken; the hash is the answer of the source if this run sent it,
   and the stored one otherwise.
   */
  method SourceStage(w: World, stored: Option<nat>, ghost first: seq<Reading>) returns (r: Answer<Option<nat>>, ghost second: seq<Reading>)
    requires w.Valid() && Below(w.log, w.n, 1 + w.n) && World.Forward(first, w.chain) && !Mixed(first)
    requires Fresh(first) ==> w.log != [] && w.log[0] == Preflight
    modifies w
    ensures w.Valid() && World.Forward(old(w.chain), w.chain) && Below(w.log, w.n, 2 + w.n)
    ensures w.log == old(w.log) || (exists e: Event :: e.Source? && w.log == old(w.log) + [e])
    ensures w.submitAnswers == old(w.submitAnswers)
    ensures r.Success? ==> |second| == w.n && w.log == old(w.log) + Sourcing(second) && Sourceable(second, stored)
    ensures r.Success? ==> r.value == SourceHash(w, second, stored) && (SomeBelow(second, 3) ==> r.value.Some?)
    ensures HasSource(w.log) && OnlyOpening(old(w.log)) ==> |second| == w.n && !SomeFunded(second) && !SomeBelow(second, 1) && World.Forward(second, w.chain)
    ensures Mixed(second) ==> r.Failure? && w.log == old(w.log)
    ensures w.calm ==> second == old(w.chain) && (r.Success? <==> Sourceable(second, stored))
    ensures w.calm && r.Success? ==> w.chain == if Fresh(second) then Effect(second, Source(true)) else second
  {
    second := [];
    var read := w.ReadStates();
    if read.Failure? { r := Failure(()); return; }
    var states := read.value;
    second := states;
    if exists i :: 0 <= i < |states| && (states[i].status < 1 || states[i].status > 6) { r := Failure(()); return; }
    if Mixed(states) { r := Failure(()); return; }
    if Fresh(states) { FreshBefore(first, states); }
    r := TakeSource(w, stored, states);
  }

  /** The hash of the source: of the one sent now, if this reading calls for it. */
  method TakeSource(w: World, stored: Option<nat>, states: seq<Reading>) returns (r: Answer<Option<nat>>)
    requires w.Valid() && Below(w.log, w.n, 1 + w.n) && World.Forward(states, w.chain)
    requires AllWithin(states, 1, 6) && !Mixed(states) && |states| == w.n
    requires Fresh(states) ==> w.log != [] && w.log[0] == Preflight
    modifies w
    ensures w.Valid() && World.Forward(old(w.chain), w.chain) && Below(w.log, w.n, 2 + w.n)
    ensures w.log == old(w.log) || (Fresh(states) && exists e: Event :: e.Source? && w.log == old(w.log) + [e])
    ensures w.submitAnswers == old(w.submitAnswers)
    ensures r.Success? ==> w.log == old(w.log) + Sourcing(states) && Sourceable(states, stored)
    ensures r.Success? ==> r.value == SourceHash(w, states, stored) && (SomeBelow(states, 3) ==> r.value.Some?)
    ensures w.calm ==> (r.Success? <==> Sourceable(states, stored))
    ensures w.calm && r.Success? && states == old(w.chain) ==> w.chain == if Fresh(states) then Effect(states, Source(true)) else states
  {
    var hash := stored;
    if Fresh(states) {
      var accepted := forall i :: 0 <= i < |w.chain| ==> w.chain[i].status >= 1;
      var answer := w.UndertakeSource(accepted);
      if answer.Failure? { r := Failure(()); return; }
      hash := Some(answer.value);
    }
    if hash.None? && SomeBelow(states, 3) { r := Failure(()); return; }
    r := Success(hash);
  }

  lemma FreshBefore(a: seq<Reading>, b: seq<Reading>)
    requires World.Forward(a, b) && Fresh(b)
    ensures Fresh(a)
  {
    var k :| 0 <= k < |b| && b[k].status < 3;
    assert a[k].status < 3;
    forall i | 0 <= i < |a|
      ensures !a[i].funded
    {
      assert !b[i].funded;
    }
  }

  lemma Regroup(base: seq<Event>, a: seq<Event>, b: seq<Event>, c: seq<Event>, d: seq<Event>)
    ensures base + a + b + c + d == base + (a + b + c + d)
  {
  }

  function Registering(child: nat, s: Reading): seq<Event> {
    if s.status == 1 || s.status == 2 then [Registration(child, true)] else []
  }

  function Confirming(child: nat, s: Reading, source: Option<nat>): seq<Event> {
    if s.status == 1 then [Provenance(child, source), Confirm(child, true, source)] else []
  }

  function Submitting(child: nat, s: Reading): seq<Event> {
    if s.status == 2 then [Submit(child)] else []
  }

  function Delivering(child: nat, s: Reading, submission: Option<nat>): seq<Event> {
    if s.status == 3 then [Downstream(child, submission)] else []
  }

  /** A part of a run, whether it finished or not, that undertook no source. */
  predicate Grew(before: seq<Event>, after: seq<Event>) {
    before <= after && forall i :: |before| <= i < |after| ==> !after[i].Source?
  }

  method Register(w: World, child: nat, state: Reading) returns (r: Answer<()>)
    requires w.Valid() && child < w.n && Below(w.log, w.n, 2 + w.n + 5 * child)
    requires state.funded ==> w.chain[child].funded
    modifies w
    ensures w.Valid() && World.Forward(old(w.chain), w.chain) && Below(w.log, w.n, 3 + w.n + 5 * child)
    ensures w.sourceAnswer == old(w.sourceAnswer) && w.submitAnswers == old(w.submitAnswers)
    ensures Grew(old(w.log), w.log)
    ensures r.Success? ==> w.log == old(w.log) + Registering(child, state)
    ensures (state.status == 1 || state.status == 2) && !state.funded ==> r.Failure? && w.log == old(w.log)
    ensures w.calm ==> w.chain == old(w.chain) && (r.Success? <==> (state.status == 1 || state.status == 2 ==> state.funded))
  {
    if state.status == 1 || state.status == 2 {
      if !state.funded { return Failure(()); }
      r := w.Undertake(Registration(child, w.chain[child].funded));
    } else {
      r := Success(());
    }
  }

  /** Confirmation from status 1, with the state read again afterwards. */
  method ConfirmSource(w: World, child: nat, state: Reading, source: Option<nat>) returns (r: Answer<Reading>)
    requires w.Valid() && child < w.n && Below(w.log, w.n, 3 + w.n + 5 * child)
    requires state.funded ==> w.chain[child].funded
    modifies w
    ensures w.Valid() && World.Forward(old(w.chain), w.chain) && Below(w.log, w.n, 5 + w.n + 5 * child)
    ensures w.sourceAnswer == old(w.sourceAnswer) && w.submitAnswers == old(w.submitAnswers)
    ensures Grew(old(w.log), w.log)
    ensures r.Success? ==> w.log == old(w.log) + Confirming(child, state, source)
    ensures r.Success? && state.status != 1 ==> r.value == state
    ensures state.status == 1 && (!state.funded || source.None?) ==> r.Failure? && w.log == old(w.log)
    ensures w.calm ==> (r.Success? <==> (state.status == 1 ==> state.funded && source.Some?))
    ensures w.calm && r.Success? && state == old(w.chain)[child] ==>
              r.value == w.chain[child] && w.chain == if state.status == 1 then Raise(old(w.chain), child, 2) else old(w.chain)
  {
    if state.status != 1 { return Success(state); }
    if !state.funded || source.None? { return Failure(()); }
    var _ :- w.Undertake(Provenance(child, source));
    var _ :- w.Undertake(Confirm(child, w.chain[child].funded, source));
    r := w.ReadState(child);
  }

  /** Submission from status 2; its answer is what is delivered next, and the stored submission otherwise. */
  method SubmitChild(w: World, child: nat, state: Reading, stored: Option<nat>) returns (r: Answer<Reading>, submission: Option<nat>)
    requires w.Valid() && child < w.n && Below(w.log, w.n, 5 + w.n + 5 * child)
    modifies w
    ensures w.Valid() && World.Forward(old(w.chain), w.chain) && Below(w.log, w.n, 6 + w.n + 5 * child)
    ensures w.sourceAnswer == old(w.sourceAnswer) && OnlyAnswers(old(w.submitAnswers), w.submitAnswers, child)
    ensures Grew(old(w.log), w.log)
    ensures r.Success? ==> w.log == old(w.log) + Submitting(child, state)
    ensures state.status != 2 ==> r == Success(state) && submission == stored
    ensures r.Success? && state.status == 2 ==> child in w.submitAnswers && submission == Some(w.submitAnswers[child])
    ensures w.calm ==> r.Success?
    ensures w.calm && state == old(w.chain)[child] ==>
              r.value == w.chain[child] && w.chain == if state.status == 2 then Raise(old(w.chain), child, 3) else old(w.chain)
  {
    submission := stored;
    if state.status != 2 { return Success(state), submission; }
    var sent := w.UndertakeSubmit(child);
    if sent.Failure? { return Failure(()), submission; }
    submission := Some(sent.value);
    r := w.ReadState(child);
  }

  /** Nobody's submission but this child's was answered. */
  ghost predicate OnlyAnswers(before: map<nat, nat>, after: map<nat, nat>, child: nat) {
    forall c :: c != child ==> (c in after <==> c in before) && (c in before ==> after[c] == before[c])
  }

  method Deliver(w: World, child: nat, state: Reading, submission: Option<nat>) returns (r: Answer<()>)
    requires w.Valid() && child < w.n && Below(w.log, w.n, 6 + w.n + 5 * child)
    modifies w
    ensures w.Valid() && World.Forward(old(w.chain), w.chain) && Below(w.log, w.n, 7 + w.n + 5 * child)
    ensures w.sourceAnswer == old(w.sourceAnswer) && w.submitAnswers == old(w.submitAnswers)
    ensures Grew(old(w.log), w.log)
    ensures r.Success? ==> w.log == old(w.log) + Delivering(child, state, submission)
    ensures state.status == 3 && submission.None? ==> r.Failure? && w.log == old(w.log)
    ensures w.calm ==> w.chain == old(w.chain) && (r.Success? <==> (state.status == 3 ==> submission.Some?))
  {
    if state.status != 3 { return Success(()); }
    if submission.None? { return Failure(()); }
    r := w.Undertake(Downstream(child, submission));
  }

  /**
   What a run read of a child before registration, after confirmation and after
   submission, and the submission it delivers.
   */
  datatype ChildRun = ChildRun(start: Reading, confirmed: Reading, submitted: Reading, submission: Option<nat>)

  function ChildEvents(child: nat, run: ChildRun, source: Option<nat>): seq<Event> {
    Registering(child, run.start) + Confirming(child, run.start, source)
    + Submitting(child, run.confirmed) + Delivering(child, run.submitted, run.submission)
  }

  function AllEvents(runs: seq<ChildRun>, source: Option<nat>): seq<Event> {
    if runs == [] then []
    else AllEvents(runs[..|runs| - 1], source) + ChildEvents(|runs| - 1, runs[|runs| - 1], source)
  }

  lemma AllEventsSnoc(base: seq<Event>, runs: seq<ChildRun>, run: ChildRun, source: Option<nat>)
    ensures base + AllEvents(runs + [run], source) == base + AllEvents(runs, source) + ChildEvents(|runs|, run, source)
  {
  }

  /** The submission delivered is the child's own: the answer of this run's submission, or else the stored one. */
  ghost predicate OwnSubmission(answers: map<nat, nat>, child: nat, run: ChildRun, stored: Option<nat>) {
    if run.confirmed.status == 2 then child in answers && run.submission == Some(answers[child]) else run.submission == stored
  }

  /** The readings of a child when nothing interferes: each effect raises the status it waits for. */
  function CalmReadings(start: Reading): (Reading, Reading) {
    var confirmed := if start.status == 1 then start.(status := 2) else start;
    var submitted := if confirmed.status == 2 then confirmed.(status := 3) else confirmed;
    (confirmed, submitted)
  }

  /**
   One child.  The run undertakes what each of the three readings calls for and
   nothing else: registration for status 1 or 2, confirmation for 1, then
   submission for 2, then delivery for 3.
   */
  method ChildStage(w: World, child: nat, source: Option<nat>, stored: Option<nat>)
    returns (r: Answer<()>, ghost run: ChildRun)
    requires w.Valid() && child < w.n && Below(w.log, w.n, 2 + w.n + 5 * child)
    modifies w
    ensures w.Valid() && World.Forward(old(w.chain), w.chain) && Below(w.log, w.n, 2 + w.n + 5 * (child + 1))
    ensures w.sourceAnswer == old(w.sourceAnswer) && OnlyAnswers(old(w.submitAnswers), w.submitAnswers, child)
    ensures Grew(old(w.log), w.log)
    ensures r.Success? ==> w.log == old(w.log) + ChildEvents(child, run, source)
    ensures r.Success? ==> OwnSubmission(w.submitAnswers, child, run, stored)
    ensures r.Success? && run.submitted.status == 3 ==> run.submission.Some?
    ensures w.calm ==> (r.Success? <==> Workable(old(w.chain)[child], source, stored))
    ensures w.calm && r.Success? ==>
              && run.start == old(w.chain)[child] && (run.confirmed, run.submitted) == CalmReadings(run.start)
              && w.chain == old(w.chain)[child := run.submitted]
  {
    run := ChildRun(Reading(0, false), Reading(0, false), Reading(0, false), None);
    ghost var before := w.log;
    ghost var start, submitted, hash;
    var confirmed;
    confirmed, start := ReachConfirmed(w, child, source);
    if confirmed.Failure? { return Failure(()), run; }
    r, submitted, hash := ReachDelivered(w, child, confirmed.value, stored);
    run := ChildRun(start, confirmed.value, submitted, hash);
    Regroup(before, Registering(child, run.start), Confirming(child, run.start, source),
            Submitting(child, run.confirmed), Delivering(child, run.submitted, hash));
  }

  /** The first reading of a child, its registration and its confirmation. */
  method ReachConfirmed(w: World, child: nat, source: Option<nat>) returns (r: Answer<Reading>, ghost start: Reading)
    requires w.Valid() && child < w.n && Below(w.log, w.n, 2 + w.n + 5 * child)
    modifies w
    ensures w.Valid() && World.Forward(old(w.chain), w.chain) && Below(w.log, w.n, 5 + w.n + 5 * child)
    ensures w.sourceAnswer == old(w.sourceAnswer) && w.submitAnswers == old(w.submitAnswers)
    ensures Grew(old(w.log), w.log)
    ensures r.Success? ==> w.log == old(w.log) + Registering(child, start) + Confirming(child, start, source)
    ensures w.calm ==> start == old(w.chain)[child]
    ensures w.calm ==> (r.Success? <==> (start.status == 1 || start.status == 2 ==> start.funded) && (start.status == 1 ==> source.Some?))
    ensures w.calm && r.Success? ==>
              r.value == CalmReadings(start).0 && w.chain == old(w.chain)[child := r.value]
  {
    start := w.chain[child];
    var state := w.ReadState(child);
    if state.Failure? { return Failure(()), start; }
    start := state.value;
    var registered := Register(w, child, state.value);
    if registered.Failure? { return Failure(()), start; }
    r := ConfirmSource(w, child, state.value, source);
  }

  /** Its submission and its delivery. */
  method ReachDelivered(w: World, child: nat, state: Reading, stored: Option<nat>)
    returns (r: Answer<()>, ghost submitted: Reading, ghost submission: Option<nat>)
    requires w.Valid() && child < w.n && Below(w.log, w.n, 5 + w.n + 5 * child)
    modifies w
    ensures w.Valid() && World.Forward(old(w.chain), w.chain) && Below(w.log, w.n, 7 + w.n + 5 * child)
    ensures w.sourceAnswer == old(w.sourceAnswer) && OnlyAnswers(old(w.submitAnswers), w.submitAnswers, child)
    ensures Grew(old(w.log), w.log)
    ensures r.Success? ==> w.log == old(w.log) + Submitting(child, state) + Delivering(child, submitted, submission)
    ensures r.Success? && submitted.status == 3 ==> submission.Some?
    ensures r.Success? ==> OwnSubmission(w.submitAnswers, child, ChildRun(state, state, submitted, submission), stored)
    ensures w.calm && state == old(w.chain)[child] ==> (r.Success? <==> (state.status == 3 ==> stored.Some?))
    ensures w.calm && r.Success? && state == old(w.chain)[child] ==>
              && submitted == (if state.status == 2 then state.(status := 3) else state)
              && w.chain == old(w.chain)[child := submitted]
  {
    var read, hash := SubmitChild(w, child, state, stored);
    submission, submitted := hash, state;
    if read.Failure? { return Failure(()), submitted, submission; }
    submitted := read.value;
    r := Deliver(w, child, read.value, hash);
  }

  /** From which chain and stored hashes an undisturbed run ends well. */
  predicate Completable(chain: seq<Reading>, storedSource: Option<nat>, stored: seq<Option<nat>>)
    requires |stored| == |chain|
  {
    && !Mixed(chain) && AllWithin(chain, 0, 6)
    && (AllFunded(chain) && SomeBelow(chain, 3) ==> storedSource.Some?)
    && forall c :: 0 <= c < |chain| && chain[c].status == 3 ==> stored[c].Some?
  }

  /**
   A whole run.  What it undertakes is in plan order, each event at most once; a
   source is undertaken only behind a preflight of this run, with every child
   accepted and a reading without any funding; a confirmation only with its
   escrow funded and a source hash at hand.  A run that ends well undertook
   exactly what its readings call for, child by child, with each child's own
   submission; in a calm period it ends well exactly when the chain and the stored
   hashes allow it, and then no child is left where the run could take it further.
   */
  method RunExecution(w: World, storedSource: Option<nat>, storedSubmissions: seq<Option<nat>>)
    returns (r: Answer<()>, ghost first: seq<Reading>, ghost second: seq<Reading>, ghost runs: seq<ChildRun>, ghost source: Option<nat>)
    requires w.Valid() && w.log == [] && |storedSubmissions| == w.n
    modifies w
    ensures InPlanOrder(w.log, w.n) && Guarded(w.log)
    ensures r.Success? ==>
              && |first| == |second| == |runs| == w.n
              && w.log == Opening(first) + Accepting(first, w.n) + Sourcing(second) + AllEvents(runs, source)
    ensures r.Success? ==> source == if Fresh(second) then w.sourceAnswer else storedSource
    ensures r.Success? ==> OwnSubmissions(w.submitAnswers, runs, storedSubmissions)
    ensures HasSource(w.log) ==>
              |second| == w.n && !SomeFunded(second) && !SomeBelow(second, 1) && World.Forward(second, w.chain)
    ensures Mixed(first) ==> r.Failure? && w.log == []
    ensures Mixed(second) ==> r.Failure? && OnlyOpening(w.log)
    ensures w.calm ==> |old(w.chain)| == w.n && (r.Success? <==> Completable(old(w.chain), storedSource, storedSubmissions))
    ensures w.calm && r.Success? ==> AllWithin(w.chain, 3, 6)
  {
    runs, source := [], None;
    ghost var start := w.chain;
    var sourced: Answer<Option<nat>>;
    sourced, first, second := ReachSource(w, storedSource);
    if sourced.Failure? {
      if w.calm { CalmFailure(start, storedSource, storedSubmissions); }
      r := Failure(());
      return;
    }
    source := sourced.value;
    r, runs := ChildrenStage(w, sourced.value, storedSubmissions);
    if w.calm {
      CalmRun(start, storedSource, source, storedSubmissions, w.chain, r.Success?);
    }
  }

  lemma CalmRun(start: seq<Reading>, storedSource: Option<nat>, source: Option<nat>, stored: seq<Option<nat>>, end: seq<Reading>, ok: bool)
    requires CalmlySourceable(start, storedSource) && |stored| == |start|
    requires var second := AcceptedTo(start, |start|);
             && (SomeBelow(second, 3) ==> source.Some?) && (Fresh(second) || source == storedSource)
             && (ok <==> AllWorkable(Sourced(second), source, stored))
             && (ok ==> CalmlyHandled(Sourced(second), end, source, stored, |start|))
    ensures ok <==> Completable(start, storedSource, stored)
    ensures ok ==> AllWithin(end, 3, 6)
  {
    CalmOutcome(start, storedSource, source, stored);
    if ok { CalmEnd(start, end); }
  }

  /** Acceptance and source. */
  method ReachSource(w: World, stored: Option<nat>)
    returns (r: Answer<Option<nat>>, ghost first: seq<Reading>, ghost second: seq<Reading>)
    requires w.Valid() && w.log == []
    modifies w
    ensures w.Valid() && World.Forward(old(w.chain), w.chain) && Below(w.log, w.n, 2 + w.n)
    ensures w.submitAnswers == old(w.submitAnswers)
    ensures r.Success? ==>
              |first| == |second| == w.n && w.log == Opening(first) + Accepting(first, w.n) + Sourcing(second)
    ensures r.Success? ==> r.value == SourceHash(w, second, stored) && (SomeBelow(second, 3) ==> r.value.Some?)
    ensures HasSource(w.log) ==>
              |second| == w.n && !SomeFunded(second) && !SomeBelow(second, 1) && World.Forward(second, w.chain)
    ensures Mixed(first) ==> r.Failure? && w.log == []
    ensures Mixed(second) ==> r.Failure? && OnlyOpening(w.log)
    ensures w.calm ==> (r.Success? <==> CalmlySourceable(old(w.chain), stored))
    ensures w.calm && r.Success? ==> second == AcceptedTo(old(w.chain), w.n) && w.chain == Sourced(second)
  {
    second := [];
    var accepted;
    accepted, first := AcceptStage(w);
    if accepted.Failure? { r := Failure(()); return; }
    r, second := SourceStage(w, stored, first);
  }

  predicate CalmlySourceable(start: seq<Reading>, stored: Option<nat>) {
    !Mixed(start) && Sourceable(AcceptedTo(start, |start|), stored)
  }

  lemma CalmFailure(start: seq<Reading>, storedSource: Option<nat>, stored: seq<Option<nat>>)
    requires |stored| == |start| && !CalmlySourceable(start, storedSource)
    ensures !Completable(start, storedSource, stored)
  {
    if !Mixed(start) {
      CalmOutcome(start, storedSource, if Fresh(AcceptedTo(start, |start|)) then Some(0) else storedSource, stored);
    }
  }

  ghost predicate AllWorkable(chain: seq<Reading>, source: Option<nat>, stored: seq<Option<nat>>)
    requires |stored| == |chain|
  {
    forall c :: 0 <= c < |chain| ==> Workable(chain[c], source, stored[c])
  }

  /** The chain the children are found on when nothing interferes. */
  function Sourced(second: seq<Reading>): seq<Reading> {
    if Fresh(second) then Effect(second, Source(true)) else second
  }

  /** When nothing interferes, the first chain says whether source and children go through. */
  lemma CalmOutcome(start: seq<Reading>, storedSource: Option<nat>, source: Option<nat>, stored: seq<Option<nat>>)
    requires !Mixed(start) && |stored| == |start|
    requires Fresh(AcceptedTo(start, |start|)) || source == storedSource
    ensures !Sourceable(AcceptedTo(start, |start|), storedSource) ==> !Completable(start, storedSource, stored)
    ensures Sourceable(AcceptedTo(start, |start|), storedSource) && (SomeBelow(AcceptedTo(start, |start|), 3) ==> source.Some?) ==>
              (AllWorkable(Sourced(AcceptedTo(start, |start|)), source, stored) <==> Completable(start, storedSource, stored))
  {
    var second := AcceptedTo(start, |start|);
    var third := Sourced(second);
    forall c | 0 <= c < |start|
      ensures second[c].funded == start[c].funded && (start[c].status == third[c].status || (start[c].status == 0 && third[c].status == 1))
    {
    }
    if Sourceable(second, storedSource) && (SomeBelow(second, 3) ==> source.Some?) {
      SourcedIsFunded(second);
      if Completable(start, storedSource, stored) {
        forall c | 0 <= c < |start|
          ensures Workable(third[c], source, stored[c])
        {
        }
      }
      if AllWorkable(third, source, stored) {
        forall c | 0 <= c < |start| && start[c].status == 3
          ensures stored[c].Some?
        {
          assert Workable(third[c], source, stored[c]);
        }
        assert SomeBelow(start, 3) && AllFunded(start) ==> SomeBelow(second, 3) && !Fresh(second);
      }
    }
  }

  lemma SourcedIsFunded(second: seq<Reading>)
    requires !Mixed(second)
    ensures forall c :: 0 <= c < |second| && Sourced(second)[c].status < 3 ==> Sourced(second)[c].funded
    ensures forall c :: 0 <= c < |second| ==> Sourced(second)[c].status == second[c].status
  {
  }

  /** And a child the run dealt with is submitted or beyond. */
  lemma CalmEnd(start: seq<Reading>, end: seq<Reading>)
    requires AllWithin(start, 0, 6) && |end| == |start|
    requires forall c :: 0 <= c < |end| ==> end[c] == CalmReadings(Sourced(AcceptedTo(start, |start|))[c]).1
    ensures AllWithin(end, 3, 6)
  {
  }

  /** The children one after the other. */
  method ChildrenStage(w: World, source: Option<nat>, stored: seq<Option<nat>>) returns (r: Answer<()>, ghost runs: seq<ChildRun>)
    requires w.Valid() && Below(w.log, w.n, 2 + w.n) && |stored| == w.n
    modifies w
    ensures w.Valid() && World.Forward(old(w.chain), w.chain) && (HasSource(w.log) ==> HasSource(old(w.log)))
    ensures w.sourceAnswer == old(w.sourceAnswer)
    ensures r.Success? ==> |runs| == w.n && w.log == old(w.log) + AllEvents(runs, source)
    ensures r.Success? ==> OwnSubmissions(w.submitAnswers, runs, stored)
    ensures w.calm ==> (r.Success? <==> AllWorkable(old(w.chain), source, stored))
    ensures w.calm && r.Success? ==> CalmlyHandled(old(w.chain), w.chain, source, stored, w.n)
  {
    ghost var staged, chain := w.log, w.chain;
    runs := [];
    for i := 0 to w.n
      invariant w.Valid() && World.Forward(chain, w.chain) && Below(w.log, w.n, 2 + w.n + 5 * i)
      invariant w.sourceAnswer == old(w.sourceAnswer)
      invariant Grew(staged, w.log) && |runs| == i
      invariant w.log == staged + AllEvents(runs, source)
      invariant OwnSubmissions(w.submitAnswers, runs, stored)
      invariant w.calm ==> CalmlyHandled(chain, w.chain, source, stored, i)
    {
      ghost var run;
      ghost var before, answers := w.chain, w.submitAnswers;
      r, run := ChildStage(w, i, source, stored[i]);
      if r.Failure? { return; }
      AllEventsSnoc(staged, runs, run, source);
      if w.calm { OneMoreHandled(chain, before, w.chain, source, stored, i); }
      OneMoreSubmission(answers, w.submitAnswers, runs, run, stored);
      runs := runs + [run];
    }
    r := Success(());
  }

  lemma OneMoreHandled(chain: seq<Reading>, before: seq<Reading>, now: seq<Reading>, source: Option<nat>, stored: seq<Option<nat>>, i: nat)
    requires CalmlyHandled(chain, before, source, stored, i) && i < |chain|
    requires Workable(before[i], source, stored[i]) && now == before[i := CalmReadings(before[i]).1]
    ensures CalmlyHandled(chain, now, source, stored, i + 1)
  {
  }

  ghost predicate OwnSubmissions(answers: map<nat, nat>, runs: seq<ChildRun>, stored: seq<Option<nat>>) {
    |runs| <= |stored| && forall c :: 0 <= c < |runs| ==> OwnSubmission(answers, c, runs[c], stored[c])
  }

  lemma OneMoreSubmission(before: map<nat, nat>, after: map<nat, nat>, runs: seq<ChildRun>, run: ChildRun, stored: seq<Option<nat>>)
    requires OwnSubmissions(before, runs, stored) && |runs| < |stored| && OnlyAnswers(before, after, |runs|)
    requires OwnSubmission(after, |runs|, run, stored[|runs|])
    ensures OwnSubmissions(after, runs + [run], stored)
  {
    forall c | 0 <= c < |runs|
      ensures OwnSubmission(after, c, runs[c], stored[c])
    {
      assert OwnSubmission(before, c, runs[c], stored[c]);
    }
  }

  /** The first k children were dealt with, the others are as they were. */
  ghost predicate CalmlyHandled(chain: seq<Reading>, now: seq<Reading>, source: Option<nat>, stored: seq<Option<nat>>, k: nat) {
    && |now| == |chain| == |stored|
    && (forall c :: 0 <= c < k && c < |chain| ==> Workable(chain[c], source, stored[c]) && now[c] == CalmReadings(chain[c]).1)
    && (forall c :: k <= c < |chain| ==> now[c] == chain[c])
  }

  /** Plan order spelled out for one child: delivery after submission after confirmation after its provenance. */
  lemma ChildStepsOrdered(log: seq<Event>, n: nat, i: nat, j: nat)
    requires InPlanOrder(log, n) && i < |log| && j < |log|
    requires (log[i].Registration? && log[j].Provenance?) || (log[i].Provenance? && log[j].Confirm?)
             || (log[i].Confirm? && log[j].Submit?) || (log[i].Submit? && log[j].Downstream?)
    requires log[i].child == log[j].child
    ensures i < j
  {
  }

  /** Nothing downstream of the source precedes it, and the source happens once. */
  lemma SourceSplitsTheRun(log: seq<Event>, n: nat, i: nat, j: nat)
    requires InPlanOrder(log, n) && i < |log| && j < |log| && i != j && log[i].Source?
    requires log[j].Accept? ==> log[j].child < n
    ensures !log[j].Source?
    ensures (log[j] == Preflight || log[j].Accept?) <==> j < i
  {
  }
}
