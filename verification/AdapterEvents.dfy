/**
 The projection of payout adapter events to the public lifecycle.  The two
 versions differ in the withdrawal, which only V4 reports on its own.
 */
module AdapterEvents {
  import opened Wrappers
  import opened Lifecycle

  datatype Version = V3 | V4

  datatype EventType =
    | QuoteAcceptedEvent | WithdrawalConfirmed | ReceiptConfirmed | Submitted | Completed
    | EscrowRefund | Refund | RefundClaimed

  datatype Input = Input(eventId: string, kind: EventType, evidenceHash: Option<string>, updatedAt: Option<string>)

  /** What every public event of one adapter event shares. */
  function Public(x: Input, suffix: string, status: Status, authority: Authority, reasonHash: Option<string>): Event {
    Event(x.eventId + ":" + suffix, status, authority, reasonHash, x.updatedAt)
  }

  function Project(v: Version, x: Input): Result<seq<Event>, LifecycleError> {
    match x.kind
    case QuoteAcceptedEvent =>
      Success([Public(x, "quote", QuoteAccepted, System, None), Public(x, "escrow", EscrowAddressReserved, System, None)])
    case WithdrawalConfirmed =>
      if v == V4 then Success([Public(x, "withdrawal", PoolWithdrawalPending, Operator, None)]) else Failure(UnknownType)
    case ReceiptConfirmed =>
      if v == V4 then Success([Public(x, "receipt", EscrowReceiptConfirmed, System, None)])
      else Success([Public(x, "withdrawal-pending", PoolWithdrawalPending, System, None),
                    Public(x, "receipt", EscrowReceiptConfirmed, System, None)])
    case Submitted =>
      Success([Public(x, "pending", PayoutPending, Operator, None), Public(x, "submitted", PayoutSubmitted, ProviderContract, None)])
    case Completed => Success([Public(x, "completed", PayoutCompleted, ProofVerifier, None)])
    case EscrowRefund =>
      Success([Public(x, "expired", PayoutExpired, PublicExpiry, x.evidenceHash), Public(x, "available", RefundAvailable, PublicExpiry, None)])
    case Refund =>
      Success([Public(x, "expired", PayoutExpired, PublicExpiry, x.evidenceHash), Public(x, "available", RefundAvailable, PublicExpiry, None)])
    case RefundClaimed =>
      if Given(x.evidenceHash) then Success([Public(x, "refunded", Refunded, RefundClaimant, x.evidenceHash)])
      else Failure(EvidenceRequired)
  }

  /** The public record after a sequence of adapter events. */
  function Replay(v: Version, r: Record, xs: seq<Input>): Result<Record, LifecycleError> {
    if xs == [] then Success(r)
    else
      var before :- Replay(v, r, xs[..|xs| - 1]);
      var events :- Project(v, xs[|xs| - 1]);
      ApplyAll(before, events)
  }

  // ------------------------------------------------------------- the adapter

  /** How far a payout is, as the adapter orders its events; recovery is possible at each stage up to submission. */
  datatype Stage = NotStarted | Quoted | Withdrawn | Received | Sent | Done | Recovering | Recovered

  function After(v: Version, stage: Stage, kind: EventType): Option<Stage> {
    match kind
    case QuoteAcceptedEvent => if stage == NotStarted then Some(Quoted) else None
    case WithdrawalConfirmed => if v == V4 && stage == Quoted then Some(Withdrawn) else None
    case ReceiptConfirmed => if stage == (if v == V4 then Withdrawn else Quoted) then Some(Received) else None
    case Submitted => if stage == Received then Some(Sent) else None
    case Completed => if stage == Sent then Some(Done) else None
    case EscrowRefund => if stage in {Quoted, Withdrawn, Received, Sent} then Some(Recovering) else None
    case Refund => if stage in {Quoted, Withdrawn, Received, Sent} then Some(Recovering) else None
    case RefundClaimed => if stage == Recovering then Some(Recovered) else None
  }

  function StageOf(v: Version, xs: seq<Input>): Option<Stage> {
    if xs == [] then Some(NotStarted)
    else
      var before := StageOf(v, xs[..|xs| - 1]);
      if before.Some? then After(v, before.value, xs[|xs| - 1].kind) else None
  }

  function StatusAt(stage: Stage): Status {
    match stage
    case NotStarted => PayoutRequested
    case Quoted => EscrowAddressReserved
    case Withdrawn => PoolWithdrawalPending
    case Received => EscrowReceiptConfirmed
    case Sent => PayoutSubmitted
    case Done => PayoutCompleted
    case Recovering => RefundAvailable
    case Recovered => Refunded
  }

  predicate ClaimsHaveEvidence(xs: seq<Input>) {
    forall i :: 0 <= i < |xs| && xs[i].kind == RefundClaimed ==> Given(xs[i].evidenceHash)
  }

  predicate DistinctIds(xs: seq<Input>) {
    forall i, j :: 0 <= i < j < |xs| ==> xs[i].eventId != xs[j].eventId
  }

  // --------------------------------------------------------------- event ids

  predicate NoColon(s: string) {
    forall i :: 0 <= i < |s| ==> s[i] != ':'
  }

  /** An event id says which adapter event and which suffix it came from, whatever the adapter's id contains. */
  lemma EventIdsAreInjective(a: string, s: string, b: string, t: string)
    requires NoColon(s) && NoColon(t) && a + ":" + s == b + ":" + t
    ensures a == b && s == t
  {
    NoLaterColon(a, s);
    NoLaterColon(b, t);
    var x := a + ":" + s;
    assert x == b + ":" + t && |a| == |b|;
    assert x[..|a|] == a && x[..|b|] == b;
    assert x[|a| + 1..] == s && x[|b| + 1..] == t;
  }

  lemma NoLaterColon(a: string, s: string)
    requires NoColon(s)
    ensures (a + ":" + s)[|a|] == ':'
    ensures forall k :: |a| < k < |a + ":" + s| ==> (a + ":" + s)[k] != ':'
  {
  }

  /** Every id in a trail belongs to one of these adapter events. */
  ghost predicate FromOneOf(id: string, xs: seq<Input>) {
    exists i, s :: 0 <= i < |xs| && IdOf(id, xs[i].eventId, s)
  }

  predicate IdOf(id: string, eventId: string, suffix: string) {
    NoColon(suffix) && id == eventId + ":" + suffix
  }

  /** No id of this adapter event has been used. */
  ghost predicate Unused(r: Record, x: Input) {
    forall s :: NoColon(s) ==> Public(x, s, PayoutRequested, System, None).eventId !in r.auditEventIds
  }

  lemma SuffixesHaveNoColon()
    ensures NoColon("quote") && NoColon("escrow") && NoColon("withdrawal") && NoColon("withdrawal-pending") && NoColon("receipt")
    ensures NoColon("pending") && NoColon("submitted") && NoColon("completed") && NoColon("expired") && NoColon("available")
    ensures NoColon("refunded")
  {
  }

  lemma ApplyOne(r: Record, e: Event)
    requires e.eventId !in r.auditEventIds && (NeedsReason(e.status) ==> Given(e.reasonHash))
    ensures Apply(r, e).Success? <==> e.status in Next(r.status)
    ensures Apply(r, e).Success? ==>
              Apply(r, e).value.status == e.status && Apply(r, e).value.auditEventIds == r.auditEventIds + [e.eventId]
  {
  }

  lemma ApplyAllOf(r: Record, e: Event, f: Event)
    ensures ApplyAll(r, [e]) == Apply(r, e)
    ensures ApplyAll(r, [e, f]) == if Apply(r, e).Success? then Apply(Apply(r, e).value, f) else Apply(r, e)
  {
  }

  lemma ApplyTwo(r: Record, e: Event, f: Event)
    requires e.eventId !in r.auditEventIds && f.eventId !in r.auditEventIds && e.eventId != f.eventId
    requires !NeedsReason(e.status) && !NeedsReason(f.status)
    ensures ApplyAll(r, [e, f]).Success? <==> e.status in Next(r.status) && f.status in Next(e.status)
    ensures ApplyAll(r, [e, f]).Success? ==>
              && ApplyAll(r, [e, f]).value.status == f.status
              && ApplyAll(r, [e, f]).value.auditEventIds == r.auditEventIds + [e.eventId, f.eventId]
  {
    ApplyOne(r, e);
    ApplyAllOf(r, e, f);
    if Apply(r, e).Success? {
      ApplyOne(Apply(r, e).value, f);
    }
  }

  /** A projection has one or two events, with different suffixes and no reason missing. */
  predicate WellFormed(x: Input, events: seq<Event>, s: string, t: string) {
    && NoColon(s) && NoColon(t) && s != t
    && 1 <= |events| <= 2
    && events[0] == Public(x, s, events[0].status, events[0].authority, events[0].reasonHash)
    && (NeedsReason(events[0].status) ==> |events| == 1 && Given(events[0].reasonHash))
    && (|events| == 2 ==> events[1] == Public(x, t, events[1].status, events[1].authority, events[1].reasonHash)
                          && !NeedsReason(events[1].status))
  }

  lemma ProjectionIsWellFormed(v: Version, x: Input) returns (s: string, t: string)
    requires Project(v, x).Success?
    ensures WellFormed(x, Project(v, x).value, s, t)
  {
    SuffixesHaveNoColon();
    match x.kind
    case QuoteAcceptedEvent => s, t := "quote", "escrow";
    case WithdrawalConfirmed => s, t := "withdrawal", "quote";
    case ReceiptConfirmed => if v == V4 { s, t := "receipt", "quote"; } else { s, t := "withdrawal-pending", "receipt"; }
    case Submitted => s, t := "pending", "submitted";
    case Completed => s, t := "completed", "quote";
    case EscrowRefund => s, t := "expired", "available";
    case Refund => s, t := "expired", "available";
    case RefundClaimed => s, t := "refunded", "quote";
  }

  /** The statuses an adapter event takes a payout through. */
  function Statuses(v: Version, kind: EventType): seq<Status> {
    match kind
    case QuoteAcceptedEvent => [QuoteAccepted, EscrowAddressReserved]
    case WithdrawalConfirmed => [PoolWithdrawalPending]
    case ReceiptConfirmed => if v == V4 then [EscrowReceiptConfirmed] else [PoolWithdrawalPending, EscrowReceiptConfirmed]
    case Submitted => [PayoutPending, PayoutSubmitted]
    case Completed => [PayoutCompleted]
    case EscrowRefund => [PayoutExpired, RefundAvailable]
    case Refund => [PayoutExpired, RefundAvailable]
    case RefundClaimed => [Refunded]
  }

  lemma ProjectedStatuses(v: Version, x: Input)
    requires Project(v, x).Success?
    ensures |Project(v, x).value| == |Statuses(v, x.kind)|
    ensures forall i :: 0 <= i < |Statuses(v, x.kind)| ==> Project(v, x).value[i].status == Statuses(v, x.kind)[i]
    ensures x.kind == WithdrawalConfirmed ==> v == V4
  {
  }

  /** Who brings a payout to a status. */
  function AuthorityOf(v: Version, s: Status): Option<Authority> {
    match s
    case QuoteAccepted => Some(System)
    case EscrowAddressReserved => Some(System)
    case PoolWithdrawalPending => Some(if v == V4 then Operator else System)
    case EscrowReceiptConfirmed => Some(System)
    case PayoutPending => Some(Operator)
    case PayoutSubmitted => Some(ProviderContract)
    case PayoutCompleted => Some(ProofVerifier)
    case PayoutExpired => Some(PublicExpiry)
    case RefundAvailable => Some(PublicExpiry)
    case Refunded => Some(RefundClaimant)
    case _ => None
  }

  /** The part of an event id that names the status. */
  function SuffixOf(v: Version, s: Status): string {
    match s
    case QuoteAccepted => "quote"
    case EscrowAddressReserved => "escrow"
    case PoolWithdrawalPending => if v == V4 then "withdrawal" else "withdrawal-pending"
    case EscrowReceiptConfirmed => "receipt"
    case PayoutPending => "pending"
    case PayoutSubmitted => "submitted"
    case PayoutCompleted => "completed"
    case PayoutExpired => "expired"
    case RefundAvailable => "available"
    case Refunded => "refunded"
    case _ => ""
  }

  /** Each public event is fixed by its status, and the evidence goes with an expiry or a claim only. */
  lemma ProjectedEvent(v: Version, x: Input, i: nat)
    requires Project(v, x).Success? && i < |Project(v, x).value|
    ensures var e := Project(v, x).value[i];
            && Some(e.authority) == AuthorityOf(v, e.status) && e.updatedAt == x.updatedAt
            && e.eventId == x.eventId + ":" + SuffixOf(v, e.status)
            && e.reasonHash == if e.status == PayoutExpired || e.status == Refunded then x.evidenceHash else None
  {
  }

  /** A chain of one or two statuses that is legal from this one. */
  predicate LegalFrom(status: Status, chain: seq<Status>) {
    && 1 <= |chain| <= 2
    && chain[0] in Next(status) && (|chain| == 2 ==> chain[1] in Next(chain[0]))
  }

  lemma ProjectionApplies(r: Record, x: Input, events: seq<Event>, s: string, t: string)
    requires WellFormed(x, events, s, t) && Unused(r, x)
    ensures ApplyAll(r, events).Success? <==> LegalFrom(r.status, seq(|events|, i requires 0 <= i < |events| => events[i].status))
    ensures ApplyAll(r, events).Success? ==> ApplyAll(r, events).value.status == events[|events| - 1].status
    ensures ApplyAll(r, events).Success? ==>
              forall id :: id in ApplyAll(r, events).value.auditEventIds ==> id in r.auditEventIds || id in {x.eventId + ":" + s, x.eventId + ":" + t}
  {
    var e := events[0];
    assert e.eventId == Public(x, s, PayoutRequested, System, None).eventId;
    if |events| == 1 {
      assert events == [e];
      ApplyOne(r, e);
      ApplyAllOf(r, e, e);
    } else {
      var f := events[1];
      assert f.eventId == Public(x, t, PayoutRequested, System, None).eventId;
      assert events == [e, f];
      if e.eventId == f.eventId {
        EventIdsAreInjective(x.eventId, s, x.eventId, t);
      }
      ApplyTwo(r, e, f);
    }
  }

  /** At each stage the public table admits exactly the adapter events the stage admits. */
  lemma StageAdmitsExactly(v: Version, stage: Stage, kind: EventType)
    requires v == V3 ==> stage != Withdrawn && kind != WithdrawalConfirmed
    ensures LegalFrom(StatusAt(stage), Statuses(v, kind)) <==> After(v, stage, kind).Some?
    ensures After(v, stage, kind).Some? ==>
              && Statuses(v, kind)[|Statuses(v, kind)| - 1] == StatusAt(After(v, stage, kind).value)
              && (v == V3 ==> After(v, stage, kind).value != Withdrawn)
  {
  }

  lemma ProjectsExactlyWithEvidence(v: Version, stage: Stage, x: Input)
    requires After(v, stage, x.kind).Some?
    ensures Project(v, x).Success? <==> (x.kind == RefundClaimed ==> Given(x.evidenceHash))
  {
  }

  ghost predicate TrailFrom(r: Record, xs: seq<Input>) {
    forall id :: id in r.auditEventIds ==> FromOneOf(id, xs)
  }

  lemma FreshInputIsUnused(r: Record, xs: seq<Input>, x: Input)
    requires TrailFrom(r, xs) && forall i :: 0 <= i < |xs| ==> xs[i].eventId != x.eventId
    ensures Unused(r, x)
  {
    forall s | NoColon(s)
      ensures Public(x, s, PayoutRequested, System, None).eventId !in r.auditEventIds
    {
      var id := x.eventId + ":" + s;
      if id in r.auditEventIds {
        assert FromOneOf(id, xs);
        var i, t :| 0 <= i < |xs| && IdOf(id, xs[i].eventId, t);
        EventIdsAreInjective(x.eventId, s, xs[i].eventId, t);
      }
    }
  }

  lemma TrailExtends(r: Record, u: Record, xs: seq<Input>, x: Input, s: string, t: string)
    requires TrailFrom(r, xs) && NoColon(s) && NoColon(t)
    requires forall id :: id in u.auditEventIds ==> id in r.auditEventIds || id in {x.eventId + ":" + s, x.eventId + ":" + t}
    ensures TrailFrom(u, xs + [x])
  {
    var all := xs + [x];
    forall id | id in u.auditEventIds
      ensures FromOneOf(id, all)
    {
      if id in r.auditEventIds {
        assert FromOneOf(id, xs);
        var i, w :| 0 <= i < |xs| && IdOf(id, xs[i].eventId, w);
        assert IdOf(id, all[i].eventId, w);
      } else if id == x.eventId + ":" + s {
        assert IdOf(id, all[|xs|].eventId, s);
      } else {
        assert IdOf(id, all[|xs|].eventId, t);
      }
    }
  }

  /** What holds after the events so far. */
  ghost predicate Tracks(v: Version, r: Record, xs: seq<Input>) {
    && StageOf(v, xs).Some? && r.status == StatusAt(StageOf(v, xs).value)
    && (v == V3 ==> StageOf(v, xs).value != Withdrawn)
    && TrailFrom(r, xs)
  }

  lemma OneMoreEvent(v: Version, r: Record, xs: seq<Input>, x: Input)
    requires Tracks(v, r, xs) && forall i :: 0 <= i < |xs| ==> xs[i].eventId != x.eventId
    ensures var applied := if Project(v, x).Success? then ApplyAll(r, Project(v, x).value) else Failure(UnknownType);
            && (applied.Success? <==> StageOf(v, xs + [x]).Some? && (x.kind == RefundClaimed ==> Given(x.evidenceHash)))
            && (applied.Success? ==> Tracks(v, applied.value, xs + [x]))
  {
    var stage := StageOf(v, xs).value;
    StageSnoc(v, xs, x);
    if After(v, stage, x.kind).Some? {
      ProjectsExactlyWithEvidence(v, stage, x);
    }
    if Project(v, x).Success? {
      var events := Project(v, x).value;
      var s, t := ProjectionIsWellFormed(v, x);
      FreshInputIsUnused(r, xs, x);
      ProjectionApplies(r, x, events, s, t);
      ProjectedStatuses(v, x);
      StageAdmitsExactly(v, stage, x.kind);
      assert seq(|events|, i requires 0 <= i < |events| => events[i].status) == Statuses(v, x.kind);
      if ApplyAll(r, events).Success? {
        TrailExtends(r, ApplyAll(r, events).value, xs, x, s, t);
      }
    }
  }

  /**
   The public lifecycle accepts exactly the sequences the adapter can emit, with
   evidence for each claim, and ends at the status of the adapter's stage.
   */
  lemma {:induction false} ReplaysExactlyAdapterOrder(v: Version, r: Record, xs: seq<Input>)
    requires r.status == PayoutRequested && r.auditEventIds == [] && DistinctIds(xs)
    ensures Replay(v, r, xs).Success? <==> StageOf(v, xs).Some? && ClaimsHaveEvidence(xs)
    ensures Replay(v, r, xs).Success? ==> Tracks(v, Replay(v, r, xs).value, xs)
  {
    if xs != [] {
      var init, x := xs[..|xs| - 1], xs[|xs| - 1];
      assert xs == init + [x];
      assert forall i :: 0 <= i < |init| ==> init[i] == xs[i];
      ReplaysExactlyAdapterOrder(v, r, init);
      assert ClaimsHaveEvidence(xs) <==> ClaimsHaveEvidence(init) && (x.kind == RefundClaimed ==> Given(x.evidenceHash));
      if Replay(v, r, init).Success? {
        OneMoreEvent(v, Replay(v, r, init).value, init, x);
      }
    }
  }

  /** From every stage between quote and submission the claimant's recovery is legal and ends refunded. */
  lemma RecoveryIsAlwaysLegal(v: Version, r: Record, xs: seq<Input>, refund: Input, claim: Input)
    requires r.status == PayoutRequested && r.auditEventIds == [] && DistinctIds(xs + [refund, claim])
    requires Replay(v, r, xs).Success? && StageOf(v, xs).Some? && StageOf(v, xs).value in {Quoted, Withdrawn, Received, Sent}
    requires refund.kind in {EscrowRefund, Refund} && claim.kind == RefundClaimed && Given(claim.evidenceHash)
    ensures Replay(v, r, xs + [refund, claim]).Success?
    ensures Replay(v, r, xs + [refund, claim]).value.status == Refunded
  {
    var half, all := xs + [refund], xs + [refund, claim];
    OrderedGoesOn(v, xs, refund, claim);
    PrefixOf(all, |xs|);
    assert all[..|xs|] == xs && half + [claim] == all;
    ReplaysExactlyAdapterOrder(v, r, xs);
    EndsAtItsStage(v, r, all);
  }

  lemma EndsAtItsStage(v: Version, r: Record, xs: seq<Input>)
    requires r.status == PayoutRequested && r.auditEventIds == [] && DistinctIds(xs)
    requires StageOf(v, xs).Some? && ClaimsHaveEvidence(xs)
    ensures Replay(v, r, xs).Success? && Replay(v, r, xs).value.status == StatusAt(StageOf(v, xs).value)
  {
    ReplaysExactlyAdapterOrder(v, r, xs);
  }

  lemma OrderedGoesOn(v: Version, xs: seq<Input>, refund: Input, claim: Input)
    requires StageOf(v, xs).Some? && StageOf(v, xs).value in {Quoted, Withdrawn, Received, Sent}
    requires refund.kind in {EscrowRefund, Refund} && claim.kind == RefundClaimed
    ensures StageOf(v, xs + [refund] + [claim]) == Some(Recovered)
  {
  }

  lemma PrefixOf(xs: seq<Input>, n: nat)
    requires n <= |xs| && DistinctIds(xs)
    ensures DistinctIds(xs[..n])
    ensures ClaimsHaveEvidence(xs[..n]) && (forall i :: n <= i < |xs| && xs[i].kind == RefundClaimed ==> Given(xs[i].evidenceHash))
            ==> ClaimsHaveEvidence(xs)
  {
  }

  lemma StageSnoc(v: Version, xs: seq<Input>, x: Input)
    requires StageOf(v, xs).Some?
    ensures StageOf(v, xs + [x]) == After(v, StageOf(v, xs).value, x.kind)
  {
  }
}
