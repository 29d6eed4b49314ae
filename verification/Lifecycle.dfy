/**
 The public payout lifecycle: a table of legal transitions, the fold that applies
 an event to a record once per event id, and the projection of the adapter's
 events (V3 and V4) to public ones.
 */
module Lifecycle {
  import opened Wrappers

  datatype Status =
    | PayoutRequested | QuoteAccepted | EscrowAddressReserved | PoolWithdrawalPending | EscrowReceiptConfirmed
    | PayoutPending | PayoutSubmitted | PayoutCompleted | PayoutExpired | ProviderFailed | ManualReview
    | RefundAvailable | Refunded

  datatype Authority = System | Operator | ProviderContract | ProofVerifier | PublicExpiry | RefundClaimant

  datatype Event = Event(eventId: string, status: Status, authority: Authority, reasonHash: Option<string>, updatedAt: Option<string>)

  datatype Record = Record(status: Status, reasonHash: Option<string>, authority: Option<Authority>, auditEventIds: seq<string>,
                           recoveryPath: Recovery, terminalPath: TerminalPath, updatedAt: Option<string>)

  /** The texts a record shows for what can still happen. */
  datatype Recovery = Ended | ClaimWithSecret | ProviderMustCompensate | RecoverAfterExpiry | AnyActorMayRefund | Continue

  datatype TerminalPath = AtEnd | CompleteOrRefund

  datatype LifecycleError = InvalidTransition(from: Status, to: Status) | ReasonRequired(status: Status) | EvidenceRequired | UnknownType

  function Next(s: Status): seq<Status> {
    match s
    case PayoutRequested => [QuoteAccepted]
    case QuoteAccepted => [EscrowAddressReserved]
    case EscrowAddressReserved => [PoolWithdrawalPending, PayoutExpired]
    case PoolWithdrawalPending => [EscrowReceiptConfirmed, PayoutExpired, ManualReview, ProviderFailed]
    case EscrowReceiptConfirmed => [PayoutPending, PayoutExpired, ManualReview, ProviderFailed]
    case PayoutPending => [PayoutSubmitted, PayoutExpired, ManualReview, ProviderFailed]
    case PayoutSubmitted => [PayoutCompleted, PayoutExpired, ProviderFailed, ManualReview]
    case PayoutCompleted => []
    case PayoutExpired => [RefundAvailable]
    case ProviderFailed => [PayoutExpired, RefundAvailable]
    case ManualReview => [PayoutCompleted, ProviderFailed, RefundAvailable]
    case RefundAvailable => [Refunded]
    case Refunded => []
  }

  predicate Terminal(s: Status) {
    s == PayoutCompleted || s == Refunded
  }

  predicate NeedsReason(s: Status) {
    s == ProviderFailed || s == ManualReview || s == Refunded
  }

  /** The characters `trim` removes. */
  predicate IsSpace(c: char) {
    c in "\t\n\r \U{000b}\U{000c}\U{00a0}\U{1680}\U{2028}\U{2029}\U{202f}\U{205f}\U{3000}\U{feff}" || '\U{2000}' <= c <= '\U{200a}'
  }

  /** Not missing and not blank. */
  predicate Given(s: Option<string>) {
    s.Some? && exists i :: 0 <= i < |s.value| && !IsSpace(s.value[i])
  }

  function RecoveryPath(s: Status): Recovery {
    match s
    case PayoutCompleted => Ended
    case Refunded => Ended
    case RefundAvailable => ClaimWithSecret
    case ProviderFailed => ProviderMustCompensate
    case ManualReview => RecoverAfterExpiry
    case PayoutExpired => AnyActorMayRefund
    case _ => Continue
  }

  function Apply(r: Record, e: Event): Result<Record, LifecycleError> {
    if e.eventId in r.auditEventIds then Success(r)
    else if e.status !in Next(r.status) then Failure(InvalidTransition(r.status, e.status))
    else if NeedsReason(e.status) && !Given(e.reasonHash) then Failure(ReasonRequired(e.status))
    else Success(Record(e.status, e.reasonHash, Some(e.authority), r.auditEventIds + [e.eventId], RecoveryPath(e.status),
                        if Terminal(e.status) then AtEnd else CompleteOrRefund,
                        if e.updatedAt.Some? then e.updatedAt else r.updatedAt))
  }

  // ------------------------------------------------------------ what is legal

  /** The place of a status on the way from request to completion. */
  function Place(s: Status): Option<nat> {
    match s
    case PayoutRequested => Some(0)
    case QuoteAccepted => Some(1)
    case EscrowAddressReserved => Some(2)
    case PoolWithdrawalPending => Some(3)
    case EscrowReceiptConfirmed => Some(4)
    case PayoutPending => Some(5)
    case PayoutSubmitted => Some(6)
    case PayoutCompleted => Some(7)
    case _ => None
  }

  predicate OnTheWay(s: Status, from: nat, to: nat) {
    Place(s).Some? && from <= Place(s).value <= to
  }

  /**
   A payout goes forward one place at a time.  It may expire once its escrow is
   reserved, and go to review or fail once money may have moved; a review can end
   any way, a failure or an expiry in a refund only, and a refund once available
   is claimed.
   */
  lemma TransitionsExactly(s: Status, t: Status)
    ensures t in Next(s) <==>
              || (Place(s).Some? && Place(t) == Some(Place(s).value + 1))
              || (t == PayoutExpired && (OnTheWay(s, 2, 6) || s == ProviderFailed))
              || (t == ManualReview && OnTheWay(s, 3, 6))
              || (t == ProviderFailed && (OnTheWay(s, 3, 6) || s == ManualReview))
              || (t == PayoutCompleted && s == ManualReview)
              || (t == RefundAvailable && s in {PayoutExpired, ProviderFailed, ManualReview})
              || (t == Refunded && s == RefundAvailable)
  {
  }

  /** Legal transitions lead from s to t. */
  ghost predicate Reaches(s: Status, t: Status)
    decreases Height(s)
  {
    s == t || exists u :: u in Next(s) && Height(u) < Height(s) && Reaches(u, t)
  }

  lemma ReachesOver(s: Status, u: Status, t: Status)
    requires u in Next(s) && Reaches(u, t)
    ensures Reaches(s, t)
  {
    TransitionsDescend(s, u);
  }

  /** Every payout that is not completed can still be refunded. */
  lemma {:induction false} RefundStaysPossible(s: Status)
    ensures Reaches(s, Refunded) <==> s != PayoutCompleted
    decreases Height(s)
  {
    if !Terminal(s) {
      RefundStaysPossible(Longest(s));
      ReachesOver(s, Longest(s), Refunded);
    }
  }

  predicate Lost(s: Status) {
    s == PayoutExpired || s == ProviderFailed || s == RefundAvailable || s == Refunded
  }

  /** It can still be completed exactly as long as it has not expired or failed. */
  lemma {:induction false} CompletionExactlyUntilLost(s: Status)
    ensures Reaches(s, PayoutCompleted) <==> !Lost(s)
    decreases Height(s)
  {
    if Lost(s) {
      forall u | u in Next(s)
        ensures !Reaches(u, PayoutCompleted)
      {
        TransitionsDescend(s, u);
        CompletionExactlyUntilLost(u);
      }
    } else if s != PayoutCompleted {
      var u := if s == ManualReview || s == PayoutSubmitted then PayoutCompleted else Longest(s);
      TransitionsDescend(s, u);
      CompletionExactlyUntilLost(u);
      ReachesOver(s, u, PayoutCompleted);
    }
  }

  /** What a record says can still happen is what can. */
  lemma TextsTellTheTruth(s: Status)
    ensures RecoveryPath(s) == Ended <==> Next(s) == []
    ensures RecoveryPath(s) == ClaimWithSecret <==> Next(s) == [Refunded]
    ensures RecoveryPath(s) == AnyActorMayRefund <==> Next(s) == [RefundAvailable]
    ensures RecoveryPath(s) == ProviderMustCompensate <==> PayoutExpired in Next(s) && RefundAvailable in Next(s)
    ensures RecoveryPath(s) == RecoverAfterExpiry <==> PayoutCompleted in Next(s) && RefundAvailable in Next(s)
    ensures RecoveryPath(s) == Continue <==> OnTheWay(s, 0, 6)
    ensures Terminal(s) <==> Next(s) == []
  {
  }

  /** When an event takes effect, and what it leaves. */
  lemma AppliesExactly(r: Record, e: Event)
    ensures Apply(r, e).Success? <==>
              || e.eventId in r.auditEventIds
              || (e.status in Next(r.status) && (e.status in {ProviderFailed, ManualReview, Refunded} ==> Given(e.reasonHash)))
    ensures Apply(r, e).Success? ==>
              var u := Apply(r, e).value;
              if e.eventId in r.auditEventIds then u == r
              else
                && u.status == e.status && u.reasonHash == e.reasonHash && u.authority == Some(e.authority)
                && u.auditEventIds == r.auditEventIds + [e.eventId]
                && u.recoveryPath == RecoveryPath(e.status) && (u.terminalPath == AtEnd <==> Next(e.status) == [])
                && (e.updatedAt.Some? ==> u.updatedAt == e.updatedAt) && (e.updatedAt.None? ==> u.updatedAt == r.updatedAt)
  {
  }

  // ----------------------------------------------------------- any events at all

  /** What a stream of events, legal or not, leaves: an event that throws changes nothing. */
  function Absorb(r: Record, events: seq<Event>): Record {
    if events == [] then r
    else
      var before := Absorb(r, events[..|events| - 1]);
      var after := Apply(before, events[|events| - 1]);
      if after.Success? then after.value else before
  }

  /** Every event taking effect leaves its id in the audit trail. */
  function Effective(r: Record, events: seq<Event>): int {
    |Absorb(r, events).auditEventIds| - |r.auditEventIds|
  }

  /** The longest way on from a status. */
  function Height(s: Status): nat {
    match s
    case PayoutRequested => 11
    case QuoteAccepted => 10
    case EscrowAddressReserved => 9
    case PoolWithdrawalPending => 8
    case EscrowReceiptConfirmed => 7
    case PayoutPending => 6
    case PayoutSubmitted => 5
    case ManualReview => 4
    case ProviderFailed => 3
    case PayoutExpired => 2
    case RefundAvailable => 1
    case PayoutCompleted => 0
    case Refunded => 0
  }

  lemma TransitionsDescend(s: Status, t: Status)
    requires t in Next(s)
    ensures Height(t) < Height(s)
  {
  }

  /** No stream of events takes effect more often than the longest way on; from the start, eleven times. */
  lemma {:induction false} EffectsAreBounded(r: Record, events: seq<Event>)
    ensures 0 <= Effective(r, events) <= Height(r.status) - Height(Absorb(r, events).status)
  {
    if events != [] {
      var init, e := events[..|events| - 1], events[|events| - 1];
      EffectsAreBounded(r, init);
      var before := Absorb(r, init);
      if e.status in Next(before.status) {
        TransitionsDescend(before.status, e.status);
      }
    }
  }

  /** The step of a longest way. */
  function Longest(s: Status): Status
    requires !Terminal(s)
    ensures Longest(s) in Next(s) && Height(Longest(s)) == Height(s) - 1
  {
    match s
    case PayoutRequested => QuoteAccepted
    case QuoteAccepted => EscrowAddressReserved
    case EscrowAddressReserved => PoolWithdrawalPending
    case PoolWithdrawalPending => EscrowReceiptConfirmed
    case EscrowReceiptConfirmed => PayoutPending
    case PayoutPending => PayoutSubmitted
    case PayoutSubmitted => ManualReview
    case ManualReview => ProviderFailed
    case ProviderFailed => PayoutExpired
    case PayoutExpired => RefundAvailable
    case RefundAvailable => Refunded
  }

  /** An id longer than every id in the trail. */
  lemma {:induction false} UnusedId(ids: seq<string>) returns (id: string)
    ensures id !in ids && forall i :: 0 <= i < |ids| ==> |ids[i]| < |id|
  {
    if ids == [] {
      id := "x";
    } else {
      var n := |ids| - 1;
      var shorter := UnusedId(ids[..n]);
      id := shorter + ids[n] + "x";
      assert forall i :: 0 <= i < n ==> ids[i] == ids[..n][i];
    }
  }

  lemma StepOn(r: Record) returns (e: Event)
    requires !Terminal(r.status)
    ensures Apply(r, e).Success?
    ensures Height(Apply(r, e).value.status) == Height(r.status) - 1
    ensures |Apply(r, e).value.auditEventIds| == |r.auditEventIds| + 1
  {
    var id := UnusedId(r.auditEventIds);
    e := Event(id, Longest(r.status), System, Some("r"), None);
    assert Given(e.reasonHash) by {
      assert !IsSpace(e.reasonHash.value[0]);
    }
  }

  /** The bound is reached from every record. */
  lemma {:induction false} BoundIsReached(r: Record) returns (events: seq<Event>)
    ensures Effective(r, events) == Height(r.status) == |events|
    decreases Height(r.status)
  {
    if Terminal(r.status) {
      events := [];
    } else {
      var e := StepOn(r);
      var rest := BoundIsReached(Apply(r, e).value);
      events := [e] + rest;
      AbsorbCons(r, e, rest);
    }
  }

  lemma {:induction false} AbsorbCons(r: Record, e: Event, rest: seq<Event>)
    requires Apply(r, e).Success?
    ensures Absorb(r, [e] + rest) == Absorb(Apply(r, e).value, rest)
  {
    if rest == [] {
      assert [e] + rest == [e] && [e][..0] == [];
    } else {
      AbsorbCons(r, e, rest[..|rest| - 1]);
      assert ([e] + rest)[..|rest|] == [e] + rest[..|rest| - 1];
    }
  }

  lemma {:induction false} AbsorbConcat(r: Record, a: seq<Event>, b: seq<Event>)
    ensures Absorb(r, a + b) == Absorb(Absorb(r, a), b)
  {
    if b == [] {
      assert a + b == a;
    } else {
      AbsorbConcat(r, a, b[..|b| - 1]);
      assert (a + b)[..|a + b| - 1] == a + b[..|b| - 1];
    }
  }

  /** A completed or refunded record never changes again, in any field. */
  lemma {:induction false} TerminalAbsorbs(r: Record, events: seq<Event>)
    requires Terminal(r.status)
    ensures Absorb(r, events) == r
  {
    if events != [] {
      TerminalAbsorbs(r, events[..|events| - 1]);
    }
  }

  /** No stream of events shows a payout completed at one point and refunded at another. */
  lemma CompletedOrRefunded(r: Record, events: seq<Event>, i: nat, j: nat)
    requires i <= |events| && j <= |events|
    requires Terminal(Absorb(r, events[..i]).status) && Terminal(Absorb(r, events[..j]).status)
    ensures Absorb(r, events[..i]) == Absorb(r, events[..j]) == Absorb(r, events)
  {
    SettledAt(r, events, i);
    SettledAt(r, events, j);
  }

  lemma SettledAt(r: Record, events: seq<Event>, i: nat)
    requires i <= |events| && Terminal(Absorb(r, events[..i]).status)
    ensures Absorb(r, events[..i]) == Absorb(r, events)
  {
    AbsorbConcat(r, events[..i], events[i..]);
    TerminalAbsorbs(Absorb(r, events[..i]), events[i..]);
    assert events[..i] + events[i..] == events;
  }

  predicate TrailOk(r: Record) {
    && (forall i, j :: 0 <= i < j < |r.auditEventIds| ==> r.auditEventIds[i] != r.auditEventIds[j])
    && (NeedsReason(r.status) ==> Given(r.reasonHash))
  }

  /** The trail holds each id once and only grows; a status that needs a reason has one. */
  lemma {:induction false} TrailStaysOk(r: Record, events: seq<Event>)
    requires TrailOk(r)
    ensures TrailOk(Absorb(r, events)) && r.auditEventIds <= Absorb(r, events).auditEventIds
  {
    if events != [] {
      TrailStaysOk(r, events[..|events| - 1]);
    }
  }

  // ------------------------------------------------------ at-least-once delivery

  /** All events applied, or the first error. */
  function ApplyAll(r: Record, events: seq<Event>): Result<Record, LifecycleError> {
    if events == [] then Success(r)
    else
      var before :- ApplyAll(r, events[..|events| - 1]);
      Apply(before, events[|events| - 1])
  }

  /** A delivery of a stream: each item is the next new event or repeats one delivered before. */
  ghost predicate Delivers(sent: seq<Event>, events: seq<Event>) {
    if sent == [] then events == []
    else
      var init, last := sent[..|sent| - 1], sent[|sent| - 1];
      || (last in init && Delivers(init, events))
      || (events != [] && last == events[|events| - 1] && Delivers(init, events[..|events| - 1]))
  }

  lemma {:induction false} DeliveredWasSent(sent: seq<Event>, events: seq<Event>)
    requires Delivers(sent, events)
    ensures forall e :: e in sent <==> e in events
  {
    if sent != [] {
      var init, last := sent[..|sent| - 1], sent[|sent| - 1];
      assert sent == init + [last];
      if last in init && Delivers(init, events) {
        DeliveredWasSent(init, events);
      } else {
        DeliveredWasSent(init, events[..|events| - 1]);
        assert events == events[..|events| - 1] + [last];
      }
    }
  }

  lemma {:induction false} AppliedIsInTrail(r: Record, events: seq<Event>, e: Event)
    requires ApplyAll(r, events).Success? && (e in events || e.eventId in r.auditEventIds)
    ensures e.eventId in ApplyAll(r, events).value.auditEventIds
  {
    if events != [] {
      var init, last := events[..|events| - 1], events[|events| - 1];
      assert events == init + [last];
      if e in init || e.eventId in r.auditEventIds {
        AppliedIsInTrail(r, init, e);
      }
    }
  }

  /** A stream that applies cleanly gives the same record however often its events are delivered again. */
  lemma {:induction false} RedeliveryChangesNothing(r: Record, events: seq<Event>, sent: seq<Event>)
    requires ApplyAll(r, events).Success? && Delivers(sent, events)
    ensures ApplyAll(r, sent) == ApplyAll(r, events)
  {
    if sent != [] {
      var init, last := sent[..|sent| - 1], sent[|sent| - 1];
      if last in init && Delivers(init, events) {
        RedeliveryChangesNothing(r, events, init);
        DeliveredWasSent(init, events);
        AppliedIsInTrail(r, events, last);
      } else {
        RedeliveryChangesNothing(r, events[..|events| - 1], init);
      }
    }
  }
}
