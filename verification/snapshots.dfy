/** Cumulative broker snapshots turned into local increments (LiveBroker._apply_order_snapshot). */
module Snapshots {
  import opened Models
  import opened IntentState
  import opened BrokerEvents

  /** A broker-side view of one order. `status` is the normalised word, None if it is not recognised;
      `price` is executed_price, else price, else 0. */
  datatype Snapshot = Snapshot(
    brokerOrderId: string, remark: string, status: Option<IntentStatus>, executedQuantity: real, price: real)

  /** How far the broker is ahead of the local fills. */
  function Delta(o: Order, s: Snapshot): real { s.executedQuantity - FilledQuantity(o.fills) }

  function KnownBrokerId(o: Order, s: Snapshot): string {
    if s.brokerOrderId != "" then s.brokerOrderId else o.row.brokerOrderId
  }

  /** The increment event a snapshot is turned into; it carries no execution id and no time. */
  function IncrementOf(o: Order, s: Snapshot): FillEvent {
    FillEvent(None, KnownBrokerId(o, s), o.row.symbol, o.row.side, Delta(o, s), s.price, None)
  }

  /** The snapshot is ahead but names no price: the source raises and writes nothing. */
  predicate LacksPrice(o: Order, s: Snapshot) { Delta(o, s) > EPS && s.price <= 0.0 }

  /** _apply_order_snapshot for the intent it was matched to. */
  function ApplySnapshot(o: Order, intentId: nat, s: Snapshot): Order {
    if Delta(o, s) > EPS then
      if s.price <= 0.0 then o else OnFilled(o, intentId, IncrementOf(o, s))
    else
      match s.status
      case Some(Filled) => o
      case Some(Rejected) => Handle(o, intentId, RejectedEvent(KnownBrokerId(o, s)))
      case Some(Cancelled) => Handle(o, intentId, CancelledEvent(KnownBrokerId(o, s)))
      case Some(Submitted) => Handle(o, intentId, SubmittedEvent(KnownBrokerId(o, s)))
      case _ => SetOrderStatus(o, Unknown, KnownBrokerId(o, s))
  }

  function ApplySnapshots(o: Order, intentId: nat, ss: seq<Snapshot>): Order
    decreases |ss|
  {
    if ss == [] then o else ApplySnapshots(ApplySnapshot(o, intentId, ss[0]), intentId, ss[1..])
  }

  lemma ApplySnapshotKeeps(o: Order, intentId: nat, s: Snapshot)
    requires Conserved(o)
    ensures var o' := ApplySnapshot(o, intentId, s);
            && Evolves(o, o') && Conserved(o')
            && FilledQuantity(o.fills) <= FilledQuantity(o'.fills)
                 <= Max(FilledQuantity(o.fills), s.executedQuantity)
  {
    if Delta(o, s) > EPS {
      OnFilledAdds(o, intentId, IncrementOf(o, s));
    } else {
      StatusSnapshotKeeps(o, intentId, s);
    }
  }

  /** A snapshot that is not ahead writes at most a status. */
  lemma {:induction false} StatusSnapshotKeeps(o: Order, intentId: nat, s: Snapshot)
    requires Conserved(o) && Delta(o, s) <= EPS
    ensures var o' := ApplySnapshot(o, intentId, s); Evolves(o, o') && Conserved(o') && o'.fills == o.fills
  {
    var b := KnownBrokerId(o, s);
    match s.status {
      case Some(Filled) =>
      case Some(Rejected) => SetStatusKeeps(o, Rejected, b);
      case Some(Cancelled) => SetStatusKeeps(o, Cancelled, b);
      case Some(Submitted) => SetStatusKeeps(o, Submitted, b);
      case _ => SetStatusKeeps(o, Unknown, b);
    }
  }

  /** Repeated, stale or reordered snapshots: the local sum never falls, never passes the largest
      cumulative quantity the broker reported, and never passes the order quantity. */
  lemma {:induction false} SnapshotsNeverOvershoot(o: Order, intentId: nat, ss: seq<Snapshot>, reported: real)
    requires Conserved(o) && FilledQuantity(o.fills) <= reported
    requires forall k :: 0 <= k < |ss| ==> ss[k].executedQuantity <= reported
    ensures var o' := ApplySnapshots(o, intentId, ss);
            && Evolves(o, o') && Conserved(o')
            && FilledQuantity(o.fills) <= FilledQuantity(o'.fills) <= reported
            && FilledQuantity(o'.fills) <= Max(0.0, o.row.quantity)
    decreases |ss|
  {
    if ss != [] {
      ApplySnapshotKeeps(o, intentId, ss[0]);
      SnapshotsNeverOvershoot(ApplySnapshot(o, intentId, ss[0]), intentId, ss[1..], reported);
    }
  }

  /** What the local sum should be after seeing the snapshot. */
  function Target(o: Order, s: Snapshot): real {
    Min(o.row.quantity, Max(FilledQuantity(o.fills), s.executedQuantity))
  }

  /** The increment is one the handler has not marked before. */
  predicate FreshIncrement(o: Order, intentId: nat, s: Snapshot) {
    IdentityOf(intentId, IncrementOf(o, s)) !in o.marks
  }

  /** One application catches up exactly when nothing is missing or the increment's fingerprint is new. */
  lemma SnapshotCatchesUp(o: Order, intentId: nat, s: Snapshot)
    requires Conserved(o) && o.row.quantity > EPS && s.price > 0.0
    requires !o.row.status.Rejected? && !o.row.status.Cancelled?
    ensures Abs(FilledQuantity(ApplySnapshot(o, intentId, s).fills) - Target(o, s)) <= EPS
            <==> Delta(o, s) <= EPS || Remaining(o) <= EPS || FreshIncrement(o, intentId, s)
  {
    if Delta(o, s) <= EPS {
      QuietSnapshotKeepsFills(o, intentId, s);
    } else {
      IncrementCatchesUp(o, intentId, s);
    }
  }

  /** A snapshot that is not ahead books nothing. */
  lemma {:induction false} QuietSnapshotKeepsFills(o: Order, intentId: nat, s: Snapshot)
    requires Delta(o, s) <= EPS
    ensures ApplySnapshot(o, intentId, s).fills == o.fills
  {
  }

  lemma {:induction false} IncrementCatchesUp(o: Order, intentId: nat, s: Snapshot)
    requires Conserved(o) && o.row.quantity > EPS && s.price > 0.0 && Delta(o, s) > EPS
    requires !o.row.status.Rejected? && !o.row.status.Cancelled?
    ensures Abs(FilledQuantity(ApplySnapshot(o, intentId, s).fills) - Target(o, s)) <= EPS
            <==> Remaining(o) <= EPS || FreshIncrement(o, intentId, s)
  {
    var e := IncrementOf(o, s);
    OnFilledAdds(o, intentId, e);
    assert ApplySnapshot(o, intentId, s) == OnFilled(o, intentId, e);
  }

  /** A partial fill on a cancelled or rejected broker order: the first snapshot books the fill,
      the second, identical one adopts the final status and books nothing. */
  lemma SecondSnapshotAdoptsStatus(o: Order, intentId: nat, s: Snapshot)
    requires Conserved(o) && s.price > 0.0 && !Terminal(o.row.status)
    requires s.status in {Some(Cancelled), Some(Rejected)}
    requires Delta(o, s) > EPS && s.executedQuantity < o.row.quantity - EPS && FreshIncrement(o, intentId, s)
    ensures var first := ApplySnapshot(o, intentId, s);
            var second := ApplySnapshot(first, intentId, s);
            && FilledQuantity(first.fills) == s.executedQuantity && first.row.status.Submitted?
            && Some(second.row.status) == s.status
            && second.fills == first.fills
            && ApplySnapshot(second, intentId, s).row.status == second.row.status
  {
    OnFilledAdds(o, intentId, IncrementOf(o, s));
    var first := ApplySnapshot(o, intentId, s);
    var second := ApplySnapshot(first, intentId, s);
    assert Delta(first, s) == 0.0;
  }

  /** A swallowed increment stays swallowed: polling the same broker state again never recovers it. */
  lemma {:induction false} SwallowedIncrementIsLost(o: Order, intentId: nat, s: Snapshot, polls: seq<Snapshot>)
    requires s.price > 0.0 && Delta(o, s) > EPS && !FreshIncrement(o, intentId, s)
    requires forall k :: 0 <= k < |polls| ==> polls[k] == s
    ensures ApplySnapshots(o, intentId, polls) == o
    decreases |polls|
  {
    if polls != [] {
      SwallowedIncrementIsLost(o, intentId, s, polls[1..]);
    }
  }

  /** The first of two equal partial fills is booked and leaves its fingerprint behind. */
  lemma {:induction false} HalfIsBooked(o: Order, intentId: nat, b: string, q: real, price: real, status: Option<IntentStatus>)
    requires Conserved(o) && o.fills == [] && o.marks == {} && !Terminal(o.row.status)
    requires q > EPS && o.row.quantity == 2.0 * q && price > 0.0 && b != ""
    ensures var first := Snapshot(b, "", status, q, price);
            var half := ApplySnapshot(o, intentId, first);
            && FilledQuantity(half.fills) == q && Terms(half.row) == Terms(o.row)
            && IdentityOf(intentId, IncrementOf(o, first)) in half.marks
  {
    var first := Snapshot(b, "", status, q, price);
    var e := IncrementOf(o, first);
    assert Delta(o, first) == q && Remaining(o) == 2.0 * q;
    assert ApplySnapshot(o, intentId, first) == OnFilled(o, intentId, e);
    FreshFillIsMarked(o, intentId, e);
  }

  lemma {:induction false} FreshFillIsMarked(o: Order, intentId: nat, e: FillEvent)
    requires Conserved(o) && !Ignored(o, intentId, e)
    ensures var t := OnFilled(o, intentId, e);
            && FilledQuantity(t.fills) == Min(FilledQuantity(o.fills) + e.quantity, o.row.quantity)
            && Terms(t.row) == Terms(o.row) && IdentityOf(intentId, e) in t.marks
  {
    OnFilledAdds(o, intentId, e);
  }

  /** The condition can fail on an ordinary run: two equal partial fills at one price share a
      fingerprint, so an order for 2q that the broker filled completely stays at q for good. */
  lemma {:induction false} EqualPartialFillsLoseOne(o: Order, intentId: nat, b: string, q: real, price: real,
                                                    status: Option<IntentStatus>, polls: seq<Snapshot>)
    requires Conserved(o) && o.fills == [] && o.marks == {} && !Terminal(o.row.status)
    requires q > EPS && o.row.quantity == 2.0 * q && price > 0.0 && b != ""
    requires forall k :: 0 <= k < |polls| ==> polls[k] == Snapshot(b, "", status, 2.0 * q, price)
    ensures var half := ApplySnapshot(o, intentId, Snapshot(b, "", status, q, price));
            FilledQuantity(ApplySnapshots(half, intentId, polls).fills) == q
  {
    var first, full := Snapshot(b, "", status, q, price), Snapshot(b, "", status, 2.0 * q, price);
    var half := ApplySnapshot(o, intentId, first);
    HalfIsBooked(o, intentId, b, q, price, status);
    assert half.row.symbol == Terms(half.row).symbol && half.row.side == Terms(half.row).side;
    assert IncrementOf(half, full) == IncrementOf(o, first);
    SwallowedIncrementIsLost(half, intentId, full, polls);
  }
}
