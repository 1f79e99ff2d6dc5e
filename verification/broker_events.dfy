/** Broker events driving one order intent (BrokerEventHandler in execution/broker.py). */
module BrokerEvents {
  import opened Models
  import opened IntentState

  /** A fill report. `eventId` is the first of event_id, execution_id, trade_id, fill_id that is present. */
  datatype FillEvent = FillEvent(
    eventId: Option<string>, brokerOrderId: string, symbol: string, side: Side,
    quantity: real, price: real, filledAt: Option<string>)

  datatype Event =
    | SubmittedEvent(brokerOrderId: string)
    | ChangedEvent(brokerOrderId: string)
    | RejectedEvent(brokerOrderId: string)
    | CancelledEvent(brokerOrderId: string)
    | FilledEvent(fill: FillEvent)

  function Decimal(n: nat): string {
    if n < 10 then [('0' as int + n) as char] else Decimal(n / 10) + [('0' as int + n % 10) as char]
  }

  /** The broker order id a fill row is stored under when the event names none. */
  function FillTag(intentId: nat, brokerOrderId: string): string {
    if brokerOrderId != "" then brokerOrderId else "fill_" + Decimal(intentId)
  }

  function IdentityOf(intentId: nat, f: FillEvent): FillIdentity {
    match f.eventId
    case Some(id) => Stable(id)
    case None => Fingerprint(FillTag(intentId, f.brokerOrderId), f.symbol, f.side, f.quantity, f.price, f.filledAt)
  }

  function Remaining(o: Order): real { Max(0.0, o.row.quantity - FilledQuantity(o.fills)) }

  /** The fill is one the handler discards without writing anything to the order. */
  predicate Ignored(o: Order, intentId: nat, f: FillEvent) {
    || o.row.status.Rejected? || o.row.status.Cancelled?
    || f.quantity <= 0.0
    || IdentityOf(intentId, f) in o.marks
    || Remaining(o) <= EPS
  }

  /** _on_filled: record at most what is still open, mark the identity, move the status. */
  function OnFilled(o: Order, intentId: nat, f: FillEvent): Order {
    if Ignored(o, intentId, f) then o
    else
      var accepted := Min(f.quantity, Remaining(o));
      var fills := o.fills + [Fill(FillTag(intentId, f.brokerOrderId), f.symbol, f.side, accepted, f.price)];
      var status := if FilledQuantity(fills) >= o.row.quantity - EPS then Filled else Submitted;
      Order(SetStatus(o.row, status, f.brokerOrderId), fills, o.marks + {IdentityOf(intentId, f)})
  }

  function Handle(o: Order, intentId: nat, e: Event): Order {
    match e
    case SubmittedEvent(b) => SetOrderStatus(o, Submitted, b)
    case ChangedEvent(b) => SetOrderStatus(o, Submitted, b)
    case RejectedEvent(b) => SetOrderStatus(o, Rejected, b)
    case CancelledEvent(b) => SetOrderStatus(o, Cancelled, b)
    case FilledEvent(f) => OnFilled(o, intentId, f)
  }

  function HandleAll(o: Order, intentId: nat, es: seq<Event>): Order
    decreases |es|
  {
    if es == [] then o else HandleAll(Handle(o, intentId, es[0]), intentId, es[1..])
  }

  /** A fill that is not ignored adds exactly min(reported, open) and nothing else. */
  lemma OnFilledAdds(o: Order, intentId: nat, f: FillEvent)
    requires Conserved(o)
    ensures Evolves(o, OnFilled(o, intentId, f)) && Conserved(OnFilled(o, intentId, f))
    ensures !Ignored(o, intentId, f) ==>
              && FilledQuantity(OnFilled(o, intentId, f).fills)
                 == Min(FilledQuantity(o.fills) + f.quantity, o.row.quantity)
              && OnFilled(o, intentId, f) != o
  {
    if !Ignored(o, intentId, f) {
      var o' := OnFilled(o, intentId, f);
      assert o'.fills[..|o'.fills| - 1] == o.fills;
    }
  }

  /** No event breaks the books, regresses a terminal status or touches a frozen sum. */
  lemma HandleKeeps(o: Order, intentId: nat, e: Event)
    requires Conserved(o)
    ensures Evolves(o, Handle(o, intentId, e)) && Conserved(Handle(o, intentId, e))
  {
    match e {
      case FilledEvent(f) => OnFilledAdds(o, intentId, f);
      case SubmittedEvent(b) => SetStatusKeeps(o, Submitted, b);
      case ChangedEvent(b) => SetStatusKeeps(o, Submitted, b);
      case RejectedEvent(b) => SetStatusKeeps(o, Rejected, b);
      case CancelledEvent(b) => SetStatusKeeps(o, Cancelled, b);
    }
  }

  /** Conservation over any event list: fills stay within the order, FILLED means complete,
      terminal statuses stay, and a rejected or cancelled order accepts nothing more. */
  lemma {:induction false} FillsAreConserved(o: Order, intentId: nat, es: seq<Event>)
    requires Conserved(o)
    ensures Conserved(HandleAll(o, intentId, es)) && Evolves(o, HandleAll(o, intentId, es))
    decreases |es|
  {
    if es != [] {
      HandleKeeps(o, intentId, es[0]);
      FillsAreConserved(Handle(o, intentId, es[0]), intentId, es[1..]);
    }
  }

  predicate SameFill(intentId: nat, a: Event, b: Event) {
    a.FilledEvent? && b.FilledEvent? && IdentityOf(intentId, a.fill) == IdentityOf(intentId, b.fill)
  }

  /** Once an identity came with a non-positive quantity, it never comes back with a positive one. */
  ghost predicate PayloadsAgree(intentId: nat, es: seq<Event>) {
    forall i, j :: 0 <= i < j < |es| && SameFill(intentId, es[i], es[j]) && es[i].fill.quantity <= 0.0
      ==> es[j].fill.quantity <= 0.0
  }

  /** The identities met once `e` has arrived as well. */
  function Met(intentId: nat, e: Event, seen: set<FillIdentity>): set<FillIdentity> {
    if e.FilledEvent? then seen + {IdentityOf(intentId, e.fill)} else seen
  }

  predicate Repeats(intentId: nat, e: Event, seen: set<FillIdentity>) {
    e.FilledEvent? && IdentityOf(intentId, e.fill) in seen
  }

  /** The list without any fill whose identity is in `seen` or occurred earlier in the list. */
  function WithoutRepeats(intentId: nat, es: seq<Event>, seen: set<FillIdentity>): seq<Event> {
    if es == [] then []
    else
      var rest := WithoutRepeats(intentId, es[1..], Met(intentId, es[0], seen));
      if Repeats(intentId, es[0], seen) then rest else [es[0]] + rest
  }

  /** Every repeated fill arrives at an order whose handler discards it. */
  predicate RepeatsIgnored(o: Order, intentId: nat, es: seq<Event>, seen: set<FillIdentity>)
    decreases |es|
  {
    es == [] ||
    (&& (Repeats(intentId, es[0], seen) ==> Ignored(o, intentId, es[0].fill))
     && RepeatsIgnored(Handle(o, intentId, es[0]), intentId, es[1..], Met(intentId, es[0], seen)))
  }

  /** What is ignored now is ignored forever. */
  lemma IgnoredStaysIgnored(o: Order, o': Order, intentId: nat, f: FillEvent)
    requires Evolves(o, o') && Conserved(o) && Conserved(o') && Ignored(o, intentId, f)
    ensures Ignored(o', intentId, f)
  {
    FilledQuantityOfPrefix(o.fills, o'.fills);
  }

  /** An identity the shortened list has no fill for is never marked by it. */
  lemma {:induction false} DroppedIsNeverMarked(
      o: Order, intentId: nat, es: seq<Event>, seen: set<FillIdentity>, id: FillIdentity)
    requires id in seen && id !in o.marks
    ensures id !in HandleAll(o, intentId, WithoutRepeats(intentId, es, seen)).marks
    decreases |es|
  {
    if es != [] {
      var seen' := Met(intentId, es[0], seen);
      var kept := WithoutRepeats(intentId, es[1..], seen');
      if Repeats(intentId, es[0], seen) {
        DroppedIsNeverMarked(o, intentId, es[1..], seen', id);
      } else {
        DroppedIsNeverMarked(Handle(o, intentId, es[0]), intentId, es[1..], seen', id);
        assert ([es[0]] + kept)[1..] == kept;
      }
    }
  }

  /** Repeated fills change nothing exactly when each arrives at an order that discards it: one that is
      accepted marks an identity which the list without repeats never marks. */
  lemma {:induction false} InvisibleExactlyWhenIgnored(o: Order, intentId: nat, es: seq<Event>, seen: set<FillIdentity>)
    requires Conserved(o)
    ensures HandleAll(o, intentId, WithoutRepeats(intentId, es, seen)) == HandleAll(o, intentId, es)
            <==> RepeatsIgnored(o, intentId, es, seen)
    decreases |es|
  {
    if es != [] {
      var e, rest := es[0], es[1..];
      var o', seen' := Handle(o, intentId, e), Met(intentId, e, seen);
      var kept := WithoutRepeats(intentId, rest, seen');
      HandleKeeps(o, intentId, e);
      if Repeats(intentId, e, seen) && !Ignored(o, intentId, e.fill) {
        FillsAreConserved(o', intentId, rest);
        DroppedIsNeverMarked(o, intentId, rest, seen', IdentityOf(intentId, e.fill));
      } else {
        InvisibleExactlyWhenIgnored(o', intentId, rest, seen');
        assert ([e] + kept)[1..] == kept;
      }
    }
  }

  lemma {:induction false} AgreeingRepeatsAreIgnored(o: Order, intentId: nat, es: seq<Event>, seen: set<FillIdentity>)
    requires Conserved(o) && PayloadsAgree(intentId, es)
    requires forall k :: 0 <= k < |es| && Repeats(intentId, es[k], seen) ==> Ignored(o, intentId, es[k].fill)
    ensures RepeatsIgnored(o, intentId, es, seen)
    decreases |es|
  {
    if es != [] {
      var e, rest := es[0], es[1..];
      var o', seen' := Handle(o, intentId, e), Met(intentId, e, seen);
      HandleKeeps(o, intentId, e);
      assert forall k :: 0 <= k < |rest| ==> rest[k] == es[k + 1];
      forall k | 0 <= k < |rest| && Repeats(intentId, rest[k], seen')
        ensures Ignored(o', intentId, rest[k].fill)
      {
        if Repeats(intentId, es[k + 1], seen) {
          IgnoredStaysIgnored(o, o', intentId, es[k + 1].fill);
        } else {
          assert SameFill(intentId, es[0], es[k + 1]);
          assert Ignored(o', intentId, e.fill) by {
            if Ignored(o, intentId, e.fill) { IgnoredStaysIgnored(o, o', intentId, e.fill); }
          }
        }
      }
      AgreeingRepeatsAreIgnored(o', intentId, rest, seen');
    }
  }

  /** Delivering fills again, any number of times and anywhere later, changes nothing at all. */
  lemma DuplicateDeliveryIsInvisible(o: Order, intentId: nat, es: seq<Event>)
    requires Conserved(o) && PayloadsAgree(intentId, es)
    ensures HandleAll(o, intentId, WithoutRepeats(intentId, es, {})) == HandleAll(o, intentId, es)
  {
    AgreeingRepeatsAreIgnored(o, intentId, es, {});
    InvisibleExactlyWhenIgnored(o, intentId, es, {});
  }

  /** The smallest failing case: a zero fill under an id does not reserve the id, so a positive one is accepted. */
  lemma DuplicateDeliveryNeedsPayloads(o: Order, intentId: nat, f: FillEvent)
    requires Conserved(o) && f.eventId.Some? && f.quantity > 0.0 && !Ignored(o, intentId, f)
    ensures var es := [FilledEvent(f.(quantity := 0.0)), FilledEvent(f)];
            HandleAll(o, intentId, WithoutRepeats(intentId, es, {})) != HandleAll(o, intentId, es)
  {
    var zero, positive := FilledEvent(f.(quantity := 0.0)), FilledEvent(f);
    var es := [zero, positive];
    var seen := Met(intentId, zero, {});
    assert es[1..] == [positive];
    assert Handle(o, intentId, zero) == o && Repeats(intentId, positive, seen);
    assert !RepeatsIgnored(o, intentId, [positive], seen);
    InvisibleExactlyWhenIgnored(o, intentId, es, {});
  }
}
