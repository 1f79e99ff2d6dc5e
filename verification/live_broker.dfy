/** The event handler (execution/broker.py) and the LIVE broker adapter (execution/broker_live.py). */
module Brokers {
  import opened Models
  import opened IntentState
  import opened BrokerEvents
  import opened Snapshots
  import opened CanaryBudget
  import opened Consumption
  import opened Protocol
  import opened Safety
  import opened PreTradeRisk
  import opened Store

  /** The broker client: its answer to an order, None when it raises, refuses or names no order id. */
  type Client = BrokerCall -> Option<string>

  /** The client loaded and its order stream attached; None when either raises. */
  type Connection = Option<Client>

  datatype BrokerAck = BrokerAck(brokerOrderId: string, isLive: bool)

  /** The broker's read side: the snapshot of an order, None when it knows none. */
  type OrderQuery = string -> Option<Snapshot>

  /** What any two points of one run have in common: the later state only moved forward and is safe. */
  lemma {:induction false} LaterIsForward(before: seq<Action>, after: seq<Action>)
    requires before <= after
    ensures Forward(Exec(EMPTY, before), Exec(EMPTY, after)) && Safe(Exec(EMPTY, after)) && Safe(Exec(EMPTY, before))
  {
    assert after == before + after[|before|..];
    ExecAppends(EMPTY, before, after[|before|..]);
    RunIsSafe(EMPTY, before);
    RunIsSafe(EMPTY, after);
    RunIsSound(Exec(EMPTY, before), after[|before|..]);
  }

  class BrokerEventHandler {
    const store: ExecutionStore

    constructor (store: ExecutionStore)
      ensures this.store == store
    {
      this.store := store;
    }

    /** handle: one broker event, one transaction. An unknown intent raises and writes nothing. */
    method Handle(i: nat, e: Event) returns (ok: bool)
      requires store.Valid()
      modifies store
      ensures store.Valid() && (ok <==> i < |old(store.orders)|)
      ensures ok ==> store.history == old(store.history) + [OnIntent(Deliver(i, e))]
      ensures ok ==> store.orders == old(store.orders)[i := BrokerEvents.Handle(old(store.orders)[i], i, e)]
      ensures store.View() == old(store.View()).(orders := store.orders)
      ensures !ok ==> store.history == old(store.history) && store.orders == old(store.orders)
    {
      if i >= |store.orders| { return false; }
      match e {
        case FilledEvent(f) => OnFilled(i, f);
        case SubmittedEvent(b) => var _ := store.UpdateStatus(i, Submitted, b);
        case ChangedEvent(b) => var _ := store.UpdateStatus(i, Submitted, b);
        case RejectedEvent(b) => var _ := store.UpdateStatus(i, Rejected, b);
        case CancelledEvent(b) => var _ := store.UpdateStatus(i, Cancelled, b);
      }
      OneMore(store.history, OnIntent(Deliver(i, e)));
      store.Log(OnIntent(Deliver(i, e)));
      return true;
    }

    /** _on_filled, step by step as the transaction runs. */
    method OnFilled(i: nat, f: FillEvent)
      requires i < |store.orders|
      modifies store`orders
      ensures store.orders == old(store.orders)[i := BrokerEvents.OnFilled(old(store.orders)[i], i, f)]
    {
      var o := store.orders[i];
      if o.row.status.Rejected? || o.row.status.Cancelled? { return; }
      if f.quantity <= 0.0 { return; }
      var identity := IdentityOf(i, f);
      if identity in o.marks { return; }
      var remaining := Max(0.0, o.row.quantity - FilledQuantity(o.fills));
      if remaining <= EPS { return; }
      var quantity := Min(f.quantity, remaining);
      var fills := o.fills + [Fill(FillTag(i, f.brokerOrderId), f.symbol, f.side, quantity, f.price)];
      var status := if FilledQuantity(fills) >= o.row.quantity - EPS then Filled else Submitted;
      store.orders := store.orders[i := o.(fills := fills)];
      var _ := store.UpdateStatus(i, status, f.brokerOrderId);
      store.orders := store.orders[i := store.orders[i].(marks := o.marks + {identity})];
    }
  }

  class LiveBroker {
    const store: ExecutionStore
    const handler: BrokerEventHandler
    const enableLive: bool
    const killSwitch: bool
    const enableOrderQueries: bool
    /** Snapshots the client's callback thread queued; only `DrainEvents` applies them. */
    var queue: seq<Snapshot>

    constructor (store: ExecutionStore, handler: BrokerEventHandler, enableLive: bool, killSwitch: bool,
                 enableOrderQueries: bool)
      requires handler.store == store
      ensures this.store == store && this.handler == handler && this.handler.store == store
      ensures this.enableLive == enableLive && this.killSwitch == killSwitch
      ensures this.enableOrderQueries == enableOrderQueries && queue == []
    {
      this.store, this.handler, queue := store, handler, [];
      this.enableLive, this.killSwitch, this.enableOrderQueries := enableLive, killSwitch, enableOrderQueries;
    }

    ghost predicate Wired() { handler.store == store }

    /** on_order_changed, on the client's callback thread: queue only, never touch the database. */
    method Receive(pushed: seq<Snapshot>)
      modifies this
      ensures queue == old(queue) + pushed
    {
      queue := queue + pushed;
    }

    /** The lookups of _apply_order_snapshot when the caller does not know the intent. */
    method Resolve(s: Snapshot) returns (found: Option<nat>)
      ensures found == Addressee(store.orders, s)
    {
      found := None;
      if s.brokerOrderId != "" {
        var i := 0;
        while i < |store.orders| && store.orders[i].row.brokerOrderId != s.brokerOrderId
          invariant i <= |store.orders|
          invariant ByBrokerId(store.orders, 0, s.brokerOrderId)
                    == ByBrokerId(store.orders, i, s.brokerOrderId)
        {
          i := i + 1;
        }
        if i < |store.orders| { found := Some(i); }
      }
      if found.None? && "tc:" <= s.remark {
        var i := 0;
        while i < |store.orders| && store.orders[i].row.requestId != s.remark[3..]
          invariant i <= |store.orders|
          invariant ByRequest(store.orders, 0, s.remark[3..])
                    == ByRequest(store.orders, i, s.remark[3..])
        {
          i := i + 1;
        }
        if i < |store.orders| { found := Some(i); }
      }
    }

    /** _apply_order_snapshot for a known intent: at most one local event, or an error that writes nothing. */
    method ApplyTo(i: nat, s: Snapshot) returns (r: Result<bool>)
      requires store.Valid() && Wired() && i < |store.orders|
      modifies store
      ensures store.Valid() && old(store.history) <= store.history
      ensures store.View() == old(store.View()).(orders := store.orders)
      ensures store.orders == old(store.orders)[i := ApplySnapshot(old(store.orders)[i], i, s)]
      ensures r.Err? <==> LacksPrice(old(store.orders)[i], s)
    {
      var o := store.orders[i];
      var brokerOrderId := KnownBrokerId(o, s);
      var delta := s.executedQuantity - FilledQuantity(o.fills);
      if delta > EPS {
        if s.price <= 0.0 { return Err("fill snapshot without a price"); }
        var fill := FillEvent(None, brokerOrderId, o.row.symbol, o.row.side, delta, s.price, None);
        var _ := handler.Handle(i, FilledEvent(fill));
        return Ok(true);
      }
      match s.status {
        case Some(Filled) => return Ok(false);
        case Some(Rejected) => var _ := handler.Handle(i, RejectedEvent(brokerOrderId));
        case Some(Cancelled) => var _ := handler.Handle(i, CancelledEvent(brokerOrderId));
        case Some(Submitted) => var _ := handler.Handle(i, SubmittedEvent(brokerOrderId));
        case _ => store.MarkUnknown(i, brokerOrderId);
      }
      return Ok(true);
    }

    /** drain_events: apply everything queued, in order, on the thread that owns the database. */
    method DrainEvents() returns (errors: nat)
      requires store.Valid() && Wired()
      modifies this, store
      ensures store.Valid() && old(store.history) <= store.history && queue == []
      ensures store.View() == old(store.View()).(orders := store.orders)
      ensures store.orders == Drained(old(store.orders), old(queue))
    {
      errors := 0;
      while queue != []
        invariant store.Valid() && old(store.history) <= store.history
        invariant store.View() == old(store.View()).(orders := store.orders)
        invariant Drained(store.orders, queue) == Drained(old(store.orders), old(queue))
        decreases |queue|
      {
        var s := queue[0];
        queue := queue[1..];
        var found := Resolve(s);
        if found.Some? {
          var r := ApplyTo(found.value, s);
          if r.Err? { errors := errors + 1; }
        }
      }
    }

    /** A broker that neither trades nor queries simulates: every order it is asked about is SUBMITTED. */
    predicate Simulates() { !enableLive && !enableOrderQueries }

    /** order_state for every order id. */
    function Answers(query: OrderQuery): OrderQuery {
      if Simulates() then (id: string) => Some(Snapshot(id, "", Some(Submitted), 0.0, 0.0)) else query
    }

    /** One row of poll_active_orders; a snapshot that is ahead without a price raises and writes nothing. */
    method PollOne(i: nat, query: OrderQuery) returns (r: Result<bool>)
      requires store.Valid() && Wired() && i < |store.orders|
      modifies store
      ensures store.Valid() && old(store.history) <= store.history
      ensures store.View() == old(store.View()).(orders := store.orders)
      ensures store.orders == old(store.orders)[i := Polled(old(store.orders)[i], i, Answers(query))]
      ensures r.Err? <==> PollRaises(old(store.orders)[i], Answers(query))
    {
      var row := store.orders[i].row;
      if !(row.status.Submitting? || row.status.Submitted? || row.status.Unknown?) { return Ok(true); }
      if row.brokerOrderId == "" { return Ok(false); }
      var s := Answers(query)(row.brokerOrderId);
      if s.None? {
        store.MarkUnknown(i, row.brokerOrderId);
        return Ok(false);
      }
      r := ApplyTo(i, s.value);
      if r.Ok? { return Ok(true); }
    }

    /** poll_active_orders: ask the broker about every open intent; an order it does not know becomes UNKNOWN. The
        first snapshot without a price raises out of the loop, so the intents after it are not polled. */
    method PollActiveOrders(planId: string, query: OrderQuery) returns (r: Result<bool>, reached: nat)
      requires store.Valid() && Wired()
      modifies store
      ensures store.Valid() && old(store.history) <= store.history
      ensures store.View() == old(store.View()).(orders := store.orders)
      ensures |store.orders| == |old(store.orders)|
      ensures forall i :: 0 <= i < |store.orders| ==>
                store.orders[i] == (if i < reached && Listed(old(store.orders)[i], planId)
                                    then Polled(old(store.orders)[i], i, Answers(query)) else old(store.orders)[i])
      ensures r.Ok? ==> reached == |store.orders|
      ensures Simulates() ==> r.Ok?
      ensures r.Err? ==> reached < |store.orders| && Listed(old(store.orders)[reached], planId)
                         && PollRaises(old(store.orders)[reached], Answers(query))
      ensures forall i :: 0 <= i < reached && Listed(old(store.orders)[i], planId) ==> !PollRaises(old(store.orders)[i], Answers(query))
    {
      var ok := true;
      var rows := store.orders;
      for i := 0 to |rows|
        invariant store.Valid() && old(store.history) <= store.history
        invariant store.View() == old(store.View()).(orders := store.orders)
        invariant |store.orders| == |rows|
        invariant forall k :: i <= k < |rows| ==> store.orders[k] == rows[k]
        invariant forall k :: 0 <= k < i ==>
                    store.orders[k] == (if Listed(rows[k], planId) then Polled(rows[k], k, Answers(query)) else rows[k])
        invariant forall k :: 0 <= k < i && Listed(rows[k], planId) ==> !PollRaises(rows[k], Answers(query))
      {
        if Listed(rows[i], planId) {
          var polled := PollOne(i, query);
          if polled.Err? {
            if Simulates() { SimulatedPollKeepsFills(store.history, i, Answers(query)); }
            RaisingChangesNothing(rows[i], i, Answers(query));
            return Err(polled.error), i;
          }
          ok := ok && polled.value;
        }
      }
      return Ok(ok), |rows|;
    }

    /** Every check of submit before the canary reservation. */
    ghost predicate Submittable(s: State, i: nat, shown: Shown, plan: Plan) {
      && i < |s.orders| && Presentable(s.confirmations, shown, plan)
      && enableLive && !killSwitch && s.confirmations[shown.id].status.Consumed?
      && s.orders[i].row.planId == plan.planId && s.orders[i].row.confirmationId == shown.id
      && (s.orders[i].row.status.Pending? || s.orders[i].row.status.Submitting?)
      && Priced(s.orders[i].row)
    }

    /** The checks both branches of submit make. */
    predicate Presentable(confirmations: Confirmations, shown: Shown, plan: Plan) {
      && shown.ticket.status.Approved? && shown.ticket.planHash == plan.planHash
      && shown.id in confirmations && plan.mode.Live?
      && shown.ticket.channel == APPROVAL_PROOF && confirmations[shown.id].channel == APPROVAL_PROOF
    }

    /** submit: every check of the chain, then a rehearsal, or the canary reservation and the one call site of the
        client. The client is called exactly when the broker is enabled for LIVE, all checks pass, a canary pays,
        the client is connected and the quantity is whole; a rehearsal is acknowledged exactly when the ticket is
        presentable, and writes nothing. */
    method SubmitOrder(i: nat, shown: Shown, plan: Plan, now: int, client: Connection) returns (r: Result<BrokerAck>)
      requires store.Valid() && i < |store.orders| && (enableLive ==> store.progress == Claimed(i, plan))
      modifies store
      ensures store.Valid() && old(store.history) <= store.history
      ensures store.View() == old(store.View()).(canaries := store.canaries, usages := store.usages,
                                                 progress := store.progress, calls := store.calls)
      ensures !enableLive ==> store.View() == old(store.View())
      ensures store.calls != old(store.calls) <==>
                && Submittable(old(store.View()), i, shown, plan)
                && Reserve(old(store.canaries), old(store.usages), ReservationFor(old(store.orders)[i].row, plan.account), now).canary.Some?
                && client.Some? && WholeQuantity(old(store.orders)[i].row)
      ensures store.calls != old(store.calls) ==>
                && Priced(store.orders[i].row)
                && store.calls == old(store.calls) + [CallFor(i, store.orders[i].row, plan.account)]
      ensures enableLive ==>
                (r.Ok? <==>
                && store.calls != old(store.calls) && Priced(store.orders[i].row)
                && Accepted(client.value(CallFor(i, store.orders[i].row, plan.account))))
      ensures !enableLive ==> (r.Ok? <==> Presentable(store.confirmations, shown, plan))
      ensures r.Ok? ==> r.value.brokerOrderId != "" && r.value.isLive == enableLive
      ensures r.Ok? && enableLive ==> store.progress == Sent(i, plan, Some(r.value.brokerOrderId))
      ensures r.Ok? && !enableLive ==>
                r.value.brokerOrderId == "dry_" + plan.planId + "_" + store.orders[i].row.orderId
    {
      var error := CheckTicket(shown, plan);
      if error.Some? { return Err(error.value); }
      if !enableLive { return Ok(BrokerAck("dry_" + plan.planId + "_" + store.orders[i].row.orderId, false)); }
      error := CheckSubmission(i, shown, plan);
      if error.Some? { return Err(error.value); }
      var granted := store.AuthorizeLiveCanary(ReservationFor(store.orders[i].row, plan.account), now);
      if granted.None? { return Err("no canary fits"); }
      r := SubmitLive(i, plan, client);
    }

    /** The checks of submit that do not depend on LIVE being enabled. */
    method CheckTicket(shown: Shown, plan: Plan) returns (error: Option<string>)
      ensures error.None? <==> Presentable(store.confirmations, shown, plan)
    {
      if !shown.ticket.status.Approved? { return Some("only an approved confirmation may be submitted"); }
      if shown.ticket.planHash != plan.planHash { return Some("confirmation and plan differ"); }
      if shown.id !in store.confirmations { return Some("confirmation does not exist"); }
      if !plan.mode.Live? { return Some("only LIVE plans"); }
      if shown.ticket.channel != APPROVAL_PROOF || store.confirmations[shown.id].channel != APPROVAL_PROOF {
        return Some("no approval proof");
      }
      return None;
    }

    /** The LIVE checks of submit and the notional test of authorize_live_canary, in order. */
    method CheckSubmission(i: nat, shown: Shown, plan: Plan) returns (error: Option<string>)
      requires i < |store.orders| && enableLive && Presentable(store.confirmations, shown, plan)
      ensures error.None? <==> Submittable(store.View(), i, shown, plan)
    {
      if killSwitch { return Some("kill switch is engaged"); }
      if !store.confirmations[shown.id].status.Consumed? { return Some("confirmation was not consumed"); }
      var stored := store.orders[i].row;
      if stored.planId != plan.planId || stored.confirmationId != shown.id { return Some("intent and plan differ"); }
      if !(stored.status.Pending? || stored.status.Submitting?) { return Some("intent may not be submitted"); }
      if stored.referencePrice.None? || stored.referencePrice.value <= 0.0 || stored.quantity <= 0.0 {
        return Some("notional cannot be computed");
      }
      return None;
    }

    /** _submit_live: once connected, a whole positive quantity at the reference price goes to the client, exactly
        once; a client that cannot be loaded or attached is never called. */
    method SubmitLive(i: nat, plan: Plan, client: Connection) returns (r: Result<BrokerAck>)
      requires store.Valid() && i < |store.orders| && store.progress == Funded(i, plan) && Priced(store.orders[i].row)
      modifies store
      ensures store.Valid() && old(store.history) <= store.history
      ensures store.View() == old(store.View()).(progress := store.progress, calls := store.calls)
      ensures store.calls == old(store.calls)
                + if client.Some? && WholeQuantity(store.orders[i].row)
                  then [CallFor(i, store.orders[i].row, plan.account)] else []
      ensures r.Ok? <==> client.Some? && WholeQuantity(store.orders[i].row)
                         && Accepted(client.value(CallFor(i, store.orders[i].row, plan.account)))
      ensures r.Ok? ==> r.value.brokerOrderId != "" && r.value.isLive
                        && store.progress == Sent(i, plan, Some(r.value.brokerOrderId))
    {
      if client.None? { return Err("no usable client"); }
      var row := store.orders[i].row;
      var quantity := row.quantity.Floor;
      if quantity <= 0 || row.quantity - quantity as real > EPS { return Err("quantity must be a positive integer"); }
      var order := BrokerCall(i, row.requestId, plan.account, row.symbol, row.side, quantity, row.referencePrice.value);
      var ack := client.value(order);
      store.RecordCall(ack);
      if !Accepted(ack) { return Err("broker submission failed"); }
      return Ok(BrokerAck(ack.value, true));
    }
  }

  /** The client's answer names an order id. */
  predicate Accepted(ack: Option<string>) { ack.Some? && ack.value != "" }

  function ByBrokerId(orders: seq<Order>, k: nat, brokerOrderId: string): (r: Option<nat>)
    requires k <= |orders|
    ensures r.Some? ==> k <= r.value < |orders| && orders[r.value].row.brokerOrderId == brokerOrderId
    ensures forall j :: k <= j < |orders| && (r.Some? ==> j < r.value) ==> orders[j].row.brokerOrderId != brokerOrderId
    decreases |orders| - k
  {
    if k == |orders| then None
    else if orders[k].row.brokerOrderId == brokerOrderId then Some(k)
    else ByBrokerId(orders, k + 1, brokerOrderId)
  }

  function ByRequest(orders: seq<Order>, k: nat, requestId: string): (r: Option<nat>)
    requires k <= |orders|
    ensures r.Some? ==> k <= r.value < |orders| && orders[r.value].row.requestId == requestId
    ensures forall j :: k <= j < |orders| && (r.Some? ==> j < r.value) ==> orders[j].row.requestId != requestId
    decreases |orders| - k
  {
    if k == |orders| then None
    else if orders[k].row.requestId == requestId then Some(k)
    else ByRequest(orders, k + 1, requestId)
  }

  /** The intent a pushed snapshot is for: by broker order id, else by the "tc:" remark. */
  function Addressee(orders: seq<Order>, s: Snapshot): (r: Option<nat>)
    ensures r.Some? ==> r.value < |orders|
  {
    var byBroker := if s.brokerOrderId == "" then None
                    else ByBrokerId(orders, 0, s.brokerOrderId);
    if byBroker.Some? then byBroker
    else if "tc:" <= s.remark then ByRequest(orders, 0, s.remark[3..])
    else None
  }

  /** The intents after applying queued snapshots in order. */
  function Drained(orders: seq<Order>, queue: seq<Snapshot>): seq<Order>
    decreases |queue|
  {
    if queue == [] then orders
    else
      var found := Addressee(orders, queue[0]);
      Drained(if found.Some? && found.value < |orders|
              then orders[found.value := ApplySnapshot(orders[found.value], found.value, queue[0])] else orders,
              queue[1..])
  }

  /** What polling makes of one intent. */
  function Polled(o: Order, i: nat, query: OrderQuery): Order {
    if !(o.row.status.Submitting? || o.row.status.Submitted? || o.row.status.Unknown?) || o.row.brokerOrderId == "" then o
    else
      match query(o.row.brokerOrderId)
      case None => SetOrderStatus(o, Unknown, o.row.brokerOrderId)
      case Some(s) => ApplySnapshot(o, i, s)
  }

  /** Polling this intent meets a snapshot that is ahead of the local fills but names no price. */
  predicate PollRaises(o: Order, query: OrderQuery) {
    && (o.row.status.Submitting? || o.row.status.Submitted? || o.row.status.Unknown?) && o.row.brokerOrderId != ""
    && query(o.row.brokerOrderId).Some? && LacksPrice(o, query(o.row.brokerOrderId).value)
  }

  /** A simulated answer reports no fill, so it is never ahead of the books. */
  lemma SimulatedPollKeepsFills(history: seq<Action>, i: nat, query: OrderQuery)
    requires i < |Exec(EMPTY, history).orders|
    requires forall id :: query(id) == Some(Snapshot(id, "", Some(Submitted), 0.0, 0.0))
    ensures var o := Exec(EMPTY, history).orders[i];
            !PollRaises(o, query) && Polled(o, i, query).fills == o.fills
  {
    FillsAlwaysConserved(history, i);
  }

  lemma RaisingChangesNothing(o: Order, i: nat, query: OrderQuery)
    requires PollRaises(o, query)
    ensures Polled(o, i, query) == o
  {
  }
}
