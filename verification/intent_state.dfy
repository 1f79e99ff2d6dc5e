/** Order intents, their fills, and the guarded status write (execution/state.py, shared/db.py). */
module IntentState {
  import opened Models

  datatype IntentStatus = Pending | Submitting | Submitted | Filled | Rejected | Cancelled | Unknown

  /** A row of trading_order_intent. `brokerOrderId` is "" while no broker id is known. */
  datatype Intent = Intent(
    requestId: string, planId: string, orderId: string, symbol: string, side: Side, quantity: real,
    orderType: OrderType, referencePrice: Option<real>, maxSlippageBps: real, strategyVersion: Option<int>,
    confirmationId: string, status: IntentStatus, brokerOrderId: string)

  datatype Fill = Fill(brokerOrderId: string, symbol: string, side: Side, quantity: real, price: real)

  /** What makes a fill event recognisable: the broker's execution id, else a digest of its content. */
  datatype FillIdentity =
    | Stable(id: string)
    | Fingerprint(brokerOrderId: string, symbol: string, side: Side, quantity: real, price: real,
                  filledAt: Option<string>)

  /** One intent with the rows other tables keep for it: its fills and its FILL_DEDUPE marks. */
  datatype Order = Order(row: Intent, fills: seq<Fill>, marks: set<FillIdentity>)

  predicate Terminal(s: IntentStatus) { s.Filled? || s.Rejected? || s.Cancelled? }

  /** SUM(quantity) over the fills of one intent. */
  function FilledQuantity(fills: seq<Fill>): real {
    if fills == [] then 0.0 else FilledQuantity(fills[..|fills| - 1]) + fills[|fills| - 1].quantity
  }

  /** set_intent_status: a terminal status never changes; only a missing broker id may still be recorded. */
  function SetStatus(r: Intent, s: IntentStatus, brokerOrderId: string): Intent {
    if Terminal(r.status) && s != r.status then
      if brokerOrderId != "" && r.brokerOrderId == "" then r.(brokerOrderId := brokerOrderId) else r
    else if r.status == s && brokerOrderId == "" then r
    else if brokerOrderId != "" then r.(status := s, brokerOrderId := brokerOrderId)
    else r.(status := s)
  }

  function SetOrderStatus(o: Order, s: IntentStatus, brokerOrderId: string): Order {
    o.(row := SetStatus(o.row, s, brokerOrderId))
  }

  /** The part of a row that is fixed when the intent is created. */
  function Terms(r: Intent): Intent { r.(status := Pending, brokerOrderId := "") }

  /** Books agree: fills never exceed the order, and FILLED means exactly "complete up to EPS". */
  ghost predicate Conserved(o: Order) {
    && (forall k :: 0 <= k < |o.fills| ==> o.fills[k].quantity > 0.0)
    && 0.0 <= FilledQuantity(o.fills) <= Max(0.0, o.row.quantity)
    && (o.row.quantity > EPS ==>
          (o.row.status.Filled? <==> FilledQuantity(o.fills) >= o.row.quantity - EPS))
    && (o.row.quantity <= EPS ==> o.fills == [] && !o.row.status.Filled?)
  }

  /** How an intent may evolve, whatever happens to it. */
  ghost predicate Evolves(o: Order, o': Order) {
    && Terms(o'.row) == Terms(o.row)
    && o.fills <= o'.fills
    && o.marks <= o'.marks
    && (Terminal(o.row.status) ==> o'.row.status == o.row.status)
    && (o.row.status.Rejected? || o.row.status.Cancelled? ==> o'.fills == o.fills)
    && (!o.row.status.Pending? ==> !o'.row.status.Pending?)
    && (o.row.brokerOrderId != "" ==> o'.row.brokerOrderId != "")
  }

  lemma EvolvesTransitively(a: Order, b: Order, c: Order)
    requires Evolves(a, b) && Evolves(b, c)
    ensures Evolves(a, c)
  {
  }

  /** A status write other than FILLED or PENDING keeps the books and moves the intent forward. */
  lemma SetStatusKeeps(o: Order, s: IntentStatus, brokerOrderId: string)
    requires !s.Filled? && !s.Pending?
    ensures Evolves(o, SetOrderStatus(o, s, brokerOrderId))
    ensures Conserved(o) ==> Conserved(SetOrderStatus(o, s, brokerOrderId))
  {
  }

  /** Appending rows only adds: the sum grows by what was appended. */
  lemma {:induction false} FilledQuantityOfPrefix(a: seq<Fill>, b: seq<Fill>)
    requires a <= b
    requires forall k :: |a| <= k < |b| ==> b[k].quantity > 0.0
    ensures FilledQuantity(a) <= FilledQuantity(b)
    ensures a != b ==> FilledQuantity(a) < FilledQuantity(b)
    decreases |b|
  {
    if |a| < |b| {
      FilledQuantityOfPrefix(a, b[..|b| - 1]);
    } else {
      assert a == b;
    }
  }
}
