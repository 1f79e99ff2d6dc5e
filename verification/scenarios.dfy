/** Particular runs: one that trades, and what a crash right after the broker call leaves behind. */
module Scenarios {
  import opened Models
  import opened IntentState
  import opened BrokerEvents
  import opened CanaryBudget
  import opened Consumption
  import opened Protocol
  import opened Safety
  import opened Store
  import opened Brokers
  import opened OrderManagers

  /** A crash after the client was called: the order is at the broker, the intent is SUBMITTING without a broker
      id, and the canaries are as they were. Only recovery or reconciliation notices; until then the account
      is not shut off. */
  lemma CrashAfterCallGoesUnnoticed(s: State, ack: Option<string>)
    requires MayCall(s) && CurrentRow(s).status.Submitting? && CurrentRow(s).brokerOrderId == ""
    ensures var t := Exec(s, [Submit(CallBroker(ack)), Submit(Release)]);
            && |t.calls| == |s.calls| + 1 && t.progress.Idle?
            && t.orders == s.orders && t.canaries == s.canaries
            && Stuck(t.orders[s.progress.order], CurrentRow(s).planId)
            && (ShutOff(t, s.progress.plan.account) <==> NoneActive(s.canaries, s.progress.plan.account))
  {
    var run := [Submit(CallBroker(ack)), Submit(Release)];
    assert run[..1] == [Submit(CallBroker(ack))] && run[..1][..0] == [];
    assert Exec(s, run[..1]) == Apply(Exec(s, []), Submit(CallBroker(ack)));
  }

  function OneOrder(symbol: string): PlanOrder {
    PlanOrder("1", symbol, Buy, 10.0, OrderType.Limit, Some(2.0), 50.0, None)
  }

  function LivePlan(account: string, symbol: string): Plan {
    var orders := [OneOrder(symbol)];
    Plan("p", account, Live, 100, orders, PlanHash(account, Live, orders, 100))
  }

  function Preparation(account: string, symbol: string): seq<Action> {
    var p := LivePlan(account, symbol);
    [StorePlan(p), Ticket(Request("c", "p", p.planHash, 100, None)), Ticket(TicketAction.ApproveByProof("c", "owner", "n")),
     Ticket(Consume(p, "c", "p", 0)), SetReadiness(true), OnCanary(OpenCanary(account, {symbol}, Buy, 100.0, 1, 100, 0))]
  }

  /** The ticket is consumed, the one intent exists and is PENDING, and a canary is open. */
  ghost predicate Prepared(s: State, account: string, symbol: string) {
    var p := LivePlan(account, symbol);
    && s.progress.Idle? && s.calls == [] && s.usages == []
    && "c" in s.confirmations && s.confirmations["c"].status.Consumed?
    && s.confirmations["c"].planId == "p" && s.confirmations["c"].planHash == p.planHash
    && s.orders == [Order(NewIntent(OneOrder(symbol), "p", "c"), [], {})]
    && s.canaries == [Canary(account, {symbol}, Buy, 100.0, 1, 100, 0.0, 0, Active)]
  }

  lemma {:induction false} PlanIsIntact(account: string, symbol: string)
    ensures Intact(LivePlan(account, symbol)) && Canonical([OneOrder(symbol)]) == [OneOrder(symbol)]
  {
    assert [OneOrder(symbol)][1..] == [];
    assert Canonical([]) == [];
  }

  lemma {:induction false} ConsumesOne(cs: Confirmations, account: string, symbol: string)
    requires "c" in cs
    requires cs["c"] == Confirmation("p", LivePlan(account, symbol).planHash, Approved, "owner", APPROVAL_PROOF, Some("n"), 100, None)
    ensures ConsumeTransaction(cs, [], LivePlan(account, symbol), "c", "p", 0)
            == Created(cs["c" := cs["c"].(status := Consumed)], [Order(NewIntent(OneOrder(symbol), "p", "c"), [], {})])
  {
    PlanIsIntact(account, symbol);
    var rows := IntentRows("p", "c", [OneOrder(symbol)]);
    assert rows == [NewIntent(OneOrder(symbol), "p", "c")] && rows[1..] == [];
    assert Insertable([], rows[0]);
    assert [] + [Order(rows[0], [], {})] == [Order(rows[0], [], {})];
    assert InsertAll([Order(rows[0], [], {})], []) == Some([Order(rows[0], [], {})]);
  }

  lemma {:induction false} Then(s: State, run: seq<Action>, n: nat)
    requires n < |run|
    ensures Exec(s, run[..n + 1]) == Apply(Exec(s, run[..n]), run[n])
  {
    assert run[..n + 1][..n] == run[..n];
  }

  function ApprovedTicket(account: string, symbol: string): Confirmation {
    Confirmation("p", LivePlan(account, symbol).planHash, Approved, "owner", APPROVAL_PROOF, Some("n"), 100, None)
  }

  lemma {:induction false} PreparationApproves(account: string, symbol: string)
    ensures var s := Exec(EMPTY, Preparation(account, symbol)[..3]);
            && s.confirmations == map["c" := ApprovedTicket(account, symbol)]
            && s == EMPTY.(plans := s.plans, confirmations := s.confirmations, proofs := s.proofs)
  {
    var p, run := LivePlan(account, symbol), Preparation(account, symbol);
    PlanIsIntact(account, symbol);
    assert run[..0] == [];
    Then(EMPTY, run, 0);
    Then(EMPTY, run, 1);
    Then(EMPTY, run, 2);
    var s1 := Exec(EMPTY, run[..1]);
    assert s1 == EMPTY.(plans := map["p" := PlanRow(p, false)]);
    var s2 := Exec(EMPTY, run[..2]);
    assert s2 == s1.(confirmations := map["c" := Confirmation("p", p.planHash, AwaitingApproval, "", "", None, 100, None)]);
  }

  lemma {:induction false} ConsumptionPrepares(s: State, account: string, symbol: string)
    requires s.confirmations == map["c" := ApprovedTicket(account, symbol)] && account != ""
    requires s == EMPTY.(plans := s.plans, confirmations := s.confirmations, proofs := s.proofs)
    ensures var t := Apply(s, Ticket(Consume(LivePlan(account, symbol), "c", "p", 0)));
            var open := OnCanary(OpenCanary(account, {symbol}, Buy, 100.0, 1, 100, 0));
            Prepared(Apply(Apply(t, SetReadiness(true)), open), account, symbol)
  {
    PlanIsIntact(account, symbol);
    ConsumesOne(s.confirmations, account, symbol);
    assert {symbol} != {} by { assert symbol in {symbol}; }
  }

  lemma {:induction false} PreparationPrepares(account: string, symbol: string)
    requires account != ""
    ensures Prepared(Exec(EMPTY, Preparation(account, symbol)), account, symbol)
  {
    var run := Preparation(account, symbol);
    assert run[..6] == run;
    Then(EMPTY, run, 3);
    Then(EMPTY, run, 4);
    Then(EMPTY, run, 5);
    PreparationApproves(account, symbol);
    ConsumptionPrepares(Exec(EMPTY, run[..3]), account, symbol);
  }

  function Trading(account: string, symbol: string): seq<Action> {
    [Submit(Claim(0, LivePlan(account, symbol), "c")), Submit(Fund(0)), Submit(CallBroker(Some("b")))]
  }

  lemma {:induction false} FundsOne(account: string, symbol: string, q: Reservation)
    requires q.account == account && q.side == Buy && q.symbol == symbol && q.notional == 20.0
    ensures var r := Reserve([Canary(account, {symbol}, Buy, 100.0, 1, 100, 0.0, 0, Active)], [], q, 0);
            r.canary == Some(0) && |r.canaries| == 1 && |r.usages| == 1 && r.canaries[0].usedNotional == 20.0
  {
    var cs := [Canary(account, {symbol}, Buy, 100.0, 1, 100, 0.0, 0, Active)];
    assert Fits(cs[0], q, 0);
    ReserveGrantsFirstFit(cs, [], q, 0);
  }

  lemma {:induction false} ClaimedTrades(s: State, account: string, symbol: string)
    requires s.progress == Claimed(0, LivePlan(account, symbol)) && s.usages == [] && s.calls == []
    requires s.canaries == [Canary(account, {symbol}, Buy, 100.0, 1, 100, 0.0, 0, Active)]
    requires |s.orders| == 1 && s.orders[0].row == NewIntent(OneOrder(symbol), "p", "c").(status := Submitting)
    ensures |Apply(Apply(s, Submit(Fund(0))), Submit(CallBroker(Some("b")))).calls| == 1
  {
    FundsOne(account, symbol, ReservationFor(CurrentRow(s), account));
    var t := Apply(s, Submit(Fund(0)));
    assert t.progress == Funded(0, LivePlan(account, symbol)) && t.orders == s.orders;
    assert MayCall(t);
  }

  lemma {:induction false} ClaimsOne(s: State, account: string, symbol: string)
    requires Prepared(s, account, symbol)
    ensures var t := Apply(s, Submit(Claim(0, LivePlan(account, symbol), "c")));
            && t == s.(orders := t.orders, progress := Claimed(0, LivePlan(account, symbol)))
            && |t.orders| == 1 && t.orders[0].row == NewIntent(OneOrder(symbol), "p", "c").(status := Submitting)
  {
    PlanIsIntact(account, symbol);
    assert Covers(s, 0, LivePlan(account, symbol), "c");
  }

  lemma {:induction false} TradingTrades(s: State, account: string, symbol: string)
    requires Prepared(s, account, symbol) && account != ""
    ensures |Exec(s, Trading(account, symbol)).calls| == 1
  {
    var run := Trading(account, symbol);
    assert run[..0] == [] && run[..3] == run;
    Then(s, run, 0);
    Then(s, run, 1);
    Then(s, run, 2);
    ClaimsOne(s, account, symbol);
    ClaimedTrades(Exec(s, run[..1]), account, symbol);
  }

  /** The promises are not empty: some run does reach the broker. */
  lemma SomeRunTrades(account: string, symbol: string)
    requires account != ""
    ensures |Exec(EMPTY, Preparation(account, symbol) + Trading(account, symbol)).calls| == 1
  {
    PreparationPrepares(account, symbol);
    ExecAppends(EMPTY, Preparation(account, symbol), Trading(account, symbol));
    TradingTrades(Exec(EMPTY, Preparation(account, symbol)), account, symbol);
  }
}
