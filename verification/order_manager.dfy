/** OrderManager (execution/order_manager.py): consume atomically, recover fail-closed, submit one order at a time. */
module OrderManagers {
  import opened Models
  import opened IntentState
  import opened Snapshots
  import opened CanaryBudget
  import opened Consumption
  import opened Protocol
  import opened Safety
  import opened PreTradeRisk
  import opened Store
  import opened Brokers

  datatype Router = NoRouter | PaperRouter | LiveRouter(live: LiveBroker)

  datatype Outcome =
    | Done(intents: seq<nat>)
    | Failed(error: string)
    | UnknownOutcome(error: string)

  /** What the broker's callback thread queues while an order is being submitted. */
  type Arrivals = nat -> seq<Snapshot>

  predicate Open(o: Order) { o.row.status.Pending? || o.row.status.Submitting? || o.row.status.Submitted? }

  function OpenIntents(orders: seq<Order>): nat {
    if orders == [] then 0 else OpenIntents(orders[..|orders| - 1]) + if Open(orders[|orders| - 1]) then 1 else 0
  }

  function UnknownIntents(orders: seq<Order>): nat {
    if orders == [] then 0
    else UnknownIntents(orders[..|orders| - 1]) + if orders[|orders| - 1].row.status.Unknown? then 1 else 0
  }

  ghost predicate HasUnknown(orders: seq<Order>) {
    exists i :: 0 <= i < |orders| && orders[i].row.status.Unknown?
  }

  ghost predicate PlanHasUnknown(orders: seq<Order>, planId: string) {
    exists i :: 0 <= i < |orders| && orders[i].row.planId == planId && orders[i].row.status.Unknown?
  }

  lemma {:induction false} UnknownIntentsCount(orders: seq<Order>)
    ensures UnknownIntents(orders) > 0 <==> HasUnknown(orders)
  {
    if orders != [] {
      var n := |orders| - 1;
      UnknownIntentsCount(orders[..n]);
      if HasUnknown(orders[..n]) {
        var i :| 0 <= i < n && orders[..n][i].row.status.Unknown?;
        assert orders[i].row.status.Unknown?;
      }
      if HasUnknown(orders) {
        var i :| 0 <= i < |orders| && orders[i].row.status.Unknown?;
        if i < n { assert orders[..n][i].row.status.Unknown?; }
      }
    }
  }

  /** The stored ticket a repeated consumption is checked against. */
  predicate MatchingTicket(cs: Confirmations, plan: Plan, id: string) {
    && id in cs && cs[id].status.Consumed? && cs[id].planId == plan.planId && cs[id].planHash == plan.planHash
    && (plan.mode.Live? ==> cs[id].channel == APPROVAL_PROOF)
  }

  /** When a consumption request is accepted, over the state it is made in. */
  predicate MayConsume(cs: Confirmations, orders: seq<Order>, plan: Plan, shown: Shown, now: int) {
    && Intact(plan)
    && (plan.mode.Live? ==> shown.ticket.channel == APPROVAL_PROOF)
    && if HasIntents(orders, plan.planId) then MatchingTicket(cs, plan, shown.id)
       else shown.ticket.status.Approved?
            && ConsumeTransaction(cs, orders, plan, shown.id, shown.ticket.planId, now).Created?
  }

  /** A submission that died between SUBMITTING and the broker id. */
  predicate Stuck(o: Order, planId: string) {
    Listed(o, planId) && o.row.status.Submitting? && o.row.brokerOrderId == ""
  }

  function Recovered(o: Order, planId: string): Order {
    if Stuck(o, planId) then SetOrderStatus(o, Unknown, "") else o
  }

  ghost predicate StuckBefore(orders: seq<Order>, n: nat, planId: string) {
    exists i :: 0 <= i < n && i < |orders| && Stuck(orders[i], planId)
  }

  ghost predicate AnyStuck(orders: seq<Order>, planId: string) { StuckBefore(orders, |orders|, planId) }

  /** The exact intents of a consumed ticket, whether they were created now or earlier. */
  lemma {:induction false} TicketOwnsIntents(s: State, plan: Plan, id: string)
    requires Safe(s) && Intact(plan) && MatchingTicket(s.confirmations, plan, id)
    ensures PlanTerms(s.orders, plan.planId) == IntentRows(plan.planId, id, Canonical(plan.orders))
  {
    OnePlanOneHash(s.confirmations, s.plans);
    PlanTermsOfNone(s.orders, plan.planId);
  }

  lemma {:induction false} OnePlanOneHash(cs: Confirmations, plans: map<string, PlanRow>)
    requires TicketsBound(cs, plans)
    ensures forall a, b :: a in cs && b in cs && cs[a].planId == cs[b].planId ==> cs[a].planHash == cs[b].planHash
  {
    forall a, b | a in cs && b in cs && cs[a].planId == cs[b].planId ensures cs[a].planHash == cs[b].planHash {
      assert PlanIs(plans, cs[a].planId, cs[a].planHash) && PlanIs(plans, cs[b].planId, cs[b].planHash);
    }
  }

  lemma OwnedIntents(history: seq<Action>, plan: Plan, id: string)
    requires Intact(plan) && MatchingTicket(Exec(EMPTY, history).confirmations, plan, id)
    ensures PlanTerms(Exec(EMPTY, history).orders, plan.planId) == IntentRows(plan.planId, id, Canonical(plan.orders))
  {
    RunIsSafe(EMPTY, history);
    TicketOwnsIntents(Exec(EMPTY, history), plan, id);
  }

  class OrderManager {
    const store: ExecutionStore
    const riskLimits: Option<RiskLimits>
    const dailyLoss: Option<real>
    var router: Router

    constructor (store: ExecutionStore, router: Router, riskLimits: Option<RiskLimits>, dailyLoss: Option<real>)
      ensures this.store == store && this.router == router
      ensures this.riskLimits == riskLimits && this.dailyLoss == dailyLoss
    {
      this.store, this.router, this.riskLimits, this.dailyLoss := store, router, riskLimits, dailyLoss;
    }

    /** The router, if it is the LIVE one, works on this manager's store. */
    ghost predicate Wired()
      reads this
    {
      router.LiveRouter? ==> router.live.store == store && router.live.Wired()
    }

    ghost function BrokerObjects(): set<object>
      reads this
    {
      if router.LiveRouter? then {router.live} else {}
    }

    /** consume: all intents and the CONSUMED mark in one transaction, or nothing; repeated calls return
        the intents that exist. */
    method Consume(plan: Plan, shown: Shown, now: int) returns (r: Result<seq<nat>>)
      requires store.Valid()
      modifies store
      ensures store.Valid() && old(store.history) <= store.history
      ensures store.View() == old(store.View()).(plans := store.plans, confirmations := store.confirmations,
                                                 orders := store.orders)
      ensures r.Ok? <==> MayConsume(old(store.confirmations), old(store.orders), plan, shown, now)
      ensures r.Err? ==> store.View() == old(store.View())
      ensures r.Ok? ==> MatchingTicket(store.confirmations, plan, shown.id) && Intact(plan)
      ensures r.Ok? ==> PlanTerms(store.orders, plan.planId)
                        == IntentRows(plan.planId, shown.id, Canonical(plan.orders))
      ensures r.Ok? ==> forall i :: 0 <= i < |store.orders| ==>
                          (i in r.value <==> Listed(store.orders[i], plan.planId))
      ensures r.Ok? ==> forall k :: 0 <= k < |r.value| ==> r.value[k] < |store.orders|
    {
      if plan.mode.Live? && shown.ticket.channel != APPROVAL_PROOF { return Err("LIVE needs a verified approval proof"); }
      if plan.planHash != ComputePlanHash(plan.account, plan.mode, plan.orders, plan.expiresAt) {
        return Err("plan changed after its hash was computed");
      }
      var existing := store.ListIntents(plan.planId);
      if existing != [] {
        assert HasIntents(store.orders, plan.planId) by { assert Listed(store.orders[existing[0]], plan.planId); }
        if !MatchingTicket(store.confirmations, plan, shown.id) { return Err("intents exist for another ticket"); }
        OwnedIntents(store.history, plan, shown.id);
        return Ok(existing);
      }
      if !shown.ticket.status.Approved? { return Err("only an approved confirmation can be consumed"); }
      var created := CreateIntents(plan, shown, now);
      if !created { return Err("the confirmation cannot be consumed"); }
      existing := IntentsOfTicket(plan, shown);
      return Ok(existing);
    }

    /** The transaction of consume, when the plan has no intents yet. */
    method CreateIntents(plan: Plan, shown: Shown, now: int) returns (created: bool)
      requires store.Valid() && Intact(plan) && !HasIntents(store.orders, plan.planId)
      modifies store
      ensures store.Valid() && old(store.history) <= store.history
      ensures store.View() == old(store.View()).(plans := store.plans, confirmations := store.confirmations,
                                                 orders := store.orders)
      ensures created <==> ConsumeTransaction(old(store.confirmations), old(store.orders), plan, shown.id,
                                              shown.ticket.planId, now).Created?
      ensures !created ==> store.View() == old(store.View())
      ensures created ==> MatchingTicket(store.confirmations, plan, shown.id)
    {
      var outcome := store.ConsumeConfirmation(plan, shown.id, shown.ticket.planId, now);
      return outcome.Created?;
    }

    /** The intents of a consumed ticket, read back. */
    method IntentsOfTicket(plan: Plan, shown: Shown) returns (found: seq<nat>)
      requires store.Valid() && Intact(plan) && MatchingTicket(store.confirmations, plan, shown.id)
      ensures PlanTerms(store.orders, plan.planId) == IntentRows(plan.planId, shown.id, Canonical(plan.orders))
      ensures forall i :: 0 <= i < |store.orders| ==> (i in found <==> Listed(store.orders[i], plan.planId))
      ensures forall k :: 0 <= k < |found| ==> found[k] < |store.orders|
    {
      OwnedIntents(store.history, plan, shown.id);
      found := store.ListIntents(plan.planId);
    }

    /** recover: an intent that was SUBMITTING without a broker id may have reached the broker; it becomes
        UNKNOWN, is never retried, and takes the account's canaries with it. */
    method Recover(planId: string)
      requires store.Valid()
      modifies store
      ensures store.Valid() && old(store.history) <= store.history
      ensures store.View() == old(store.View()).(orders := store.orders, canaries := store.canaries)
      ensures |store.orders| == |old(store.orders)|
      ensures forall i :: 0 <= i < |store.orders| ==> store.orders[i] == Recovered(old(store.orders)[i], planId)
      ensures store.canaries == CanariesAfter(AnyStuck(old(store.orders), planId), store.plans, planId, old(store.canaries))
      // no LIVE order of the account goes out until a canary is opened again
      ensures AnyStuck(old(store.orders), planId) && planId in store.plans && store.plans[planId].plan.mode.Live?
              && !HoldsReservation(store.View(), store.plans[planId].plan.account) ==>
                ShutOff(store.View(), store.plans[planId].plan.account)
    {
      var rows := store.orders;
      ghost var open := store.canaries;
      ghost var stuck := false;
      for i := 0 to |rows|
        invariant store.Valid() && old(store.history) <= store.history
        invariant store.View() == old(store.View()).(orders := store.orders, canaries := store.canaries)
        invariant |store.orders| == |rows|
        invariant forall k :: i <= k < |rows| ==> store.orders[k] == rows[k]
        invariant forall k :: 0 <= k < i ==> store.orders[k] == Recovered(rows[k], planId)
        invariant stuck <==> StuckBefore(rows, i, planId)
        invariant store.canaries == CanariesAfter(stuck, store.plans, planId, open)
      {
        StuckAgain(stuck, Stuck(rows[i], planId), store.plans, planId, open);
        RecoverOne(i, planId);
        stuck := stuck || Stuck(rows[i], planId);
      }
    }

    method RecoverOne(i: nat, planId: string)
      requires store.Valid() && i < |store.orders|
      modifies store
      ensures store.Valid() && old(store.history) <= store.history
      ensures store.View() == old(store.View()).(orders := store.orders, canaries := store.canaries)
      ensures store.orders == old(store.orders)[i := Recovered(old(store.orders)[i], planId)]
      ensures store.canaries == CanariesAfter(Stuck(old(store.orders)[i], planId), store.plans, planId, old(store.canaries))
    {
      if Stuck(store.orders[i], planId) {
        store.MarkUnknown(i, "");
        if planId in store.plans && store.plans[planId].plan.mode.Live? {
          store.CloseLiveCanaries(Some(store.plans[planId].plan.account), None, OrderIntentUnknown);
        }
      }
    }

    // ---- submit ----

    /** LIVE only: expired canaries close, and all of them when the account is not known to be in sync. */
    method GuardAccount(plan: Plan, account: Option<AccountState>, now: int)
      requires store.Valid()
      modifies store
      ensures store.Valid() && old(store.history) <= store.history
      ensures store.View() == old(store.View()).(canaries := store.canaries)
      ensures plan.mode.Live? && !AccountOk(account) ==> NoneActive(store.canaries, plan.account)
    {
      if plan.mode.Live? {
        store.CloseLiveCanaries(Some(plan.account), Some(now), CanaryExpired);
        if !AccountOk(account) { store.CloseLiveCanaries(Some(plan.account), None, AccountNotSynced); }
      }
    }

    /** A plan with an UNKNOWN intent is never submitted again. */
    method RefuseUnknown(plan: Plan) returns (unknown: bool)
      requires store.Valid() && plan.planId != ""
      modifies store
      ensures store.Valid() && old(store.history) <= store.history
      ensures store.View() == old(store.View()).(canaries := store.canaries)
      ensures unknown <==> PlanHasUnknown(store.orders, plan.planId)
      ensures unknown && plan.mode.Live? ==> NoneActive(store.canaries, plan.account)
      ensures !unknown ==> store.canaries == old(store.canaries)
    {
      var existing := store.ListIntents(plan.planId);
      unknown := false;
      for k := 0 to |existing|
        invariant unknown ==> PlanHasUnknown(store.orders, plan.planId)
        invariant !unknown ==> forall j :: 0 <= j < k ==> !store.orders[existing[j]].row.status.Unknown?
      {
        if store.orders[existing[k]].row.status.Unknown? { unknown := true; }
      }
      if unknown && plan.mode.Live? { store.CloseLiveCanaries(Some(plan.account), None, OrderIntentUnknown); }
    }

    /** The checks on the route, in order; PAPER without a router gets the local one. */
    method ChooseRoute(plan: Plan, shown: Shown) returns (error: Option<string>)
      requires Wired()
      modifies this
      ensures Wired() && BrokerObjects() == old(BrokerObjects())
      ensures error.None? <==> RouteReady(plan, shown, old(router))
      ensures error.None? && plan.mode.Live? ==> LiveReady(shown)
      ensures plan.mode.Live? && LiveReady(shown) ==> error.None?
      ensures error.None? && plan.mode.Paper? ==> router.PaperRouter?
    {
      if plan.mode.Live? {
        if shown.ticket.channel != APPROVAL_PROOF { return Some("LIVE needs a verified approval proof"); }
        if router.NoRouter? { return Some("LIVE needs a broker client"); }
        if !(router.LiveRouter? && router.live.enableLive) { return Some("LIVE needs an enabled LiveBroker"); }
      }
      if plan.mode.Paper? {
        if router.NoRouter? { router := PaperRouter; }
        else if !router.PaperRouter? { return Some("PAPER only runs on the local paper broker"); }
      }
      return None;
    }

    /** The route a plan needs is there; PAPER only insists that no other router is. */
    ghost predicate RouteReady(plan: Plan, shown: Shown, router: Router) {
      && (plan.mode.Live? ==> shown.ticket.channel == APPROVAL_PROOF && router.LiveRouter? && router.live.enableLive)
      && (plan.mode.Paper? ==> !router.LiveRouter?)
    }

    ghost predicate LiveReady(shown: Shown)
      reads this
    {
      shown.ticket.channel == APPROVAL_PROOF && router.LiveRouter? && router.live.enableLive
    }

    /** PreTradeRisk over the whole book; a rejection that smells of an unknown or mismatched state closes canaries. */
    method PreTrade(plan: Plan, shown: Shown, quotes: Quotes, account: Option<AccountState>, now: int) returns (passed: bool)
      requires store.Valid()
      modifies store
      ensures store.Valid() && old(store.history) <= store.history
      ensures store.View() == old(store.View()).(canaries := store.canaries)
      ensures passed <==> Passes(plan, shown, account, quotes, OpenIntents(store.orders), UnknownIntents(store.orders),
                                 riskLimits, dailyLoss, now)
      ensures passed ==> store.canaries == old(store.canaries)
      ensures !passed && plan.mode.Live? && (HasUnknown(store.orders) || !AccountOk(account)) ==>
                NoneActive(store.canaries, plan.account)
    {
      UnknownIntentsCount(store.orders);
      var reasons := Evaluate(plan, shown, account, quotes, OpenIntents(store.orders), UnknownIntents(store.orders),
                              riskLimits, dailyLoss, now);
      passed := reasons == [];
      if !passed && plan.mode.Live? { CloseRejected(plan, account, reasons); }
    }

    method CloseRejected(plan: Plan, account: Option<AccountState>, reasons: seq<Reason>)
      requires store.Valid()
      modifies store
      ensures store.Valid() && old(store.history) <= store.history
      ensures store.View() == old(store.View()).(canaries := store.canaries)
      ensures !AccountOk(account) || UnknownOrders in reasons ==> NoneActive(store.canaries, plan.account)
    {
      CloseIf(!AccountOk(account), plan.account, AccountNotSynced);
      CloseIf(UnknownOrders in reasons || NotSynced(NotKnown) in reasons, plan.account, OrderIntentUnknown);
      CloseIf(NotSynced(Mismatch) in reasons, plan.account, PretradeMismatch);
    }

    method CloseIf(wanted: bool, account: string, why: CloseReason)
      requires store.Valid()
      modifies store
      ensures store.Valid() && old(store.history) <= store.history
      ensures store.View() == old(store.View()).(canaries := store.canaries)
      ensures wanted || NoneActive(old(store.canaries), account) ==> NoneActive(store.canaries, account)
    {
      if wanted { store.CloseLiveCanaries(Some(account), None, why); }
    }

    /** PaperBroker.submit_order: no credentials, no network, a replayable id. */
    method PaperSubmit(i: nat, plan: Plan, shown: Shown) returns (r: Result<string>)
      requires i < |store.orders|
      ensures r.Ok? <==> plan.mode.Paper? && shown.ticket.status.Approved?
                         && shown.id in store.confirmations && store.confirmations[shown.id].status.Consumed?
      ensures r.Ok? ==> r.value == "paper_" + plan.planId + "_" + store.orders[i].row.orderId
    {
      if !plan.mode.Paper? { return Err("only PAPER plans"); }
      if !shown.ticket.status.Approved? { return Err("needs an approved confirmation"); }
      if shown.id !in store.confirmations || !store.confirmations[shown.id].status.Consumed? {
        return Err("the confirmation must have been consumed");
      }
      return Ok("paper_" + plan.planId + "_" + store.orders[i].row.orderId);
    }

    ghost predicate Routed(plan: Plan)
      reads this
    {
      (plan.mode.Paper? && router.PaperRouter?) || (plan.mode.Live? && router.LiveRouter? && router.live.enableLive)
    }

    /** broker.submit_order of whichever router is in place. */
    method AskBroker(i: nat, plan: Plan, shown: Shown, now: int, client: Connection) returns (ack: Result<string>)
      requires store.Valid() && Wired() && Routed(plan)
      requires i < |store.orders| && store.progress == Claimed(i, plan)
      modifies store
      ensures store.Valid() && old(store.history) <= store.history
      ensures store.View() == old(store.View()).(canaries := store.canaries, usages := store.usages,
                                                 progress := store.progress, calls := store.calls)
      ensures OnlyCallsOf(old(store.calls), store.calls, plan)
      ensures ack.Ok? ==> ack.value != "" && MayAcknowledge(store.View(), ack.value) && store.progress.order == i
    {
      if plan.mode.Paper? {
        ack := PaperSubmit(i, plan, shown);
      } else {
        var live := router.live.SubmitOrder(i, shown, plan, now, client);
        if live.Err? { return Err(live.error); }
        return Ok(live.value.brokerOrderId);
      }
    }

    /** The claimed intent goes to its router; whatever goes wrong, the outcome is UNKNOWN and the account closes. */
    method Route(i: nat, plan: Plan, shown: Shown, now: int, client: Connection) returns (ok: bool)
      requires store.Valid() && Wired() && Routed(plan)
      requires i < |store.orders| && store.progress == Claimed(i, plan) && store.orders[i].row.status.Submitting?
      modifies store
      ensures store.Valid() && old(store.history) <= store.history && store.progress.Idle?
      ensures store.plans == old(store.plans) && store.confirmations == old(store.confirmations)
      ensures OnlyCallsOf(old(store.calls), store.calls, plan)
      ensures |store.orders| == |old(store.orders)|
      ensures ok ==> store.orders[i].row.status.Submitted? && store.orders[i].row.brokerOrderId != ""
      ensures !ok ==> store.orders[i].row.status.Unknown? && NoneActive(store.canaries, plan.account)
    {
      var ack := AskBroker(i, plan, shown, now, client);
      ok := ack.Ok?;
      if ok {
        store.Acknowledge(i, ack.value);
      } else {
        FailClosed(i, plan);
      }
    }

    /** What an exception out of the broker leaves behind. */
    method FailClosed(i: nat, plan: Plan)
      requires store.Valid() && i < |store.orders| && store.orders[i].row.status.Submitting?
      modifies store
      ensures store.Valid() && old(store.history) <= store.history && store.progress.Idle?
      ensures store.View() == old(store.View()).(orders := store.orders, canaries := store.canaries, progress := Idle)
      ensures |store.orders| == |old(store.orders)| && store.orders[i].row.status.Unknown?
      ensures NoneActive(store.canaries, plan.account)
    {
      store.MarkUnknown(i, "");
      store.CloseLiveCanaries(Some(plan.account), None, SubmitUnknown);
      store.Release();
    }

    /** One round of the loop. */
    method SubmitOne(i: nat, plan: Plan, shown: Shown, now: int, client: Connection, pushed: seq<Snapshot>) returns (ok: bool)
      requires store.Valid() && Wired() && Routed(plan) && store.progress.Idle?
      requires Covers(store.View(), i, plan, shown.id) && store.orders[i].row.status.Pending?
      modifies store, BrokerObjects()
      ensures store.Valid() && old(store.history) <= store.history && store.progress.Idle?
      ensures store.plans == old(store.plans) && store.confirmations == old(store.confirmations)
      ensures OnlyCallsOf(old(store.calls), store.calls, plan)
      ensures !ok ==> i < |store.orders| && store.orders[i].row.status.Unknown?
                      && NoneActive(store.canaries, plan.account)
      ensures ok ==> i < |store.orders| && !store.orders[i].row.status.Pending?
    {
      store.Claim(i, plan, shown.id);
      ok := Route(i, plan, shown, now, client);
      if ok && router.LiveRouter? {
        ghost var acknowledged := store.history;
        router.live.Receive(pushed);
        var _ := router.live.DrainEvents();
        IntentMovesOn(acknowledged, store.history, i);
      }
    }

    /** The loop of submit over the plan's intents, one at a time, in order. */
    method SubmitAll(intents: seq<nat>, plan: Plan, shown: Shown, now: int, client: Connection, arrivals: Arrivals)
      returns (ok: bool)
      requires store.Valid() && Wired() && Routed(plan) && store.progress.Idle?
      requires Intact(plan) && MatchingTicket(store.confirmations, plan, shown.id)
      requires AreOf(store.orders, intents, plan.planId)
      modifies store, BrokerObjects()
      ensures store.Valid() && old(store.history) <= store.history && store.progress.Idle?
      ensures store.plans == old(store.plans) && store.confirmations == old(store.confirmations)
      ensures OnlyCallsOf(old(store.calls), store.calls, plan)
      ensures !ok ==> PlanHasUnknown(store.orders, plan.planId) && NoneActive(store.canaries, plan.account)
      ensures AreOf(store.orders, intents, plan.planId)
      ensures ok ==> HaveLeftPending(store.orders, intents)
    {
      for k := 0 to |intents|
        invariant store.Valid() && old(store.history) <= store.history && store.progress.Idle?
        invariant store.plans == old(store.plans) && store.confirmations == old(store.confirmations)
        invariant OnlyCallsOf(old(store.calls), store.calls, plan)
        invariant AreOf(store.orders, intents, plan.planId)
        invariant HaveLeftPending(store.orders, intents[..k])
      {
        ok := SubmitNext(intents, k, plan, shown, now, client, arrivals(k));
        if !ok { return; }
      }
      assert intents[..|intents|] == intents;
      ok := true;
    }

    /** The loop body: an intent that is not PENDING is passed over. */
    method SubmitNext(intents: seq<nat>, k: nat, plan: Plan, shown: Shown, now: int, client: Connection,
                      pushed: seq<Snapshot>) returns (ok: bool)
      requires store.Valid() && Wired() && Routed(plan) && store.progress.Idle?
      requires Intact(plan) && MatchingTicket(store.confirmations, plan, shown.id)
      requires k < |intents| && AreOf(store.orders, intents, plan.planId) && HaveLeftPending(store.orders, intents[..k])
      modifies store, BrokerObjects()
      ensures store.Valid() && old(store.history) <= store.history && store.progress.Idle?
      ensures store.plans == old(store.plans) && store.confirmations == old(store.confirmations)
      ensures OnlyCallsOf(old(store.calls), store.calls, plan)
      ensures !ok ==> PlanHasUnknown(store.orders, plan.planId) && NoneActive(store.canaries, plan.account)
      ensures AreOf(store.orders, intents, plan.planId)
      ensures ok ==> HaveLeftPending(store.orders, intents[..k + 1])
    {
      var i := intents[k];
      ok := true;
      if store.orders[i].row.status.Pending? {
        ghost var before := store.history;
        ok := SubmitOne(i, plan, shown, now, client, pushed);
        IntentsMoveOn(before, store.history, intents, plan.planId);
        IntentsMoveOn(before, store.history, intents[..k], plan.planId);
      }
      assert intents[..k + 1] == intents[..k] + [i];
    }

    /** submit: the one entry to the broker. */
    method Submit(plan: Plan, shown: Shown, quotes: Quotes, account: Option<AccountState>, now: int,
                  client: Connection, arrivals: Arrivals) returns (r: Outcome)
      requires store.Valid() && Wired() && store.progress.Idle? && plan.planId != ""
      modifies this, store, BrokerObjects()
      ensures store.Valid() && old(store.history) <= store.history && store.progress.Idle?
      ensures OnlyCallsOf(old(store.calls), store.calls, plan)
      // nothing reaches the broker unless the gate passed on the state submit started from
      ensures store.calls != old(store.calls) ==>
                && plan.mode.Live?
                && Passes(plan, shown, account, quotes, OpenIntents(old(store.orders)), UnknownIntents(old(store.orders)),
                          riskLimits, dailyLoss, now)
                && MayConsume(old(store.confirmations), old(store.orders), plan, shown, now)
      // a plain refusal: the route, the gate or the ticket was not in order, and no intent is UNKNOWN
      ensures r.Failed? <==>
                && !PlanHasUnknown(old(store.orders), plan.planId)
                && !(&& RouteReady(plan, shown, old(router))
                     && (plan.mode.DryRun? || Passes(plan, shown, account, quotes, OpenIntents(old(store.orders)),
                                                     UnknownIntents(old(store.orders)), riskLimits, dailyLoss, now))
                     && MayConsume(old(store.confirmations), old(store.orders), plan, shown, now))
      // fail closed on an account that is not known to be in sync
      ensures plan.mode.Live? && !AccountOk(account) ==>
                !r.Done? && store.calls == old(store.calls) && ShutOff(store.View(), plan.account)
      // fail closed on an unknown outcome of this plan, and of any plan once the route is ready
      ensures PlanHasUnknown(old(store.orders), plan.planId) ==>
                && r.UnknownOutcome? && store.calls == old(store.calls)
                && (plan.mode.Live? ==> ShutOff(store.View(), plan.account))
      ensures HasUnknown(old(store.orders)) && !plan.mode.DryRun? ==>
                && !r.Done? && store.calls == old(store.calls)
                && (plan.mode.Live? && old(LiveReady(shown)) ==> ShutOff(store.View(), plan.account))
      // an unknown outcome is recorded, and shuts the account off
      ensures r.UnknownOutcome? ==>
                && PlanHasUnknown(store.orders, plan.planId)
                && (plan.mode.Live? ==> ShutOff(store.View(), plan.account))
      // success: exactly the approved intents exist, and none of them is still waiting
      ensures r.Done? ==>
                && MatchingTicket(store.confirmations, plan, shown.id)
                && PlanTerms(store.orders, plan.planId) == IntentRows(plan.planId, shown.id, Canonical(plan.orders))
                && AreOf(store.orders, r.intents, plan.planId)
                && (!plan.mode.DryRun? ==> HaveLeftPending(store.orders, r.intents))
    {
      var refusal := PassGates(plan, shown, quotes, account, now);
      if refusal.Some? { return refusal.value; }
      r := ConsumeAndSubmit(plan, shown, now, client, arrivals);
    }

    /** The first two gates: the account's standing and the outcome of earlier submissions of the plan. */
    method PassAccount(plan: Plan, account: Option<AccountState>, now: int) returns (unknown: bool)
      requires store.Valid() && plan.planId != ""
      modifies store
      ensures store.Valid() && old(store.history) <= store.history
      ensures store.View() == old(store.View()).(canaries := store.canaries)
      ensures unknown <==> PlanHasUnknown(store.orders, plan.planId)
      ensures plan.mode.Live? && (unknown || !AccountOk(account)) ==> NoneActive(store.canaries, plan.account)
    {
      GuardAccount(plan, account, now);
      unknown := RefuseUnknown(plan);
    }

    /** The first half of submit: everything that can refuse before anything is consumed. */
    method PassGates(plan: Plan, shown: Shown, quotes: Quotes, account: Option<AccountState>, now: int)
      returns (refusal: Option<Outcome>)
      requires store.Valid() && Wired() && plan.planId != ""
      modifies this, store
      ensures store.Valid() && old(store.history) <= store.history
      ensures store.View() == old(store.View()).(canaries := store.canaries)
      ensures Wired() && BrokerObjects() == old(BrokerObjects())
      ensures refusal.None? && !plan.mode.DryRun? ==>
                && Routed(plan)
                && Passes(plan, shown, account, quotes, OpenIntents(store.orders), UnknownIntents(store.orders),
                          riskLimits, dailyLoss, now)
      ensures refusal.Some? ==> !refusal.value.Done?
      ensures refusal.Some? && refusal.value.Failed? <==>
                && !PlanHasUnknown(store.orders, plan.planId)
                && !(&& RouteReady(plan, shown, old(router))
                     && (plan.mode.DryRun? || Passes(plan, shown, account, quotes, OpenIntents(store.orders),
                                                     UnknownIntents(store.orders), riskLimits, dailyLoss, now)))
      ensures plan.mode.Live? && !AccountOk(account) ==> refusal.Some? && NoneActive(store.canaries, plan.account)
      ensures PlanHasUnknown(store.orders, plan.planId) <==> refusal.Some? && refusal.value.UnknownOutcome?
      ensures PlanHasUnknown(store.orders, plan.planId) && plan.mode.Live? ==> NoneActive(store.canaries, plan.account)
      ensures HasUnknown(store.orders) && !plan.mode.DryRun? ==>
                refusal.Some? && (plan.mode.Live? && old(LiveReady(shown)) ==> NoneActive(store.canaries, plan.account))
    {
      var unknown := PassAccount(plan, account, now);
      if unknown { return Some(UnknownOutcome("the plan has an UNKNOWN outcome")); }
      var error := ChooseRoute(plan, shown);
      if error.Some? { return Some(Failed(error.value)); }
      if plan.mode.DryRun? { return None; }
      UnknownIntentsCount(store.orders);
      var passed := PreTrade(plan, shown, quotes, account, now);
      return if passed then None else Some(Failed("PreTradeRisk REJECT"));
    }

    /** The second half of submit, once every gate has passed. */
    method ConsumeAndSubmit(plan: Plan, shown: Shown, now: int, client: Connection, arrivals: Arrivals) returns (r: Outcome)
      requires store.Valid() && Wired() && store.progress.Idle? && plan.planId != ""
      requires !plan.mode.DryRun? ==> Routed(plan)
      modifies store, BrokerObjects()
      ensures store.Valid() && old(store.history) <= store.history && store.progress.Idle?
      ensures OnlyCallsOf(old(store.calls), store.calls, plan)
      ensures store.calls != old(store.calls) ==> MayConsume(old(store.confirmations), old(store.orders), plan, shown, now)
      ensures r.Failed? <==> !MayConsume(old(store.confirmations), old(store.orders), plan, shown, now)
      ensures r.UnknownOutcome? ==> PlanHasUnknown(store.orders, plan.planId) && NoneActive(store.canaries, plan.account)
      ensures r.Done? ==>
                && MatchingTicket(store.confirmations, plan, shown.id)
                && PlanTerms(store.orders, plan.planId) == IntentRows(plan.planId, shown.id, Canonical(plan.orders))
                && AreOf(store.orders, r.intents, plan.planId)
                && (!plan.mode.DryRun? ==> HaveLeftPending(store.orders, r.intents))
    {
      var consumed := Consume(plan, shown, now);
      if consumed.Err? { return Failed(consumed.error); }
      if plan.mode.DryRun? { return Done(consumed.value); }
      r := SubmitConsumed(consumed.value, plan, shown, now, client, arrivals);
    }

    /** Recovery and the submit loop over a consumed plan. */
    method SubmitConsumed(intents: seq<nat>, plan: Plan, shown: Shown, now: int, client: Connection, arrivals: Arrivals)
      returns (r: Outcome)
      requires store.Valid() && Wired() && Routed(plan) && store.progress.Idle?
      requires Intact(plan) && MatchingTicket(store.confirmations, plan, shown.id)
      requires AreOf(store.orders, intents, plan.planId)
      modifies store, BrokerObjects()
      ensures store.Valid() && old(store.history) <= store.history && store.progress.Idle?
      ensures OnlyCallsOf(old(store.calls), store.calls, plan)
      ensures !r.Failed?
      ensures r.UnknownOutcome? ==> PlanHasUnknown(store.orders, plan.planId) && NoneActive(store.canaries, plan.account)
      ensures r.Done? ==>
                && MatchingTicket(store.confirmations, plan, shown.id)
                && PlanTerms(store.orders, plan.planId) == IntentRows(plan.planId, shown.id, Canonical(plan.orders))
                && AreOf(store.orders, r.intents, plan.planId) && HaveLeftPending(store.orders, r.intents)
    {
      Recover(plan.planId);
      assert AreOf(store.orders, intents, plan.planId);
      var ok := SubmitAll(intents, plan, shown, now, client, arrivals);
      if !ok { return UnknownOutcome("broker submit outcome unknown"); }
      OwnedIntents(store.history, plan, shown.id);
      return Done(intents);
    }
  }

  ghost predicate OnlyCallsOf(before: seq<BrokerCall>, after: seq<BrokerCall>, plan: Plan) {
    && before <= after
    && (!plan.mode.Live? ==> after == before)
    && forall n :: |before| <= n < |after| ==> after[n].account == plan.account
  }

  ghost predicate AreOf(orders: seq<Order>, intents: seq<nat>, planId: string) {
    forall k :: 0 <= k < |intents| ==> intents[k] < |orders| && orders[intents[k]].row.planId == planId
  }

  ghost predicate HaveLeftPending(orders: seq<Order>, intents: seq<nat>) {
    forall k :: 0 <= k < |intents| ==> intents[k] < |orders| && !orders[intents[k]].row.status.Pending?
  }

  lemma IntentMovesOn(before: seq<Action>, after: seq<Action>, i: nat)
    requires before <= after && i < |Exec(EMPTY, before).orders|
    ensures i < |Exec(EMPTY, after).orders| && Evolves(Exec(EMPTY, before).orders[i], Exec(EMPTY, after).orders[i])
  {
    LaterIsForward(before, after);
  }

  lemma IntentsMoveOn(before: seq<Action>, after: seq<Action>, intents: seq<nat>, planId: string)
    requires before <= after && AreOf(Exec(EMPTY, before).orders, intents, planId)
    ensures AreOf(Exec(EMPTY, after).orders, intents, planId)
    ensures HaveLeftPending(Exec(EMPTY, before).orders, intents) ==> HaveLeftPending(Exec(EMPTY, after).orders, intents)
  {
    forall k | 0 <= k < |intents|
      ensures intents[k] < |Exec(EMPTY, after).orders|
      ensures Evolves(Exec(EMPTY, before).orders[intents[k]], Exec(EMPTY, after).orders[intents[k]])
      ensures Exec(EMPTY, after).orders[intents[k]].row.planId == planId
    {
      IntentMovesOn(before, after, intents[k]);
      var a, b := Exec(EMPTY, before).orders[intents[k]].row, Exec(EMPTY, after).orders[intents[k]].row;
      assert Terms(a).planId == Terms(b).planId;
    }
  }

  /** A stuck intent of a LIVE plan closes the canaries of the plan's account. */
  function CanariesAfter(stuck: bool, plans: map<string, PlanRow>, planId: string, cs: seq<Canary>): seq<Canary> {
    if stuck && planId in plans && plans[planId].plan.mode.Live?
    then CloseCanaries(cs, Some(plans[planId].plan.account), None, OrderIntentUnknown) else cs
  }

  lemma {:induction false} StuckAgain(a: bool, b: bool, plans: map<string, PlanRow>, planId: string, cs: seq<Canary>)
    ensures CanariesAfter(b, plans, planId, CanariesAfter(a, plans, planId, cs)) == CanariesAfter(a || b, plans, planId, cs)
  {
    if planId in plans { ClosingTwice(cs, plans[planId].plan.account, OrderIntentUnknown); }
  }

  /** Closing an account that is already closed changes nothing. */
  lemma {:induction false} ClosingTwice(cs: seq<Canary>, account: string, why: CloseReason)
    ensures var closed := CloseCanaries(cs, Some(account), None, why);
            NoneActive(closed, account) && CloseCanaries(closed, Some(account), None, why) == closed
  {
  }
}
