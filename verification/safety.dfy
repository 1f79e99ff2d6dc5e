/** Safety of live submission over every run of the execution protocol. */
module Safety {
  import opened Models
  import opened IntentState
  import opened BrokerEvents
  import opened CanaryBudget
  import opened Consumption
  import opened Protocol

  /** Every ticket is for the content its plan id is bound to. */
  ghost predicate TicketsBound(cs: Confirmations, plans: map<string, PlanRow>) {
    forall id :: id in cs ==> PlanIs(plans, cs[id].planId, cs[id].planHash)
  }

  /** The intent was created by a consumed LIVE ticket of the account. */
  ghost predicate LiveRow(cs: Confirmations, r: Intent, account: string) {
    var id := r.confirmationId;
    id in cs && cs[id].status.Consumed? && cs[id].planId == r.planId
    && cs[id].planHash.mode.Live? && cs[id].planHash.account == account
  }

  /** What was sent is the stored intent, and that intent has left PENDING. */
  ghost predicate CallSound(cs: Confirmations, orders: seq<Order>, c: BrokerCall) {
    c.order < |orders| &&
    var r := orders[c.order].row;
    !r.status.Pending? && Priced(r) && WholeQuantity(r) && LiveRow(cs, r, c.account) && c == CallFor(c.order, r, c.account)
  }

  ghost predicate CallsSound(cs: Confirmations, orders: seq<Order>, calls: seq<BrokerCall>) {
    && (forall k :: 0 <= k < |calls| ==> CallSound(cs, orders, calls[k]))
    && (forall j, k :: 0 <= j < k < |calls| ==> calls[j].order != calls[k].order)
  }

  ghost predicate Started(orders: seq<Order>, requestId: string) {
    exists i :: 0 <= i < |orders| && orders[i].row.requestId == requestId && !orders[i].row.status.Pending?
  }

  /** A usage row exists only for an intent that is no longer PENDING. */
  ghost predicate UsagesStarted(orders: seq<Order>, us: seq<Usage>) {
    forall j :: 0 <= j < |us| ==> Started(orders, us[j].requestId)
  }

  function Notional(r: Intent): real
    requires Priced(r)
  {
    r.quantity * r.referencePrice.value
  }

  /** Some usage row of the request reserved at least the amount. */
  ghost predicate Covered(us: seq<Usage>, requestId: string, amount: real) {
    exists j :: 0 <= j < |us| && us[j].requestId == requestId && amount <= us[j].notional
  }

  function SentNotional(c: BrokerCall): real { c.quantity as real * c.price }

  /** Every call is covered by a reservation made for its own request. */
  ghost predicate CallsFunded(calls: seq<BrokerCall>, us: seq<Usage>) {
    forall k :: 0 <= k < |calls| ==> Covered(us, calls[k].requestId, SentNotional(calls[k]))
  }

  function TotalSent(calls: seq<BrokerCall>): real {
    if calls == [] then 0.0
    else TotalSent(calls[..|calls| - 1]) + SentNotional(calls[|calls| - 1])
  }

  /** What the submitting process knows about the intent it holds. */
  ghost predicate ProgressSound(s: State) {
    !s.progress.Idle? ==>
      && Working(s)
      && !CurrentRow(s).status.Pending?
      && (s.progress.plan.mode.Live? ==> LiveRow(s.confirmations, CurrentRow(s), s.progress.plan.account))
      && (s.progress.Claimed? || s.progress.Funded? ==>
            forall k :: 0 <= k < |s.calls| ==> s.calls[k].order != s.progress.order)
      && (s.progress.Claimed? ==>
            forall j :: 0 <= j < |s.usages| ==> s.usages[j].requestId != CurrentRow(s).requestId)
      && (s.progress.Funded? ==>
            && s.progress.plan.mode.Live? && Priced(CurrentRow(s))
            && Covered(s.usages, CurrentRow(s).requestId, Notional(CurrentRow(s))))
  }

  /** Reserved but not yet sent. */
  ghost function InFlight(s: State): real {
    if s.progress.Funded? && Working(s) && Priced(CurrentRow(s)) then Notional(CurrentRow(s)) else 0.0
  }

  ghost predicate SubmissionSound(s: State) {
    && TicketsBound(s.confirmations, s.plans)
    && CallsSound(s.confirmations, s.orders, s.calls)
    && UsagesStarted(s.orders, s.usages)
    && CallsFunded(s.calls, s.usages)
    && ProgressSound(s)
    && TotalSent(s.calls) + InFlight(s) <= TotalNotional(s.usages)
  }

  ghost predicate Safe(s: State) { TablesSound(s) && SubmissionSound(s) }

  lemma {:induction false} CallsStaySound(cs: Confirmations, cs': Confirmations, a: seq<Order>, b: seq<Order>,
                                          calls: seq<BrokerCall>)
    requires CallsSound(cs, a, calls) && TicketsForward(cs, cs') && OrdersForward(a, b)
    ensures CallsSound(cs', b, calls)
  {
    forall k | 0 <= k < |calls| ensures CallSound(cs', b, calls[k]) {
      var i := calls[k].order;
      assert CallSound(cs, a, calls[k]);
      assert Evolves(a[i], b[i]);
      assert b[i].row == a[i].row.(status := b[i].row.status, brokerOrderId := b[i].row.brokerOrderId);
    }
  }

  lemma {:induction false} StaysStarted(a: seq<Order>, b: seq<Order>, requestId: string)
    requires Started(a, requestId) && OrdersForward(a, b)
    ensures Started(b, requestId)
  {
    var i :| 0 <= i < |a| && a[i].row.requestId == requestId && !a[i].row.status.Pending?;
    assert Evolves(a[i], b[i]);
    assert Terms(a[i].row).requestId == requestId == Terms(b[i].row).requestId == b[i].row.requestId;
  }

  lemma {:induction false} SubmitKeepsTickets(s: State, a: SubmitAction)
    ensures ApplySubmit(s, a).confirmations == s.confirmations && ApplySubmit(s, a).plans == s.plans
  {
  }

  lemma {:induction false} DecideKeepsBindings(
      cs: Confirmations, plans: map<string, PlanRow>, id: string, decision: ConfirmationStatus, approver: string,
      channel: string, nonce: string, plan: Option<string>, hash: Option<PlanHash>)
    requires TicketsBound(cs, plans)
    ensures var r := Decide(cs, id, decision, approver, channel, nonce, plan, hash);
            r.Ok? ==> TicketsBound(r.value, plans)
  {
  }

  lemma {:induction false} ConsumeKeepsBindings(s: State, plan: Plan, id: string, shownPlan: string, now: int)
    requires TicketsBound(s.confirmations, s.plans)
    ensures var t := ConsumePlan(s, plan, id, shownPlan, now); TicketsBound(t.confirmations, t.plans)
  {
    var t := ConsumePlan(s, plan, id, shownPlan, now);
    forall c | c in t.confirmations ensures PlanIs(t.plans, t.confirmations[c].planId, t.confirmations[c].planHash) {
      assert PlanIs(s.plans, s.confirmations[c].planId, s.confirmations[c].planHash);
    }
  }

  lemma {:induction false} TicketStepKeepsBindings(s: State, a: TicketAction)
    requires TicketsBound(s.confirmations, s.plans)
    ensures TicketsBound(ApplyTicket(s, a).confirmations, ApplyTicket(s, a).plans)
  {
    match a {
      case ApproveByProof(id, approver, nonce) =>
        if id in s.confirmations {
          DecideKeepsBindings(s.confirmations, s.plans, id, Approved, approver, APPROVAL_PROOF, nonce,
                              Some(s.confirmations[id].planId), Some(s.confirmations[id].planHash));
        }
      case ApproveByChannel(id, approver, channel, nonce) =>
        DecideKeepsBindings(s.confirmations, s.plans, id, Approved, approver, channel, nonce, None, None);
      case Decline(id, approver, channel, nonce) =>
        DecideKeepsBindings(s.confirmations, s.plans, id, Declined, approver, channel, nonce, None, None);
      case Consume(plan, id, shownPlan, now) => ConsumeKeepsBindings(s, plan, id, shownPlan, now);
      case Request(_, _, _, _, _) =>
    }
  }

  lemma {:induction false} TicketsStayBound(s: State, a: Action)
    requires TicketsBound(s.confirmations, s.plans)
    ensures TicketsBound(Apply(s, a).confirmations, Apply(s, a).plans)
  {
    match a {
      case Ticket(t) => TicketStepKeepsBindings(s, t);
      case Submit(t) => SubmitKeepsTickets(s, t);
      case _ =>
    }
  }

  // ---- one step of the submitting process ----

  /** Claiming: the intent was PENDING, so nothing was reserved or sent for it yet. */
  lemma {:induction false} PendingIsUntouched(s: State, order: nat)
    requires UniqueRequests(s.orders) && CallsSound(s.confirmations, s.orders, s.calls) && UsagesStarted(s.orders, s.usages)
    requires order < |s.orders| && s.orders[order].row.status.Pending?
    ensures forall k :: 0 <= k < |s.calls| ==> s.calls[k].order != order
    ensures forall j :: 0 <= j < |s.usages| ==> s.usages[j].requestId != s.orders[order].row.requestId
  {
    forall k | 0 <= k < |s.calls| ensures s.calls[k].order != order {
      assert CallSound(s.confirmations, s.orders, s.calls[k]);
    }
    forall j | 0 <= j < |s.usages| ensures s.usages[j].requestId != s.orders[order].row.requestId {
      assert Started(s.orders, s.usages[j].requestId);
    }
  }

  lemma {:induction false} CoveredRowIsLive(s: State, order: nat, plan: Plan, id: string)
    requires BooksOfPlans(s.confirmations, s.orders) && TicketsBound(s.confirmations, s.plans)
    requires Covers(s, order, plan, id) && plan.mode.Live?
    ensures LiveRow(s.confirmations, s.orders[order].row, plan.account)
  {
    var r := s.orders[order].row;
    assert r.confirmationId in s.confirmations;
    assert PlanIs(s.plans, plan.planId, s.confirmations[id].planHash);
    assert PlanIs(s.plans, plan.planId, s.confirmations[r.confirmationId].planHash);
  }

  lemma {:induction false} ClaimChanges(s: State, order: nat, plan: Plan, id: string)
    ensures var t := ApplySubmit(s, Claim(order, plan, id));
            t == s ||
            (&& Covers(s, order, plan, id) && s.orders[order].row.status.Pending?
             && t == s.(orders := t.orders, progress := Claimed(order, plan)) && |t.orders| == |s.orders|
             && t.orders[order].row == s.orders[order].row.(status := Submitting))
  {
  }

  lemma {:induction false} ClaimIsSafe(s: State, t: State, order: nat, plan: Plan, id: string)
    requires BooksOfPlans(s.confirmations, s.orders) && SubmissionSound(s)
    requires Covers(s, order, plan, id) && s.orders[order].row.status.Pending?
    requires t == s.(orders := t.orders, progress := Claimed(order, plan)) && |t.orders| == |s.orders|
    requires t.orders[order].row == s.orders[order].row.(status := Submitting)
    ensures ProgressSound(t) && InFlight(t) == 0.0
  {
    PendingIsUntouched(s, order);
    if plan.mode.Live? { CoveredRowIsLive(s, order, plan, id); }
    ClaimedIsSound(t, order, plan);
  }

  lemma {:induction false} ClaimedIsSound(t: State, order: nat, plan: Plan)
    requires t.progress == Claimed(order, plan) && order < |t.orders| && !t.orders[order].row.status.Pending?
    requires plan.mode.Live? ==> LiveRow(t.confirmations, t.orders[order].row, plan.account)
    requires forall k :: 0 <= k < |t.calls| ==> t.calls[k].order != order
    requires forall j :: 0 <= j < |t.usages| ==> t.usages[j].requestId != t.orders[order].row.requestId
    ensures ProgressSound(t) && InFlight(t) == 0.0
  {
  }

  lemma {:induction false} CoveredStays(us: seq<Usage>, u: Usage, requestId: string, amount: real)
    requires Covered(us, requestId, amount)
    ensures Covered(us + [u], requestId, amount)
  {
    var j :| 0 <= j < |us| && us[j].requestId == requestId && amount <= us[j].notional;
    assert (us + [u])[j] == us[j];
  }

  lemma {:induction false} NewUsageIsSafe(s: State, u: Usage)
    requires UsagesStarted(s.orders, s.usages) && CallsFunded(s.calls, s.usages) && Started(s.orders, u.requestId)
    ensures UsagesStarted(s.orders, s.usages + [u]) && CallsFunded(s.calls, s.usages + [u])
    ensures Covered(s.usages + [u], u.requestId, u.notional)
    ensures TotalNotional(s.usages + [u]) == TotalNotional(s.usages) + u.notional
  {
    assert (s.usages + [u])[..|s.usages|] == s.usages;
    assert (s.usages + [u])[|s.usages|] == u;
    forall k | 0 <= k < |s.calls| ensures Covered(s.usages + [u], s.calls[k].requestId, SentNotional(s.calls[k])) {
      CoveredStays(s.usages, u, s.calls[k].requestId, SentNotional(s.calls[k]));
    }
  }

  /** Reserving: the request id is new, so the reservation is charged and is this intent's own. */
  lemma {:induction false} FundIsSafe(s: State, now: int)
    requires SubmissionSound(s)
    ensures SubmissionSound(ApplySubmit(s, Fund(now)))
  {
    if MayFund(s) {
      var r := CurrentRow(s);
      var q := ReservationFor(r, s.progress.plan.account);
      var t := ApplySubmit(s, Fund(now));
      ReserveAppends(s.canaries, s.usages, q, now);
      assert Started(s.orders, r.requestId);
      var granted := Reserve(s.canaries, s.usages, q, now).canary;
      if granted.Some? {
        GrantIsSafe(s, t, Usage(granted.value, q.requestId, q.planId, q.symbol, q.side, q.notional));
      } else {
        RefusalIsSafe(s, t);
      }
    }
  }

  lemma {:induction false} ReserveAppends(cs: seq<Canary>, us: seq<Usage>, q: Reservation, now: int)
    requires forall j :: 0 <= j < |us| ==> us[j].requestId != q.requestId
    ensures var r := Reserve(cs, us, q, now);
            r.usages == us + if r.canary.None? then []
                             else [Usage(r.canary.value, q.requestId, q.planId, q.symbol, q.side, q.notional)]
  {
    ReserveGrantsFirstFit(cs, us, q, now);
  }

  lemma {:induction false} RefusalIsSafe(s: State, t: State)
    requires SubmissionSound(s) && t == s.(canaries := t.canaries)
    ensures SubmissionSound(t)
  {
  }

  lemma {:induction false} GrantIsSafe(s: State, t: State, u: Usage)
    requires SubmissionSound(s) && MayFund(s) && u.requestId == CurrentRow(s).requestId && u.notional == Notional(CurrentRow(s))
    requires t == s.(canaries := t.canaries, usages := s.usages + [u], progress := Funded(s.progress.order, s.progress.plan))
    requires Started(s.orders, u.requestId)
    ensures SubmissionSound(t)
  {
    NewUsageIsSafe(s, u);
  }

  lemma FlooredNotional(quantity: real, price: real)
    requires price > 0.0
    ensures quantity.Floor as real * price <= quantity * price
  {
    assert (quantity - quantity.Floor as real) * price >= 0.0;
  }

  lemma {:induction false} CoveredForLess(us: seq<Usage>, requestId: string, amount: real, less: real)
    requires Covered(us, requestId, amount) && less <= amount
    ensures Covered(us, requestId, less)
  {
    var j :| 0 <= j < |us| && us[j].requestId == requestId && amount <= us[j].notional;
    assert less <= us[j].notional;
  }

  /** The whole quantity that is sent costs no more than the quantity that was reserved for. */
  lemma {:induction false} SendingIsCovered(us: seq<Usage>, r: Intent, c: BrokerCall, account: string, order: nat)
    requires Priced(r) && c == CallFor(order, r, account) && Covered(us, r.requestId, Notional(r))
    ensures SentNotional(c) <= Notional(r) && Covered(us, c.requestId, SentNotional(c))
  {
    FlooredNotional(r.quantity, r.referencePrice.value);
    CoveredForLess(us, r.requestId, Notional(r), SentNotional(c));
  }

  lemma {:induction false} NewCallIsSafe(cs: Confirmations, orders: seq<Order>, us: seq<Usage>, calls: seq<BrokerCall>,
                                         c: BrokerCall)
    requires CallsSound(cs, orders, calls) && CallsFunded(calls, us)
    requires CallSound(cs, orders, c) && Covered(us, c.requestId, SentNotional(c))
    requires forall k :: 0 <= k < |calls| ==> calls[k].order != c.order
    ensures CallsSound(cs, orders, calls + [c]) && CallsFunded(calls + [c], us)
    ensures TotalSent(calls + [c]) == TotalSent(calls) + SentNotional(c)
  {
    assert (calls + [c])[..|calls|] == calls;
  }

  /** Calling: one call per intent, for no more than what was reserved for it. */
  lemma {:induction false} CallIsSafe(s: State, ack: Option<string>)
    requires SubmissionSound(s)
    ensures SubmissionSound(ApplySubmit(s, CallBroker(ack)))
  {
    if MayCall(s) {
      var r := CurrentRow(s);
      var c := CallFor(s.progress.order, r, s.progress.plan.account);
      SendingIsCovered(s.usages, r, c, s.progress.plan.account, s.progress.order);
      NewCallIsSafe(s.confirmations, s.orders, s.usages, s.calls, c);
    }
  }

  lemma {:induction false} ProgressStays(s: State, t: State)
    requires ProgressSound(s) && t.progress == s.progress
    requires OrdersForward(s.orders, t.orders) && TicketsForward(s.confirmations, t.confirmations)
    requires t.calls == s.calls && t.usages == s.usages
    ensures ProgressSound(t) && InFlight(t) == InFlight(s)
  {
    if !t.progress.Idle? {
      var i := s.progress.order;
      var r, r' := s.orders[i].row, t.orders[i].row;
      assert Evolves(s.orders[i], t.orders[i]);
      assert r' == r.(status := r'.status, brokerOrderId := r'.brokerOrderId);
    }
  }

  /** Any step that calls and reserves nothing: the intents may move on under the submitting process. */
  lemma {:induction false} ElsewhereIsSafe(s: State, t: State)
    requires SubmissionSound(s) && TicketsBound(t.confirmations, t.plans)
    requires OrdersForward(s.orders, t.orders) && TicketsForward(s.confirmations, t.confirmations)
    requires t.calls == s.calls && t.usages == s.usages
    requires t.progress == s.progress || t.progress.Idle?
    ensures SubmissionSound(t)
  {
    CallsStaySound(s.confirmations, t.confirmations, s.orders, t.orders, s.calls);
    UsagesStayStarted(s.orders, t.orders, s.usages);
    if t.progress == s.progress { ProgressStays(s, t); } else { IdleIsSound(s, t); }
  }

  lemma {:induction false} IdleIsSound(s: State, t: State)
    requires t.progress.Idle?
    ensures ProgressSound(t) && InFlight(t) == 0.0 <= InFlight(s)
  {
    InFlightIsNonNegative(s);
  }

  lemma {:induction false} UsagesStayStarted(a: seq<Order>, b: seq<Order>, us: seq<Usage>)
    requires UsagesStarted(a, us) && OrdersForward(a, b)
    ensures UsagesStarted(b, us)
  {
    forall j | 0 <= j < |us| ensures Started(b, us[j].requestId) { StaysStarted(a, b, us[j].requestId); }
  }

  lemma {:induction false} ClaimStepIsSafe(s: State, order: nat, plan: Plan, id: string)
    requires Safe(s)
    ensures SubmissionSound(ApplySubmit(s, Claim(order, plan, id)))
  {
    var t := ApplySubmit(s, Claim(order, plan, id));
    ClaimIsSound(s, order, plan, id);
    ClaimChanges(s, order, plan, id);
    if t != s {
      ClaimIsSafe(s, t, order, plan, id);
      InFlightIsNonNegative(s);
      ClaimLeavesCalls(s, t);
    }
  }

  lemma {:induction false} ClaimLeavesCalls(s: State, t: State)
    requires SubmissionSound(s) && Forward(s, t) && ProgressSound(t) && InFlight(t) == 0.0 <= InFlight(s)
    requires t == s.(orders := t.orders, progress := t.progress)
    ensures SubmissionSound(t)
  {
    CallsStaySound(s.confirmations, t.confirmations, s.orders, t.orders, s.calls);
    UsagesStayStarted(s.orders, t.orders, s.usages);
  }

  lemma {:induction false} AcknowledgeIsSafe(s: State, b: string)
    requires Safe(s)
    ensures SubmissionSound(ApplySubmit(s, Acknowledge(b)))
  {
    AcknowledgeIsSound(s, b);
    AcknowledgeCallsNothing(s, b);
    SubmitKeepsTickets(s, Acknowledge(b));
    ElsewhereIsSafe(s, ApplySubmit(s, Acknowledge(b)));
  }

  lemma {:induction false} AcknowledgeCallsNothing(s: State, b: string)
    ensures var t := ApplySubmit(s, Acknowledge(b));
            t.calls == s.calls && t.usages == s.usages && (t.progress == s.progress || t.progress.Idle?)
  {
  }

  lemma {:induction false} ReleaseIsSafe(s: State)
    requires SubmissionSound(s)
    ensures SubmissionSound(s.(progress := Idle))
  {
    IdleIsSound(s, s.(progress := Idle));
  }

  lemma {:induction false} SubmitStepIsSafe(s: State, a: SubmitAction)
    requires Safe(s)
    ensures SubmissionSound(ApplySubmit(s, a))
  {
    match a {
      case Claim(order, plan, id) => ClaimStepIsSafe(s, order, plan, id);
      case Fund(now) => FundIsSafe(s, now);
      case CallBroker(ack) => CallIsSafe(s, ack);
      case Acknowledge(b) => AcknowledgeIsSafe(s, b);
      case Release => ReleaseIsSafe(s);
    }
  }

  lemma {:induction false} StepIsSafe(s: State, a: Action)
    requires Safe(s)
    ensures Safe(Apply(s, a))
  {
    StepIsSound(s, a);
    match a {
      case Submit(t) => SubmitStepIsSafe(s, t);
      case _ =>
        TicketsStayBound(s, a);
        OthersLeaveSubmission(s, a);
        ElsewhereIsSafe(s, Apply(s, a));
    }
  }

  lemma {:induction false} OthersLeaveSubmission(s: State, a: Action)
    requires !a.Submit?
    ensures var t := Apply(s, a); t.calls == s.calls && t.usages == s.usages && t.progress == s.progress
  {
    match a {
      case Ticket(t) => TicketsLeaveSubmission(s, t);
      case _ =>
    }
  }

  lemma {:induction false} TicketsLeaveSubmission(s: State, a: TicketAction)
    ensures var t := ApplyTicket(s, a);
            t.calls == s.calls && t.usages == s.usages && t.progress == s.progress && t.canaries == s.canaries
  {
  }

  /** Safety is inductive: it holds in every state of every run. */
  lemma {:induction false} RunIsSafe(s: State, run: seq<Action>)
    requires Safe(s)
    ensures Safe(Exec(s, run))
    decreases |run|
  {
    if run != [] {
      RunIsSafe(s, run[..|run| - 1]);
      StepIsSafe(Exec(s, run[..|run| - 1]), run[|run| - 1]);
    }
  }

  // ---- the promises ----

  lemma {:induction false} SafeCallsAreDistinct(cs: Confirmations, orders: seq<Order>, calls: seq<BrokerCall>)
    requires CallsSound(cs, orders, calls) && UniqueRequests(orders)
    ensures forall j, k :: 0 <= j < k < |calls| ==> calls[j].requestId != calls[k].requestId
  {
    forall j, k | 0 <= j < k < |calls| ensures calls[j].requestId != calls[k].requestId {
      assert CallSound(cs, orders, calls[j]) && CallSound(cs, orders, calls[k]);
    }
  }

  /** The broker is called at most once per client request id, over every run, whatever fails or crashes. */
  lemma AtMostOnce(run: seq<Action>)
    ensures var calls := Exec(EMPTY, run).calls;
            forall j, k :: 0 <= j < k < |calls| ==> calls[j].requestId != calls[k].requestId
  {
    var s := Exec(EMPTY, run);
    RunIsSafe(EMPTY, run);
    SafeCallsAreDistinct(s.confirmations, s.orders, s.calls);
  }

  /** An intent that left PENDING never returns to it, and a final status is final. */
  lemma NoWayBack(run: seq<Action>, more: seq<Action>, i: nat)
    requires i < |Exec(EMPTY, run).orders|
    ensures var o, o' := Exec(EMPTY, run).orders[i], Exec(EMPTY, run + more).orders;
            && i < |o'| && Terms(o'[i].row) == Terms(o.row) && o.fills <= o'[i].fills
            && (!o.row.status.Pending? ==> !o'[i].row.status.Pending?)
            && (Terminal(o.row.status) ==> o'[i].row.status == o.row.status)
  {
    ExecAppends(EMPTY, run, more);
    RunIsSafe(EMPTY, run);
    RunIsSound(Exec(EMPTY, run), more);
    assert Evolves(Exec(EMPTY, run).orders[i], Exec(EMPTY, run + more).orders[i]);
  }

  /** Fills are conserved for every intent of every reachable state. */
  lemma FillsAlwaysConserved(run: seq<Action>, i: nat)
    requires i < |Exec(EMPTY, run).orders|
    ensures Conserved(Exec(EMPTY, run).orders[i])
  {
    RunIsSafe(EMPTY, run);
  }

  lemma {:induction false} InFlightIsNonNegative(s: State)
    ensures InFlight(s) >= 0.0
  {
    if s.progress.Funded? && Working(s) && Priced(CurrentRow(s)) {
      assert CurrentRow(s).quantity * CurrentRow(s).referencePrice.value >= 0.0;
    }
  }

  lemma {:induction false} SafeExposureIsCapped(s: State)
    requires Safe(s)
    ensures CallsFunded(s.calls, s.usages) && TotalSent(s.calls) <= TotalCap(s.canaries)
  {
    TotalUsedFits(s.canaries);
    InFlightIsNonNegative(s);
  }

  /** Exposure: every call is covered by a reservation of its own, counters equal the reservations and stay
      within the caps, and everything ever sent fits into all caps together, plus one EPS per canary. */
  lemma ExposureIsCapped(run: seq<Action>)
    ensures var s := Exec(EMPTY, run);
            && WithinBudget(s.canaries, s.usages)
            && CallsFunded(s.calls, s.usages)
            && TotalSent(s.calls) <= TotalCap(s.canaries)
  {
    RunIsSafe(EMPTY, run);
    SafeExposureIsCapped(Exec(EMPTY, run));
  }

  /** Every order the broker receives was approved: a verified proof covers a LIVE plan of that account that
      contains it with this symbol, side, price and quantity. */
  lemma EveryCallWasApproved(run: seq<Action>, k: nat)
    requires k < |Exec(EMPTY, run).calls|
    ensures var s := Exec(EMPTY, run);
            var c := s.calls[k];
            exists p, n :: p in s.proofs && 0 <= n < |p.planHash.orders| && ApprovedBy(c, p, p.planHash.orders[n])
  {
    var s := Exec(EMPTY, run);
    RunIsSafe(EMPTY, run);
    var c, cs := s.calls[k], s.confirmations;
    assert CallSound(cs, s.orders, c);
    var r := s.orders[c.order].row;
    var id := r.confirmationId;
    var n := RowComesFromTicket(cs, s.orders, c.order);
    var p := Proof(id, cs[id].planId, cs[id].planHash, cs[id].nonce.value);
    assert p in s.proofs && ApprovedBy(c, p, p.planHash.orders[n]);
  }

  ghost predicate ApprovedBy(c: BrokerCall, p: Proof, o: PlanOrder) {
    && p.planHash.mode.Live? && p.planHash.account == c.account
    && c.requestId == RequestId(p.planId, o.orderId)
    && o.symbol == c.symbol && o.side == c.side && o.referencePrice == Some(c.price)
    && c.quantity as real <= o.quantity <= c.quantity as real + EPS
  }

  lemma {:induction false} RowInPlanTerms(orders: seq<Order>, i: nat, planId: string)
    requires i < |orders| && orders[i].row.planId == planId
    ensures Terms(orders[i].row) in PlanTerms(orders, planId)
  {
    if i < |orders| - 1 {
      RowInPlanTerms(orders[..|orders| - 1], i, planId);
    }
  }

  /** The approved order an intent was created from. */
  lemma {:induction false} RowComesFromTicket(cs: Confirmations, orders: seq<Order>, i: nat) returns (n: nat)
    requires BooksOfPlans(cs, orders) && i < |orders|
    ensures var r := orders[i].row;
            r.confirmationId in cs && n < |cs[r.confirmationId].planHash.orders|
            && Terms(r) == NewIntent(cs[r.confirmationId].planHash.orders[n], r.planId, r.confirmationId)
  {
    var r := orders[i].row;
    var c := cs[r.confirmationId];
    RowInPlanTerms(orders, i, r.planId);
    var rows := IntentRows(c.planId, r.confirmationId, c.planHash.orders);
    assert PlanTerms(orders, c.planId) == rows;
    n :| 0 <= n < |rows| && rows[n] == Terms(r);
  }

  /** Consumption under any interleaving: a plan has no intents, or exactly those of one consumed ticket,
      whose nonce no other ticket has and which a LIVE plan obtained through the proof channel. */
  lemma PlansAreConsumedAtomically(run: seq<Action>, planId: string)
    ensures var s := Exec(EMPTY, run);
            || PlanTerms(s.orders, planId) == []
            || exists id :: id in s.confirmations && ConsumedFor(s, planId, id)
  {
    var s := Exec(EMPTY, run);
    RunIsSafe(EMPTY, run);
    AbsentOrComplete(s.confirmations, s.orders, planId);
    if PlanTerms(s.orders, planId) != [] {
      var id :| id in s.confirmations && s.confirmations[id].status.Consumed? && s.confirmations[id].planId == planId
                && PlanTerms(s.orders, planId) == IntentRows(planId, id, s.confirmations[id].planHash.orders);
      forall other | other in s.confirmations && s.confirmations[other].status.Consumed?
                     && s.confirmations[other].planId == planId
        ensures other == id
      {
        assert PlanIs(s.plans, planId, s.confirmations[other].planHash);
        assert PlanIs(s.plans, planId, s.confirmations[id].planHash);
        ConsumedOnce(s.confirmations, s.orders, other, id);
      }
      assert ConsumedFor(s, planId, id);
    }
  }

  /** `id` is the one consumed ticket of the plan, and the plan's intents are exactly what it approved. */
  ghost predicate ConsumedFor(s: State, planId: string, id: string)
    requires id in s.confirmations
  {
    var c := s.confirmations[id];
    && c.status.Consumed? && c.planId == planId && PlanIs(s.plans, planId, c.planHash)
    && PlanTerms(s.orders, planId) == IntentRows(planId, id, c.planHash.orders)
    && (forall b :: b in s.confirmations && s.confirmations[b].status.Consumed? && s.confirmations[b].planId == planId
          ==> b == id)
    && (forall b :: b in s.confirmations && s.confirmations[b].nonce == c.nonce && c.nonce.Some? ==> b == id)
    && (c.planHash.mode.Live? ==> c.channel == APPROVAL_PROOF && c.nonce.Some?
                                  && Proof(id, planId, c.planHash, c.nonce.value) in s.proofs)
  }

  // ---- shut-off ----

  /** The orders of one account that reached the broker. */
  function CallsOf(calls: seq<BrokerCall>, account: string): seq<BrokerCall> {
    if calls == [] then []
    else CallsOf(calls[..|calls| - 1], account)
         + if calls[|calls| - 1].account == account then [calls[|calls| - 1]] else []
  }

  /** The submitting process has reserved budget of the account for a call it has not made yet. */
  ghost predicate HoldsReservation(s: State, account: string) {
    s.progress.Funded? && s.progress.plan.account == account
  }

  /** No canary of the account is open and the submitting process holds no reservation of it. */
  ghost predicate ShutOff(s: State, account: string) { NoneActive(s.canaries, account) && !HoldsReservation(s, account) }

  predicate Opens(a: Action, account: string) {
    a.OnCanary? && a.canary.OpenCanary? && a.canary.account == account
  }

  lemma {:induction false} FundStaysShut(s: State, now: int, account: string)
    requires SubmissionSound(s) && ShutOff(s, account)
    ensures ShutOff(ApplySubmit(s, Fund(now)), account)
  {
    if MayFund(s) {
      var q := ReservationFor(CurrentRow(s), s.progress.plan.account);
      ReserveOpensNothing(s.canaries, s.usages, q, now, account);
    }
  }

  lemma {:induction false} SubmitStaysShut(s: State, a: SubmitAction, account: string)
    requires SubmissionSound(s) && ShutOff(s, account)
    ensures var t := ApplySubmit(s, a); ShutOff(t, account) && CallsOf(t.calls, account) == CallsOf(s.calls, account)
  {
    match a {
      case Fund(now) => FundStaysShut(s, now, account);
      case CallBroker(ack) => CallStaysShut(s, ack, account);
      case _ => QuietStaysShut(s, a, account);
    }
  }

  lemma {:induction false} QuietStaysShut(s: State, a: SubmitAction, account: string)
    requires ShutOff(s, account) && !a.Fund? && !a.CallBroker?
    ensures var t := ApplySubmit(s, a); ShutOff(t, account) && t.calls == s.calls
  {
  }

  lemma {:induction false} CallStaysShut(s: State, ack: Option<string>, account: string)
    requires ShutOff(s, account)
    ensures var t := ApplySubmit(s, CallBroker(ack));
            ShutOff(t, account) && CallsOf(t.calls, account) == CallsOf(s.calls, account)
  {
    var t := ApplySubmit(s, CallBroker(ack));
    if MayCall(s) { assert t.calls[..|t.calls| - 1] == s.calls; }
  }

  lemma {:induction false} SameMoneyStaysShut(s: State, t: State, account: string)
    requires ShutOff(s, account) && NoneActive(t.canaries, account) && t.progress == s.progress && t.calls == s.calls
    ensures ShutOff(t, account) && CallsOf(t.calls, account) == CallsOf(s.calls, account)
  {
  }

  lemma {:induction false} StepStaysShut(s: State, a: Action, account: string)
    requires SubmissionSound(s) && ShutOff(s, account) && !Opens(a, account)
    ensures var t := Apply(s, a); ShutOff(t, account) && CallsOf(t.calls, account) == CallsOf(s.calls, account)
  {
    if a.Submit? {
      SubmitStaysShut(s, a.submit, account);
    } else {
      OthersLeaveSubmission(s, a);
      OthersStayShut(s, a, account);
      SameMoneyStaysShut(s, Apply(s, a), account);
    }
  }

  lemma {:induction false} OthersStayShut(s: State, a: Action, account: string)
    requires NoneActive(s.canaries, account) && !Opens(a, account) && !a.Submit?
    ensures NoneActive(Apply(s, a).canaries, account)
  {
    if a.Ticket? { TicketsLeaveSubmission(s, a.ticket); }
    else if a.OnCanary? { CanariesStayShut(s, a.canary, account); }
  }

  lemma {:induction false} CanariesStayShut(s: State, a: CanaryAction, account: string)
    requires NoneActive(s.canaries, account) && !(a.OpenCanary? && a.account == account)
    ensures NoneActive(ApplyCanary(s, a).canaries, account)
  {
  }

  /** Once an account is shut off, no LIVE order of it reaches the broker, over any run, until a canary
      of that account is opened again. */
  lemma {:induction false} ShutOffHolds(s: State, run: seq<Action>, account: string)
    requires Safe(s) && ShutOff(s, account)
    requires forall k :: 0 <= k < |run| ==> !Opens(run[k], account)
    ensures var t := Exec(s, run); ShutOff(t, account) && CallsOf(t.calls, account) == CallsOf(s.calls, account)
    decreases |run|
  {
    if run != [] {
      var before := run[..|run| - 1];
      ShutOffHolds(s, before, account);
      RunIsSafe(s, before);
      StepStaysShut(Exec(s, before), run[|run| - 1], account);
    }
  }

  /** The same for two points of one history: whatever happened in between, no order of the account went out. */
  lemma NoCallUntilReopened(before: seq<Action>, after: seq<Action>, account: string)
    requires before <= after && ShutOff(Exec(EMPTY, before), account)
    requires forall k :: |before| <= k < |after| ==> !Opens(after[k], account)
    ensures CallsOf(Exec(EMPTY, after).calls, account) == CallsOf(Exec(EMPTY, before).calls, account)
  {
    var more := after[|before|..];
    assert after == before + more;
    ExecAppends(EMPTY, before, more);
    RunIsSafe(EMPTY, before);
    ShutOffHolds(Exec(EMPTY, before), more, account);
  }

  /** Closing the canaries of an account shuts it off exactly when none of its reservations is in flight. */
  lemma ClosingShutsOff(s: State, account: string, why: CloseReason)
    ensures ShutOff(Apply(s, OnCanary(CloseAccount(Some(account), None, why))), account) <==> !HoldsReservation(s, account)
  {
  }
}
