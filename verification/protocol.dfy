/** The execution protocol as a state machine over committed writes.

    A run is any list of actions. Each action is one committed transaction, one call to the broker client,
    or the loss of the submitting process's control state (`Release`: an exception unwinding it, or a crash).
    An action whose guard does not hold is a refused request and changes nothing, so theorems about all
    action lists cover every interleaving and a crash between any two writes. */
module Protocol {
  import opened Models
  import opened IntentState
  import opened BrokerEvents
  import opened CanaryBudget
  import opened Consumption

  datatype PlanRow = PlanRow(plan: Plan, consumed: bool)

  datatype SyncStatus = Synced | Stale | Reconciling | Mismatch | NotKnown

  /** Where the one submitting process is in the loop of OrderManager.submit. */
  datatype Progress =
    | Idle
    | Claimed(order: nat, plan: Plan)
    | Funded(order: nat, plan: Plan)
    | Sent(order: nat, plan: Plan, ack: Option<string>)

  /** One call of the broker client's order function. */
  datatype BrokerCall = BrokerCall(
    order: nat, requestId: string, account: string, symbol: string, side: Side, quantity: int, price: real)

  /** A signature the identity verifier accepted for an approval. */
  datatype Proof = Proof(confirmationId: string, planId: string, planHash: PlanHash, nonce: string)

  datatype State = State(
    plans: map<string, PlanRow>,
    confirmations: Confirmations,
    orders: seq<Order>,
    canaries: seq<Canary>,
    usages: seq<Usage>,
    ready: bool,
    sync: map<string, SyncStatus>,
    progress: Progress,
    calls: seq<BrokerCall>,
    proofs: set<Proof>)

  /** Transactions on confirmations. */
  datatype TicketAction =
    | Request(id: string, planId: string, planHash: PlanHash, expiresAt: int, key: Option<string>)
    | ApproveByProof(id: string, approver: string, nonce: string)
    | ApproveByChannel(id: string, approver: string, channel: string, nonce: string)
    | Decline(id: string, approver: string, channel: string, nonce: string)
    | Consume(plan: Plan, id: string, shownPlan: string, now: int)

  /** The submitting process: claim an intent, reserve canary budget, call the broker, record the ack.
      `Release` is the process losing its place: an exception unwinding it, or a crash. */
  datatype SubmitAction =
    | Claim(order: nat, plan: Plan, id: string)
    | Fund(now: int)
    | CallBroker(ack: Option<string>)
    | Acknowledge(brokerOrderId: string)
    | Release

  /** Writes to one intent from events, polls, recovery and reconciliation. */
  datatype IntentAction =
    | MarkUnknown(order: nat, brokerOrderId: string)
    | Deliver(order: nat, event: Event)

  datatype CanaryAction =
    | OpenCanary(account: string, symbols: set<string>, side: Side, maxNotional: real, maxOrders: int,
                 expiresAt: int, now: int)
    | CloseAccount(owner: Option<string>, expiredAt: Option<int>, reason: CloseReason)

  datatype Action =
    | Ticket(ticket: TicketAction)
    | Submit(submit: SubmitAction)
    | OnIntent(intent: IntentAction)
    | OnCanary(canary: CanaryAction)
    | StorePlan(plan: Plan)
    | SetReadiness(pass: bool)
    | SetSync(account: string, status: SyncStatus)

  const EMPTY: State := State(map[], map[], [], [], [], false, map[], Idle, [], {})

  /** The plan table binds a plan id to one content; tickets are only requested for what is stored. */
  predicate PlanIs(plans: map<string, PlanRow>, planId: string, planHash: PlanHash) {
    planId in plans && plans[planId].plan.planHash == planHash
  }

  function Decided(s: State, r: Result<Confirmations>): State {
    if r.Ok? then s.(confirmations := r.value) else s
  }

  function ConsumePlan(s: State, plan: Plan, id: string, shownPlan: string, now: int): State {
    match ConsumeTransaction(s.confirmations, s.orders, plan, id, shownPlan, now)
    case Created(cs, orders) =>
      var plans := if plan.planId in s.plans
                   then s.plans[plan.planId := s.plans[plan.planId].(consumed := true)] else s.plans;
      s.(plans := plans, confirmations := cs, orders := orders)
    case _ => s
  }

  /** The ticket of this submission was consumed for exactly this plan, and the intent is one of its orders. */
  predicate Covers(s: State, order: nat, plan: Plan, id: string) {
    && order < |s.orders|
    && Intact(plan)
    && id in s.confirmations
    && s.confirmations[id].status.Consumed?
    && s.confirmations[id].planId == plan.planId
    && s.confirmations[id].planHash == plan.planHash
    && s.orders[order].row.planId == plan.planId
  }

  function SetRow(s: State, order: nat, status: IntentStatus, brokerOrderId: string): State {
    if order < |s.orders| then s.(orders := s.orders[order := SetOrderStatus(s.orders[order], status, brokerOrderId)])
    else s
  }

  /** The notional authorize_live_canary is asked for; it refuses to compute one otherwise. */
  predicate Priced(r: Intent) { r.referencePrice.Some? && r.referencePrice.value > 0.0 && r.quantity > 0.0 }

  function ReservationFor(r: Intent, account: string): Reservation
    requires Priced(r)
  {
    CanaryBudget.Reservation(account, r.planId, r.requestId, r.symbol, r.side, r.quantity * r.referencePrice.value)
  }

  /** int(quantity), and the source's test that it is the quantity. */
  predicate WholeQuantity(r: Intent) {
    r.quantity.Floor > 0 && r.quantity - r.quantity.Floor as real <= EPS
  }

  function CallFor(order: nat, r: Intent, account: string): BrokerCall
    requires Priced(r)
  {
    BrokerCall(order, r.requestId, account, r.symbol, r.side, r.quantity.Floor, r.referencePrice.value)
  }

  function ApplyTicket(s: State, a: TicketAction): State {
    match a
    case Request(id, planId, planHash, expiresAt, key) =>
      if PlanIs(s.plans, planId, planHash)
      then Decided(s, InsertConfirmation(s.confirmations, id, planId, planHash, expiresAt, key))
      else s
    case ApproveByProof(id, approver, nonce) =>
      if id !in s.confirmations then s
      else
        var c := s.confirmations[id];
        Decided(s.(proofs := s.proofs + {Proof(id, c.planId, c.planHash, nonce)}),
                Decide(s.confirmations, id, Approved, approver, APPROVAL_PROOF, nonce,
                       Some(c.planId), Some(c.planHash)))
    case ApproveByChannel(id, approver, channel, nonce) =>
      if channel == APPROVAL_PROOF then s
      else Decided(s, Decide(s.confirmations, id, Approved, approver, channel, nonce, None, None))
    case Decline(id, approver, channel, nonce) =>
      Decided(s, Decide(s.confirmations, id, Declined, approver, channel, nonce, None, None))
    case Consume(plan, id, shownPlan, now) =>
      if Intact(plan) then ConsumePlan(s, plan, id, shownPlan, now) else s
  }

  /** The row the submitting process is working on. */
  predicate Working(s: State) { !s.progress.Idle? && s.progress.order < |s.orders| }

  function CurrentRow(s: State): Intent
    requires Working(s)
  {
    s.orders[s.progress.order].row
  }

  predicate MayFund(s: State) {
    Working(s) && s.progress.Claimed? && s.progress.plan.mode.Live? && Priced(CurrentRow(s))
  }

  predicate MayCall(s: State) {
    Working(s) && s.progress.Funded? && Priced(CurrentRow(s)) && WholeQuantity(CurrentRow(s))
  }

  predicate MayAcknowledge(s: State, brokerOrderId: string) {
    || (s.progress.Sent? && s.progress.ack == Some(brokerOrderId))
    || (s.progress.Claimed? && s.progress.plan.mode.Paper?)
  }

  function ApplySubmit(s: State, a: SubmitAction): State {
    match a
    case Claim(order, plan, id) =>
      if s.progress.Idle? && Covers(s, order, plan, id) && s.orders[order].row.status.Pending?
      then SetRow(s, order, Submitting, "").(progress := Claimed(order, plan))
      else s
    case Fund(now) =>
      if MayFund(s) then
        var r := Reserve(s.canaries, s.usages, ReservationFor(CurrentRow(s), s.progress.plan.account), now);
        s.(canaries := r.canaries, usages := r.usages,
           progress := if r.canary.Some? then Funded(s.progress.order, s.progress.plan) else s.progress)
      else s
    case CallBroker(ack) =>
      if MayCall(s) then
        s.(calls := s.calls + [CallFor(s.progress.order, CurrentRow(s), s.progress.plan.account)],
           progress := Sent(s.progress.order, s.progress.plan, ack))
      else s
    case Acknowledge(b) =>
      if MayAcknowledge(s, b) then SetRow(s, s.progress.order, Submitted, b).(progress := Idle) else s
    case Release => s.(progress := Idle)
  }

  function ApplyIntent(s: State, a: IntentAction): State {
    match a
    case MarkUnknown(order, b) => SetRow(s, order, Unknown, b)
    case Deliver(order, e) =>
      if order < |s.orders| then s.(orders := s.orders[order := Handle(s.orders[order], order, e)]) else s
  }

  function ApplyCanary(s: State, a: CanaryAction): State {
    match a
    case OpenCanary(account, symbols, side, maxNotional, maxOrders, expiresAt, now) =>
      if !s.ready || account == "" || symbols == {} || side.OtherSide?
         || maxNotional <= 0.0 || maxOrders <= 0 || Expired(expiresAt, now) then s
      else s.(canaries := s.canaries + [Canary(account, symbols, side, maxNotional, maxOrders, expiresAt, 0.0, 0, Active)])
    case CloseAccount(owner, expiredAt, reason) =>
      s.(canaries := CloseCanaries(s.canaries, owner, expiredAt, reason))
  }

  function Apply(s: State, a: Action): State {
    match a
    case Ticket(t) => ApplyTicket(s, t)
    case Submit(t) => ApplySubmit(s, t)
    case OnIntent(t) => ApplyIntent(s, t)
    case OnCanary(t) => ApplyCanary(s, t)
    case StorePlan(plan) =>
      if plan.planId in s.plans || !Intact(plan) then s else s.(plans := s.plans[plan.planId := PlanRow(plan, false)])
    case SetReadiness(pass) => s.(ready := pass)
    case SetSync(account, status) => s.(sync := s.sync[account := status])
  }

  function Exec(s: State, run: seq<Action>): State
    decreases |run|
  {
    if run == [] then s else Apply(Exec(s, run[..|run| - 1]), run[|run| - 1])
  }

  lemma {:induction false} ExecAppends(s: State, a: seq<Action>, b: seq<Action>)
    ensures Exec(s, a + b) == Exec(Exec(s, a), b)
    decreases |b|
  {
    if b == [] {
      assert a + b == a;
    } else {
      ExecAppends(s, a, b[..|b| - 1]);
      assert (a + b)[..|a + b| - 1] == a + b[..|b| - 1];
    }
  }

  // ---- one step: what stays ----

  /** Intents are only added and only evolve. */
  ghost predicate OrdersForward(a: seq<Order>, b: seq<Order>) {
    && |a| <= |b|
    && forall i :: 0 <= i < |a| ==> Evolves(a[i], b[i])
  }

  /** Tickets keep their binding, and a consumed one is final. */
  ghost predicate TicketsForward(a: Confirmations, b: Confirmations) {
    forall id :: id in a ==>
      && id in b && b[id].planId == a[id].planId && b[id].planHash == a[id].planHash
      && (a[id].status.Consumed? ==> b[id] == a[id])
  }

  ghost predicate Forward(s: State, t: State) {
    && OrdersForward(s.orders, t.orders)
    && TicketsForward(s.confirmations, t.confirmations)
    && s.calls <= t.calls
    && s.proofs <= t.proofs
  }

  ghost predicate FillsConserved(orders: seq<Order>) {
    forall i :: 0 <= i < |orders| ==> Conserved(orders[i])
  }

  /** An approval through the proof channel has a verified proof behind it. */
  ghost predicate ProofsBacked(cs: Confirmations, proofs: set<Proof>) {
    forall id :: id in cs && cs[id].channel == APPROVAL_PROOF && (cs[id].status.Approved? || cs[id].status.Consumed?) ==>
      cs[id].nonce.Some? && Proof(id, cs[id].planId, cs[id].planHash, cs[id].nonce.value) in proofs
  }

  ghost predicate TicketsSound(cs: Confirmations, orders: seq<Order>, proofs: set<Proof>) {
    BooksOfPlans(cs, orders) && FillsConserved(orders) && ProofsBacked(cs, proofs)
  }

  /** Nothing is lost or invented in the tables. */
  ghost predicate TablesSound(s: State) {
    TicketsSound(s.confirmations, s.orders, s.proofs) && WithinBudget(s.canaries, s.usages)
  }

  lemma {:induction false} RowChange(cs: Confirmations, orders: seq<Order>, proofs: set<Proof>, i: nat, o: Order)
    requires TicketsSound(cs, orders, proofs) && i < |orders| && Evolves(orders[i], o) && Conserved(o)
    ensures TicketsSound(cs, orders[i := o], proofs) && OrdersForward(orders, orders[i := o])
  {
    EvolvingKeepsBooks(cs, orders, i, o);
  }

  lemma {:induction false} StatusChange(s: State, order: nat, status: IntentStatus, b: string)
    requires TablesSound(s) && !status.Filled? && !status.Pending?
    ensures var t := SetRow(s, order, status, b);
            TicketsSound(t.confirmations, t.orders, t.proofs) && OrdersForward(s.orders, t.orders)
  {
    if order < |s.orders| {
      SetStatusKeeps(s.orders[order], status, b);
      RowChange(s.confirmations, s.orders, s.proofs, order, SetOrderStatus(s.orders[order], status, b));
    }
  }

  lemma {:induction false} TicketChange(cs: Confirmations, orders: seq<Order>, proofs: set<Proof>, id: string, c: Confirmation)
    requires TicketsSound(cs, orders, proofs) && BooksOfPlans(cs[id := c], orders)
    requires id in cs ==> c.planId == cs[id].planId && c.planHash == cs[id].planHash && !cs[id].status.Consumed?
    requires c.channel == APPROVAL_PROOF && c.status.Approved? ==>
               c.nonce.Some? && Proof(id, c.planId, c.planHash, c.nonce.value) in proofs
    requires !c.status.Consumed?
    ensures TicketsSound(cs[id := c], orders, proofs) && TicketsForward(cs, cs[id := c])
  {
  }

  lemma {:induction false} DecisionChange(
      cs: Confirmations, orders: seq<Order>, proofs: set<Proof>, id: string, decision: ConfirmationStatus,
      approver: string, channel: string, nonce: string, plan: Option<string>, hash: Option<PlanHash>)
    requires TicketsSound(cs, orders, proofs) && !decision.Consumed?
    requires channel == APPROVAL_PROOF && decision.Approved? && id in cs ==>
               Proof(id, cs[id].planId, cs[id].planHash, nonce) in proofs
    ensures var r := Decide(cs, id, decision, approver, channel, nonce, plan, hash);
            r.Ok? ==> TicketsSound(r.value, orders, proofs) && TicketsForward(cs, r.value)
  {
    var r := Decide(cs, id, decision, approver, channel, nonce, plan, hash);
    if r.Ok? {
      DecideKeepsBooks(cs, orders, id, decision, approver, channel, nonce, plan, hash);
      TicketChange(cs, orders, proofs, id, r.value[id]);
    }
  }

  lemma {:induction false} AppendedRowsChange(orders: seq<Order>, rows: seq<Intent>, all: seq<Order>)
    requires FillsConserved(orders) && InsertAll(orders, rows) == Some(all)
    requires forall k :: 0 <= k < |rows| ==> rows[k].status.Pending?
    ensures FillsConserved(all) && OrdersForward(orders, all)
  {
    InsertAllAppends(orders, rows);
    var n := |orders|;
    forall i | 0 <= i < |all| ensures Conserved(all[i]) {
      if i >= n { assert all[n + (i - n)] == Order(rows[i - n], [], {}); } else { assert all[i] == orders[i]; }
    }
  }

  lemma {:induction false} ConsumedTicket(cs: Confirmations, id: string, proofs: set<Proof>)
    requires ProofsBacked(cs, proofs) && id in cs && cs[id].status.Approved?
    ensures ProofsBacked(cs[id := cs[id].(status := Consumed)], proofs)
    ensures TicketsForward(cs, cs[id := cs[id].(status := Consumed)])
  {
  }

  lemma {:induction false} ConsumptionChange(
      cs: Confirmations, orders: seq<Order>, proofs: set<Proof>, plan: Plan, id: string, shownPlan: string, now: int)
    requires TicketsSound(cs, orders, proofs) && Intact(plan)
    ensures var r := ConsumeTransaction(cs, orders, plan, id, shownPlan, now);
            r.Created? ==> TicketsSound(r.confirmations, r.orders, proofs) && OrdersForward(orders, r.orders)
                           && TicketsForward(cs, r.confirmations)
  {
    var r := ConsumeTransaction(cs, orders, plan, id, shownPlan, now);
    if r.Created? {
      ConsumeKeepsBooks(cs, orders, plan, id, shownPlan, now);
      CreatedChange(cs, orders, proofs, id, IntentRows(plan.planId, id, Canonical(plan.orders)), r.orders);
    }
  }

  lemma {:induction false} CreatedChange(
      cs: Confirmations, orders: seq<Order>, proofs: set<Proof>, id: string, rows: seq<Intent>, all: seq<Order>)
    requires FillsConserved(orders) && ProofsBacked(cs, proofs) && id in cs && cs[id].status.Approved?
    requires InsertAll(orders, rows) == Some(all) && forall k :: 0 <= k < |rows| ==> rows[k].status.Pending?
    ensures var cs' := cs[id := cs[id].(status := Consumed)];
            FillsConserved(all) && OrdersForward(orders, all) && ProofsBacked(cs', proofs) && TicketsForward(cs, cs')
  {
    AppendedRowsChange(orders, rows, all);
    ConsumedTicket(cs, id, proofs);
  }

  lemma {:induction false} ProofStepIsSound(s: State, id: string, approver: string, nonce: string)
    requires TablesSound(s)
    ensures var t := ApplyTicket(s, ApproveByProof(id, approver, nonce)); TablesSound(t) && Forward(s, t)
  {
    var cs := s.confirmations;
    if id in cs {
      var proofs := s.proofs + {Proof(id, cs[id].planId, cs[id].planHash, nonce)};
      assert ProofsBacked(cs, proofs);
      DecisionChange(cs, s.orders, proofs, id, Approved, approver, APPROVAL_PROOF, nonce,
                     Some(cs[id].planId), Some(cs[id].planHash));
      TicketsMoveForward(s, ApplyTicket(s, ApproveByProof(id, approver, nonce)));
    } else {
      UntouchedIsForward(s, s);
    }
  }

  /** A decision through any channel but the proof channel. */
  lemma {:induction false} DecisionIsSound(s: State, id: string, decision: ConfirmationStatus, approver: string,
                                           channel: string, nonce: string)
    requires TablesSound(s) && !decision.Consumed? && (decision.Approved? ==> channel != APPROVAL_PROOF)
    ensures var t := Decided(s, Decide(s.confirmations, id, decision, approver, channel, nonce, None, None));
            TablesSound(t) && Forward(s, t)
  {
    var r := Decide(s.confirmations, id, decision, approver, channel, nonce, None, None);
    if r.Ok? {
      DecisionChange(s.confirmations, s.orders, s.proofs, id, decision, approver, channel, nonce, None, None);
      TicketsMoveForward(s, s.(confirmations := r.value));
    } else {
      UntouchedIsForward(s, s);
    }
  }

  /** A step that leaves the tickets, the intents and the logs alone. */
  lemma {:induction false} UntouchedIsForward(s: State, t: State)
    requires t.orders == s.orders && t.confirmations == s.confirmations && s.calls <= t.calls && t.proofs == s.proofs
    ensures Forward(s, t)
  {
  }

  lemma {:induction false} RequestChange(
      cs: Confirmations, orders: seq<Order>, proofs: set<Proof>, id: string, planId: string, planHash: PlanHash,
      expiresAt: int, key: Option<string>)
    requires TicketsSound(cs, orders, proofs)
    ensures var r := InsertConfirmation(cs, id, planId, planHash, expiresAt, key);
            r.Ok? ==> TicketsSound(r.value, orders, proofs) && TicketsForward(cs, r.value)
  {
    InsertConfirmationKeepsBooks(cs, orders, id, planId, planHash, expiresAt, key);
    var r := InsertConfirmation(cs, id, planId, planHash, expiresAt, key);
    if r.Ok? { TicketChange(cs, orders, proofs, id, r.value[id]); }
  }

  /** A step that only touches tickets, soundly. */
  lemma {:induction false} TicketsMoveForward(s: State, t: State)
    requires TablesSound(s) && TicketsSound(t.confirmations, t.orders, t.proofs) && TicketsForward(s.confirmations, t.confirmations)
    requires t.orders == s.orders && t.canaries == s.canaries && t.usages == s.usages && t.calls == s.calls
    requires s.proofs <= t.proofs
    ensures TablesSound(t) && Forward(s, t)
  {
  }

  lemma {:induction false} RequestIsSound(s: State, a: TicketAction)
    requires TablesSound(s) && a.Request?
    ensures TablesSound(ApplyTicket(s, a)) && Forward(s, ApplyTicket(s, a))
  {
    RequestChange(s.confirmations, s.orders, s.proofs, a.id, a.planId, a.planHash, a.expiresAt, a.key);
    var t := ApplyTicket(s, a);
    if t == s { UntouchedIsForward(s, t); } else { TicketsMoveForward(s, t); }
  }

  lemma {:induction false} ConsumeIsSound(s: State, plan: Plan, id: string, shownPlan: string, now: int)
    requires TablesSound(s)
    ensures var t := ApplyTicket(s, Consume(plan, id, shownPlan, now)); TablesSound(t) && Forward(s, t)
  {
    if Intact(plan) { ConsumptionChange(s.confirmations, s.orders, s.proofs, plan, id, shownPlan, now); }
    if ApplyTicket(s, Consume(plan, id, shownPlan, now)) == s { UntouchedIsForward(s, s); }
  }

  lemma {:induction false} TicketStepIsSound(s: State, a: TicketAction)
    requires TablesSound(s)
    ensures TablesSound(ApplyTicket(s, a)) && Forward(s, ApplyTicket(s, a))
  {
    match a {
      case Request(_, _, _, _, _) => RequestIsSound(s, a);
      case ApproveByProof(id, approver, nonce) => ProofStepIsSound(s, id, approver, nonce);
      case ApproveByChannel(id, approver, channel, nonce) =>
        if channel != APPROVAL_PROOF { DecisionIsSound(s, id, Approved, approver, channel, nonce); }
        else { UntouchedIsForward(s, s); }
      case Decline(id, approver, channel, nonce) => DecisionIsSound(s, id, Declined, approver, channel, nonce);
      case Consume(plan, id, shownPlan, now) => ConsumeIsSound(s, plan, id, shownPlan, now);
    }
  }

  lemma {:induction false} FundIsSound(s: State, now: int)
    requires TablesSound(s)
    ensures TablesSound(ApplySubmit(s, Fund(now))) && Forward(s, ApplySubmit(s, Fund(now)))
  {
    if MayFund(s) {
      ReserveStaysWithinBudget(s.canaries, s.usages, ReservationFor(CurrentRow(s), s.progress.plan.account), now);
    }
    UntouchedIsForward(s, ApplySubmit(s, Fund(now)));
  }

  lemma {:induction false} ClaimIsSound(s: State, order: nat, plan: Plan, id: string)
    requires TablesSound(s)
    ensures var t := ApplySubmit(s, Claim(order, plan, id)); TablesSound(t) && Forward(s, t)
  {
    var t := ApplySubmit(s, Claim(order, plan, id));
    if t == s { UntouchedIsForward(s, t); } else { StatusChange(s, order, Submitting, ""); }
  }

  lemma {:induction false} AcknowledgeIsSound(s: State, b: string)
    requires TablesSound(s)
    ensures var t := ApplySubmit(s, Acknowledge(b)); TablesSound(t) && Forward(s, t)
  {
    if MayAcknowledge(s, b) {
      StatusChange(s, s.progress.order, Submitted, b);
    } else {
      UntouchedIsForward(s, s);
    }
  }

  lemma {:induction false} CallIsSound(s: State, ack: Option<string>)
    requires TablesSound(s)
    ensures var t := ApplySubmit(s, CallBroker(ack)); TablesSound(t) && Forward(s, t)
  {
    CallIsLogged(s, ack);
    LoggingIsSound(s, ApplySubmit(s, CallBroker(ack)));
  }

  lemma {:induction false} CallIsLogged(s: State, ack: Option<string>)
    ensures var t := ApplySubmit(s, CallBroker(ack));
            t == s.(calls := t.calls, progress := t.progress) && s.calls <= t.calls
  {
  }

  lemma {:induction false} LoggingIsSound(s: State, t: State)
    requires TablesSound(s) && t == s.(calls := t.calls, progress := t.progress) && s.calls <= t.calls
    ensures TablesSound(t) && Forward(s, t)
  {
    UntouchedIsForward(s, t);
  }

  lemma {:induction false} SubmitStepIsSound(s: State, a: SubmitAction)
    requires TablesSound(s)
    ensures TablesSound(ApplySubmit(s, a)) && Forward(s, ApplySubmit(s, a))
  {
    match a {
      case Claim(order, plan, id) => ClaimIsSound(s, order, plan, id);
      case Fund(now) => FundIsSound(s, now);
      case CallBroker(ack) => CallIsSound(s, ack);
      case Acknowledge(b) => AcknowledgeIsSound(s, b);
      case Release => UntouchedIsForward(s, ApplySubmit(s, Release));
    }
  }

  lemma {:induction false} DeliveryIsSound(s: State, order: nat, e: Event)
    requires TablesSound(s)
    ensures var t := ApplyIntent(s, Deliver(order, e)); TablesSound(t) && Forward(s, t)
  {
    if order < |s.orders| {
      HandleKeeps(s.orders[order], order, e);
      RowChange(s.confirmations, s.orders, s.proofs, order, Handle(s.orders[order], order, e));
    } else {
      UntouchedIsForward(s, s);
    }
  }

  lemma {:induction false} IntentStepIsSound(s: State, a: IntentAction)
    requires TablesSound(s)
    ensures TablesSound(ApplyIntent(s, a)) && Forward(s, ApplyIntent(s, a))
  {
    match a {
      case MarkUnknown(order, b) => StatusChange(s, order, Unknown, b);
      case Deliver(order, e) => DeliveryIsSound(s, order, e);
    }
  }

  lemma {:induction false} CanaryStepIsSound(s: State, a: CanaryAction)
    requires TablesSound(s)
    ensures TablesSound(ApplyCanary(s, a)) && Forward(s, ApplyCanary(s, a))
  {
    match a {
      case OpenCanary(_, _, _, _, _, _, _) =>
        var t := ApplyCanary(s, a);
        if t != s { OpeningStaysWithinBudget(s.canaries, s.usages, t.canaries[|s.canaries|]); }
      case CloseAccount(owner, expiredAt, reason) =>
        ClosingStaysWithinBudget(s.canaries, s.usages, owner, expiredAt, reason);
    }
  }

  /** Every step keeps the tables sound and moves forward only. */
  lemma {:induction false} StepIsSound(s: State, a: Action)
    requires TablesSound(s)
    ensures TablesSound(Apply(s, a)) && Forward(s, Apply(s, a))
  {
    match a {
      case Ticket(t) => TicketStepIsSound(s, t);
      case Submit(t) => SubmitStepIsSound(s, t);
      case OnIntent(t) => IntentStepIsSound(s, t);
      case OnCanary(t) => CanaryStepIsSound(s, t);
      case _ => UntouchedIsForward(s, Apply(s, a));
    }
  }

  lemma {:induction false} OrdersForwardTransitively(a: seq<Order>, b: seq<Order>, c: seq<Order>)
    requires OrdersForward(a, b) && OrdersForward(b, c)
    ensures OrdersForward(a, c)
  {
    forall i | 0 <= i < |a| ensures Evolves(a[i], c[i]) {
      EvolvesTransitively(a[i], b[i], c[i]);
    }
  }

  /** Over every run: intents and tickets only move forward, and the tables stay sound. */
  lemma {:induction false} RunIsSound(s: State, run: seq<Action>)
    requires TablesSound(s)
    ensures TablesSound(Exec(s, run)) && Forward(s, Exec(s, run))
    decreases |run|
  {
    if run != [] {
      var t := Exec(s, run[..|run| - 1]);
      RunIsSound(s, run[..|run| - 1]);
      StepIsSound(t, run[|run| - 1]);
      OrdersForwardTransitively(s.orders, t.orders, Exec(s, run).orders);
    }
  }
}
