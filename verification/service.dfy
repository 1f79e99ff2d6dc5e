/** The executiond boundary (ExecutionService in execution/service.py): callers name identifiers, never orders. */
module Services {
  import opened Models
  import opened IntentState
  import opened Consumption
  import opened Protocol
  import opened Safety
  import opened PreTradeRisk
  import opened Store
  import opened Brokers
  import opened OrderManagers

  /** A signed approval. Optional claims may be missing; the nonce may not. */
  datatype SignedProof = SignedProof(
    action: Option<string>, confirmationId: Option<string>, planId: Option<string>, planHash: Option<PlanHash>,
    nonce: string)

  /** The identity verifier: the owner it maps a valid signature over exactly these claims to. */
  type Verifier = (SignedProof, Proof) -> Option<string>

  predicate Claims<T(==)>(claim: Option<T>, expected: T) { claim.Some? ==> claim.value == expected }

  /** No supplied claim contradicts the stored ticket. */
  predicate ClaimsMatch(p: SignedProof, id: string, c: Confirmation) {
    Claims(p.action, "approve") && Claims(p.confirmationId, id) && Claims(p.planId, c.planId) && Claims(p.planHash, c.planHash)
  }

  ghost predicate UniqueKeys(cs: Confirmations) {
    forall a, b :: a in cs && b in cs && cs[a].idempotencyKey.Some? && cs[a].idempotencyKey == cs[b].idempotencyKey
      ==> a == b
  }

  lemma {:induction false} DecideKeepsKeys(
      cs: Confirmations, id: string, decision: ConfirmationStatus, approver: string, channel: string, nonce: string,
      plan: Option<string>, hash: Option<PlanHash>)
    requires UniqueKeys(cs)
    ensures var r := Decide(cs, id, decision, approver, channel, nonce, plan, hash); r.Ok? ==> UniqueKeys(r.value)
  {
  }

  lemma {:induction false} TicketsKeepKeys(s: State, a: TicketAction)
    requires UniqueKeys(s.confirmations)
    ensures UniqueKeys(ApplyTicket(s, a).confirmations)
  {
    var cs := s.confirmations;
    match a {
      case ApproveByProof(id, approver, nonce) =>
        if id in cs {
          DecideKeepsKeys(cs, id, Approved, approver, APPROVAL_PROOF, nonce, Some(cs[id].planId), Some(cs[id].planHash));
        }
      case ApproveByChannel(id, approver, channel, nonce) =>
        DecideKeepsKeys(cs, id, Approved, approver, channel, nonce, None, None);
      case Decline(id, approver, channel, nonce) =>
        DecideKeepsKeys(cs, id, Declined, approver, channel, nonce, None, None);
      case _ =>
    }
  }

  /** An idempotency key names one ticket for ever, over every run. */
  lemma {:induction false} KeysAreUnique(run: seq<Action>)
    ensures UniqueKeys(Exec(EMPTY, run).confirmations)
    decreases |run|
  {
    if run != [] {
      var s, a := Exec(EMPTY, run[..|run| - 1]), run[|run| - 1];
      KeysAreUnique(run[..|run| - 1]);
      if a.Ticket? { TicketsKeepKeys(s, a.ticket); }
      else if a.Submit? { SubmitKeepsTickets(s, a.submit); }
    }
  }

  /** A ticket that was decided for good stays as it is, so a consumed one can never be executed again. */
  lemma ConsumedIsFinal(before: seq<Action>, after: seq<Action>, id: string)
    requires before <= after
    requires id in Exec(EMPTY, before).confirmations && Exec(EMPTY, before).confirmations[id].status.Consumed?
    ensures id in Exec(EMPTY, after).confirmations
            && Exec(EMPTY, after).confirmations[id] == Exec(EMPTY, before).confirmations[id]
  {
    LaterIsForward(before, after);
  }

  class ExecutionService {
    const store: ExecutionStore
    /** The plans of the core store, which this service only reads. */
    const core: map<string, Plan>
    const verifier: Option<Verifier>
    const broker: Router
    const riskLimits: Option<RiskLimits>
    const dailyLoss: Option<real>

    constructor (store: ExecutionStore, core: map<string, Plan>, verifier: Option<Verifier>, broker: Router,
                 riskLimits: Option<RiskLimits>, dailyLoss: Option<real>)
      ensures this.store == store && this.core == core && this.verifier == verifier && this.broker == broker
      ensures this.riskLimits == riskLimits && this.dailyLoss == dailyLoss
    {
      this.store, this.core, this.verifier, this.broker := store, core, verifier, broker;
      this.riskLimits, this.dailyLoss := riskLimits, dailyLoss;
    }

    ghost predicate Wired() { broker.LiveRouter? ==> broker.live.store == store && broker.live.Wired() }

    ghost function BrokerObjects(): set<object> { if broker.LiveRouter? then {broker.live} else {} }

    /** read_and_snapshot_plan: the core plan is rehashed before it is copied. */
    method SnapshotPlan(planId: string) returns (r: Result<Plan>)
      requires store.Valid()
      requires forall id :: id in core ==> core[id].planId == id
      modifies store
      ensures store.Valid() && old(store.history) <= store.history
      ensures store.View() == old(store.View()).(plans := store.plans)
      ensures r.Ok? ==> planId in core && r.value == core[planId] && Intact(r.value)
                        && planId in store.plans && store.plans[planId].plan == r.value
    {
      if planId !in core { return Err("plan does not exist"); }
      var plan := core[planId];
      if ComputePlanHash(plan.account, plan.mode, plan.orders, plan.expiresAt) != plan.planHash {
        return Err("core plan hash does not match");
      }
      var inserted := store.InsertPlan(plan);
      if inserted.Err? { return Err("plan id is bound to other content"); }
      return Ok(plan);
    }

    method FindByKey(key: string) returns (found: Option<string>)
      ensures found.Some? ==> found.value in store.confirmations
                              && store.confirmations[found.value].idempotencyKey == Some(key)
      ensures found.None? ==> !KeyUsed(store.confirmations, key)
    {
      if id :| id in store.confirmations && store.confirmations[id].idempotencyKey == Some(key) {
        return Some(id);
      }
      return None;
    }

    /** request_confirmation: a PENDING ticket for the stored plan, never outliving it; the same key gives the
        same ticket again. */
    method RequestConfirmation(planId: string, expected: Option<PlanHash>, key: Option<string>, expiresAt: Option<int>,
                               newId: string) returns (r: Result<string>)
      requires store.Valid()
      requires forall id :: id in core ==> core[id].planId == id
      modifies store
      ensures store.Valid() && old(store.history) <= store.history
      ensures store.View() == old(store.View()).(plans := store.plans, confirmations := store.confirmations)
      ensures r.Err? ==> store.confirmations == old(store.confirmations)
      ensures r.Ok? ==>
                && (r.value in store.confirmations)
                && planId in core && Intact(core[planId])
                && Claims(expected, core[planId].planHash)
                && store.confirmations[r.value].planId == planId
                && store.confirmations[r.value].planHash == core[planId].planHash
                && PlanIs(store.plans, planId, core[planId].planHash)
      // a used key returns the ticket it is bound to; a new ticket is pending and expires with its plan at the latest
      ensures r.Ok? ==> (
                if key.Some? && key.value != "" && KeyUsed(old(store.confirmations), key.value)
                then store.confirmations == old(store.confirmations)
                     && store.confirmations[r.value].idempotencyKey == key
                else r.value == newId && newId !in old(store.confirmations)
                     && store.confirmations == old(store.confirmations)[newId := store.confirmations[newId]]
                     && store.confirmations[newId].status.AwaitingApproval?
                     && store.confirmations[newId].expiresAt <= core[planId].expiresAt
                     && (expiresAt.Some? ==> store.confirmations[newId].expiresAt <= expiresAt.value))
    {
      var snapshot := SnapshotPlan(planId);
      if snapshot.Err? { return Err(snapshot.error); }
      var plan := snapshot.value;
      if expected.Some? && expected.value != plan.planHash { return Err("plan hash differs"); }
      var bound := if key == Some("") then None else key;
      if bound.Some? {
        var existing := FindByKey(bound.value);
        if existing.Some? {
          var c := store.confirmations[existing.value];
          if c.planId != plan.planId || c.planHash != plan.planHash { return Err("idempotency key is bound to another plan"); }
          return Ok(existing.value);
        }
      }
      r := NewTicket(plan, bound, expiresAt, newId);
    }

    method NewTicket(plan: Plan, key: Option<string>, expiresAt: Option<int>, newId: string) returns (r: Result<string>)
      requires store.Valid() && PlanIs(store.plans, plan.planId, plan.planHash)
      modifies store
      ensures store.Valid() && old(store.history) <= store.history
      ensures store.View() == old(store.View()).(confirmations := store.confirmations)
      ensures r.Err? ==> store.confirmations == old(store.confirmations)
      ensures r.Ok? ==>
                && r.value == newId && newId !in old(store.confirmations) && newId in store.confirmations
                && var c := store.confirmations[newId];
                && store.confirmations == old(store.confirmations)[newId := c]
                && c.status.AwaitingApproval? && c.planId == plan.planId && c.planHash == plan.planHash
                && c.expiresAt <= plan.expiresAt && (expiresAt.Some? ==> c.expiresAt <= expiresAt.value)
    {
      var expiry := if expiresAt.Some? && expiresAt.value <= plan.expiresAt then expiresAt.value else plan.expiresAt;
      var inserted := store.RequestConfirmation(newId, plan.planId, plan.planHash, expiry, key);
      if inserted.Err? { return Err(inserted.error); }
      return Ok(newId);
    }

    /** What approval asks for: a pending ticket of its stored plan, nothing expired, a verified proof over this
        ticket's own plan, hash and nonce, no claim that contradicts it, and a nonce nobody used. */
    ghost predicate MayApprove(s: State, id: string, proof: SignedProof, now: int) {
      && verifier.Some? && id in s.confirmations &&
      var was := s.confirmations[id];
      && was.status.AwaitingApproval? && !Expired(was.expiresAt, now)
      && PlanIs(s.plans, was.planId, was.planHash) && !Expired(s.plans[was.planId].plan.expiresAt, now)
      && ClaimsMatch(proof, id, was)
      && verifier.value(proof, Proof(id, was.planId, was.planHash, proof.nonce)).Some?
      && !NonceUsed(s.confirmations, proof.nonce)
    }

    /** approve: APPROVED exactly when MayApprove; a refusal changes no ticket. */
    method Approve(id: string, proof: SignedProof, now: int) returns (r: Result<Confirmation>)
      requires store.Valid()
      modifies store
      ensures store.Valid() && old(store.history) <= store.history
      ensures store.View() == old(store.View()).(confirmations := store.confirmations, proofs := store.proofs)
      ensures r.Err? ==> store.confirmations == old(store.confirmations)
      ensures r.Ok? <==> MayApprove(old(store.View()), id, proof, now)
      ensures r.Ok? ==> id in store.confirmations
      ensures r.Ok? ==>
                (var was, c := old(store.confirmations)[id], store.confirmations[id];
                && c.status.Approved? && c.channel == APPROVAL_PROOF && c.nonce == Some(proof.nonce)
                && c.approvedBy == verifier.value(proof, Proof(id, was.planId, was.planHash, proof.nonce)).value
                && c.planId == was.planId && c.planHash == was.planHash && c.expiresAt == was.expiresAt
                && r.value == c)
      // nothing joins the log of accepted proofs unless the verifier accepted it
      ensures forall p :: p in store.proofs && p !in old(store.proofs) ==> verifier.Some? && verifier.value(proof, p).Some?
    {
      if verifier.None? { return Err("no verifier is configured"); }
      if id !in store.confirmations { return Err("confirmation does not exist"); }
      var row := store.confirmations[id];
      if !row.status.AwaitingApproval? { return Err("only a pending confirmation can be approved"); }
      if row.planId !in store.plans { return Err("plan does not exist"); }
      var plan := store.plans[row.planId].plan;
      if plan.planHash != row.planHash { return Err("confirmation and plan differ"); }
      if Expired(plan.expiresAt, now) { return Err("plan expired"); }
      if Expired(row.expiresAt, now) { return Err("confirmation expired"); }
      if !ClaimsMatch(proof, id, row) { return Err("a claim differs from the confirmation"); }
      var owner := verifier.value(proof, Proof(id, row.planId, row.planHash, proof.nonce));
      if owner.None? { return Err("the proof was not accepted"); }
      r := store.ApproveByProof(id, owner.value, proof.nonce);
    }

    /** The router a plan may be executed on. */
    method RouterFor(plan: Plan) returns (r: Result<Router>)
      requires Wired()
      ensures r.Ok? <==> Routable(plan, store.ready)
      ensures r.Ok? && plan.mode.Live? ==> r.value == broker
      ensures r.Ok? && plan.mode.Paper? ==> r.value.PaperRouter?
    {
      match plan.mode {
        case Paper =>
          if broker.LiveRouter? { return Err("PAPER only runs on the local paper broker"); }
          return Ok(PaperRouter);
        case Live =>
          if !broker.LiveRouter? || !broker.live.enableLive { return Err("LIVE needs an enabled LiveBroker"); }
          if broker.live.killSwitch { return Err("kill switch is engaged"); }
          if !store.ready { return Err("P0-A has not passed"); }
          return Ok(broker);
        case DryRun => return Err("only PAPER or LIVE plans are executed");
      }
    }

    /** execute: the one narrow request. The stored plan and ticket decide; nothing is merged from the caller. */
    method Execute(planId: string, id: string, quotes: Quotes, account: Option<AccountState>, now: int,
                   client: Connection, arrivals: Arrivals) returns (r: Outcome)
      requires store.Valid() && Wired() && store.progress.Idle?
      modifies store, BrokerObjects()
      ensures store.Valid() && old(store.history) <= store.history && store.progress.Idle?
      // an earlier unknown outcome of the addressed plan is reported, and nothing is done
      ensures Addressed(old(store.View()), planId, id) && PlanHasUnknown(old(store.orders), planId) ==> r.UnknownOutcome?
      // a plain refusal, exactly
      ensures r.Failed? <==>
                && !(Addressed(old(store.View()), planId, id) && PlanHasUnknown(old(store.orders), planId))
                && !(Executable(old(store.View()), planId, id)
                     && Granted(old(store.View()), planId, id, quotes, account, now))
      // nothing is written unless the request is executable and its route is there
      ensures store.View() != old(store.View()) ==>
                Executable(old(store.View()), planId, id) && Routable(old(store.plans)[planId].plan, old(store.ready))
      ensures store.calls != old(store.calls) ==>
                && Executable(old(store.View()), planId, id)
                && MayGoLive(old(store.plans)[planId].plan, old(store.ready))
                && OnlyCallsOf(old(store.calls), store.calls, old(store.plans)[planId].plan)
      // success: the ticket is consumed, and exactly its approved orders exist, none of them still waiting
      ensures r.Done? ==>
                && planId in old(store.plans)
                && var plan := old(store.plans)[planId].plan;
                && MatchingTicket(store.confirmations, plan, id)
                && PlanTerms(store.orders, planId) == IntentRows(planId, id, Canonical(plan.orders))
                && AreOf(store.orders, r.intents, planId) && HaveLeftPending(store.orders, r.intents)
    {
      var refusal := CheckRequest(planId, id);
      if refusal.Some? { return refusal.value; }
      var plan, row := store.plans[planId].plan, store.confirmations[id];
      PlansKeepTheirIds(store.history, planId);
      var route := RouterFor(plan);
      if route.Err? { return Failed(route.error); }
      var manager := new OrderManager(store, route.value, riskLimits, dailyLoss);
      r := manager.Submit(plan, Shown(id, row), quotes, account, now, client, arrivals);
    }

    /** The stored plan and ticket of the request, checked in order. */
    method CheckRequest(planId: string, id: string) returns (refusal: Option<Outcome>)
      requires store.Valid()
      ensures refusal.None? <==> Executable(store.View(), planId, id)
      ensures refusal.Some? ==> !refusal.value.Done?
      ensures refusal.Some? && refusal.value.UnknownOutcome? <==>
                Addressed(store.View(), planId, id) && PlanHasUnknown(store.orders, planId)
    {
      if planId == "" || id == "" { return Some(Failed("identifiers must not be empty")); }
      if planId !in store.plans { return Some(Failed("plan does not exist")); }
      var plan := store.plans[planId].plan;
      PlansKeepTheirIds(store.history, planId);
      if id !in store.confirmations { return Some(Failed("confirmation does not exist")); }
      var row := store.confirmations[id];
      if row.planId != plan.planId { return Some(Failed("confirmation is for another plan")); }
      if row.planHash != plan.planHash { return Some(Failed("confirmation and plan differ")); }
      if row.channel != APPROVAL_PROOF { return Some(Failed("only approval proofs are executed")); }
      var unknown := PlanIsUnknown(plan.planId);
      if unknown { return Some(UnknownOutcome("a previous broker outcome is unknown")); }
      if !row.status.Approved? { return Some(Failed("confirmation is consumed or not approved")); }
      return None;
    }

    /** What an executable request still needs: a route, a passed gate and a ticket that can be consumed. */
    ghost predicate Granted(s: State, planId: string, id: string, quotes: Quotes, account: Option<AccountState>, now: int)
      requires planId in s.plans && id in s.confirmations
    {
      var plan, shown := s.plans[planId].plan, Shown(id, s.confirmations[id]);
      && Routable(plan, s.ready)
      && Passes(plan, shown, account, quotes, OpenIntents(s.orders), UnknownIntents(s.orders), riskLimits, dailyLoss, now)
      && MayConsume(s.confirmations, s.orders, plan, shown, now)
    }

    /** There is a router for the plan. */
    ghost predicate Routable(plan: Plan, ready: bool) {
      match plan.mode
      case Paper => !broker.LiveRouter?
      case Live => MayGoLive(plan, ready)
      case DryRun => false
    }

    ghost predicate MayGoLive(plan: Plan, ready: bool) {
      plan.mode.Live? && ready && broker.LiveRouter? && broker.live.enableLive && !broker.live.killSwitch
    }

    method PlanIsUnknown(planId: string) returns (unknown: bool)
      requires planId != ""
      ensures unknown <==> PlanHasUnknown(store.orders, planId)
    {
      var existing := store.ListIntents(planId);
      for k := 0 to |existing|
        invariant forall j :: 0 <= j < k ==> !store.orders[existing[j]].row.status.Unknown?
      {
        if store.orders[existing[k]].row.status.Unknown? { return true; }
      }
      return false;
    }
  }

  /** The state a request must find: an approved, unconsumed proof ticket for this stored plan, and no
      intent of the plan with an unknown outcome. */
  ghost predicate Executable(s: State, planId: string, id: string) {
    Addressed(s, planId, id) && s.confirmations[id].status.Approved? && !PlanHasUnknown(s.orders, planId)
  }

  /** The request names a stored plan and a proof ticket of it. */
  ghost predicate Addressed(s: State, planId: string, id: string) {
    && planId != "" && id != "" && planId in s.plans && id in s.confirmations
    && s.confirmations[id].planId == planId && s.confirmations[id].planHash == s.plans[planId].plan.planHash
    && s.confirmations[id].channel == APPROVAL_PROOF
  }

  ghost predicate PlansKeyed(plans: map<string, PlanRow>) {
    forall id :: id in plans ==> plans[id].plan.planId == id && Intact(plans[id].plan)
  }

  lemma {:induction false} PlansKeepTheirIds(run: seq<Action>, planId: string)
    requires planId in Exec(EMPTY, run).plans
    ensures Exec(EMPTY, run).plans[planId].plan.planId == planId && Intact(Exec(EMPTY, run).plans[planId].plan)
  {
    PlansStayKeyed(run);
  }

  lemma {:induction false} PlansStayKeyed(run: seq<Action>)
    ensures PlansKeyed(Exec(EMPTY, run).plans)
    decreases |run|
  {
    if run != [] {
      var s, a := Exec(EMPTY, run[..|run| - 1]), run[|run| - 1];
      PlansStayKeyed(run[..|run| - 1]);
      StepKeepsPlansKeyed(s, a);
    }
  }

  lemma {:induction false} StepKeepsPlansKeyed(s: State, a: Action)
    requires PlansKeyed(s.plans)
    ensures PlansKeyed(Apply(s, a).plans)
  {
    if a.Submit? { SubmitKeepsTickets(s, a.submit); }
    else if a.Ticket? { TicketsKeepPlansKeyed(s, a.ticket); }
  }

  lemma {:induction false} TicketsKeepPlansKeyed(s: State, a: TicketAction)
    requires PlansKeyed(s.plans)
    ensures PlansKeyed(ApplyTicket(s, a).plans)
  {
  }
}
