/** The execution database: tables that transactions reassign, and a ghost log of what was committed.

    Every mutating method is one committed transaction. `history` is the run so far, so any prefix of it is
    a state a crash may leave behind, and `Valid` says the tables are where that run leads. */
module Store {
  import opened Models
  import opened IntentState
  import opened BrokerEvents
  import opened CanaryBudget
  import opened Consumption
  import opened Protocol

  lemma {:induction false} OneMore(run: seq<Action>, a: Action)
    ensures Exec(EMPTY, run + [a]) == Apply(Exec(EMPTY, run), a)
  {
    assert (run + [a])[..|run|] == run;
  }

  lemma {:induction false} ReleaseMore(run: seq<Action>)
    ensures Exec(EMPTY, run + [Submit(Protocol.Release)]) == Exec(EMPTY, run).(progress := Idle)
  {
    OneMore(run, Submit(Protocol.Release));
  }

  lemma {:induction false} CloseMore(run: seq<Action>, account: Option<string>, expiredAt: Option<int>, reason: CloseReason)
    ensures Exec(EMPTY, run + [OnCanary(CloseAccount(account, expiredAt, reason))])
            == Exec(EMPTY, run).(canaries := CloseCanaries(Exec(EMPTY, run).canaries, account, expiredAt, reason))
  {
    OneMore(run, OnCanary(CloseAccount(account, expiredAt, reason)));
  }

  /** The tickets after a decision that may be refused. */
  function AfterDecision(cs: Confirmations, d: Result<Confirmations>): Confirmations { if d.Ok? then d.value else cs }

  lemma {:induction false} ProofMore(run: seq<Action>, id: string, approver: string, nonce: string)
    requires id in Exec(EMPTY, run).confirmations
    ensures var s := Exec(EMPTY, run);
            var c := s.confirmations[id];
            Exec(EMPTY, run + [Ticket(Protocol.ApproveByProof(id, approver, nonce))])
            == Apply(s, Ticket(Protocol.ApproveByProof(id, approver, nonce)))
            == s.(proofs := s.proofs + {Proof(id, c.planId, c.planHash, nonce)},
                  confirmations := AfterDecision(s.confirmations,
                                                 Decide(s.confirmations, id, Approved, approver, APPROVAL_PROOF, nonce,
                                                        Some(c.planId), Some(c.planHash))))
  {
    OneMore(run, Ticket(Protocol.ApproveByProof(id, approver, nonce)));
  }

  lemma {:induction false} ReadinessMore(run: seq<Action>, pass: bool)
    ensures Exec(EMPTY, run + [SetReadiness(pass)]) == Exec(EMPTY, run).(ready := pass)
  {
    OneMore(run, SetReadiness(pass));
  }

  lemma {:induction false} SyncMore(run: seq<Action>, account: string, status: SyncStatus)
    ensures Exec(EMPTY, run + [SetSync(account, status)])
            == Exec(EMPTY, run).(sync := Exec(EMPTY, run).sync[account := status])
  {
    OneMore(run, SetSync(account, status));
  }

  class ExecutionStore {
    var plans: map<string, PlanRow>
    var confirmations: Confirmations
    var orders: seq<Order>
    var canaries: seq<Canary>
    var usages: seq<Usage>
    var ready: bool
    var sync: map<string, SyncStatus>
    ghost var progress: Progress
    ghost var calls: seq<BrokerCall>
    ghost var proofs: set<Proof>
    ghost var history: seq<Action>

    ghost function View(): State
      reads this
    {
      State(plans, confirmations, orders, canaries, usages, ready, sync, progress, calls, proofs)
    }

    ghost predicate Valid()
      reads this
    {
      View() == Exec(EMPTY, history)
    }

    constructor ()
      ensures Valid() && history == []
    {
      plans, confirmations, orders, canaries, usages := map[], map[], [], [], [];
      ready, sync := false, map[];
      progress, calls, proofs, history := Idle, [], {}, [];
    }

    /** The transaction is committed: the tables are where the run leads. */
    ghost method Log(a: Action)
      requires View() == Exec(EMPTY, history + [a])
      modifies this`history
      ensures Valid() && history == old(history) + [a] && View() == old(View())
    {
      history := history + [a];
    }

    /** insert_plan: a plan id is bound to one immutable content. */
    method InsertPlan(plan: Plan) returns (r: Result<PlanHash>)
      requires Valid() && Intact(plan)
      modifies this
      ensures Valid() && history == old(history) + [StorePlan(plan)]
      ensures View() == Apply(old(View()), StorePlan(plan))
      ensures r.Ok? <==> plan.planId in plans && plans[plan.planId].plan == plan
    {
      if plan.planId !in plans { plans := plans[plan.planId := PlanRow(plan, false)]; }
      r := if plans[plan.planId].plan == plan then Ok(plan.planHash) else Err("plan id is bound to other content");
      OneMore(history, StorePlan(plan));
      Log(StorePlan(plan));
    }

    /** insert_confirmation for the ticket of a stored plan. */
    method RequestConfirmation(id: string, planId: string, planHash: PlanHash, expiresAt: int, key: Option<string>)
      returns (r: Result<Confirmation>)
      requires Valid() && PlanIs(plans, planId, planHash)
      modifies this
      ensures Valid() && history == old(history) + [Ticket(Request(id, planId, planHash, expiresAt, key))]
      ensures View() == Apply(old(View()), Ticket(Request(id, planId, planHash, expiresAt, key)))
      ensures r.Ok? <==> old(InsertConfirmation(confirmations, id, planId, planHash, expiresAt, key)).Ok?
      ensures r.Ok? ==> id in confirmations && confirmations[id] == r.value && id !in old(confirmations)
    {
      if id in confirmations {
        r := Err("confirmation id is already bound");
      } else if key.Some? && KeyUsed(confirmations, key.value) {
        r := Err("idempotency key is already bound");
      } else {
        var c := Confirmation(planId, planHash, AwaitingApproval, "", "", None, expiresAt, key);
        confirmations := confirmations[id := c];
        r := Ok(c);
      }
      OneMore(history, Ticket(Request(id, planId, planHash, expiresAt, key)));
      Log(Ticket(Request(id, planId, planHash, expiresAt, key)));
    }

    /** The shared transaction of approve_confirmation and reject_confirmation. */
    method UpdateConfirmation(id: string, decision: ConfirmationStatus, approver: string, channel: string, nonce: string,
                              expectedPlan: Option<string>, expectedHash: Option<PlanHash>) returns (r: Result<Confirmation>)
      modifies this`confirmations
      ensures var d := Decide(old(confirmations), id, decision, approver, channel, nonce, expectedPlan, expectedHash);
              && confirmations == AfterDecision(old(confirmations), d)
              && (r.Ok? <==> d.Ok?)
              && (r.Ok? ==> id in confirmations && r.value == confirmations[id])
    {
      if id !in confirmations { return Err("confirmation does not exist"); }
      var row := confirmations[id];
      if !row.status.AwaitingApproval? { return Err("only a pending confirmation can be decided"); }
      if expectedPlan.Some? && row.planId != expectedPlan.value { return Err("plan id differs from what was shown"); }
      if expectedHash.Some? && row.planHash != expectedHash.value { return Err("plan hash differs from what was shown"); }
      if NonceUsed(confirmations, nonce) { return Err("approval nonce was used"); }
      var updated := row.(status := decision, approvedBy := approver, channel := channel, nonce := Some(nonce));
      confirmations := confirmations[id := updated];
      return Ok(updated);
    }

    /** Approval after the identity verifier accepted a proof for this ticket, plan, hash and nonce. */
    method ApproveByProof(id: string, approver: string, nonce: string) returns (r: Result<Confirmation>)
      requires Valid() && id in confirmations
      modifies this
      ensures Valid() && history == old(history) + [Ticket(Protocol.ApproveByProof(id, approver, nonce))]
      ensures View() == Apply(old(View()), Ticket(Protocol.ApproveByProof(id, approver, nonce)))
      ensures r.Ok? <==> old(Decide(confirmations, id, Approved, approver, APPROVAL_PROOF, nonce,
                                    Some(confirmations[id].planId), Some(confirmations[id].planHash))).Ok?
      ensures r.Ok? ==> id in confirmations && r.value == confirmations[id]
    {
      ProofMore(history, id, approver, nonce);
      var row := confirmations[id];
      proofs := proofs + {Proof(id, row.planId, row.planHash, nonce)};
      r := UpdateConfirmation(id, Approved, approver, APPROVAL_PROOF, nonce, Some(row.planId), Some(row.planHash));
      Log(Ticket(Protocol.ApproveByProof(id, approver, nonce)));
    }

    /** ApprovalAdapter: any channel except the proof channel. */
    method ApproveByChannel(id: string, approver: string, channel: string, nonce: string) returns (r: Result<Confirmation>)
      requires Valid() && channel != APPROVAL_PROOF
      modifies this
      ensures Valid() && history == old(history) + [Ticket(Protocol.ApproveByChannel(id, approver, channel, nonce))]
      ensures View() == Apply(old(View()), Ticket(Protocol.ApproveByChannel(id, approver, channel, nonce)))
      ensures r.Ok? <==> Decide(old(confirmations), id, Approved, approver, channel, nonce, None, None).Ok?
    {
      r := UpdateConfirmation(id, Approved, approver, channel, nonce, None, None);
      OneMore(history, Ticket(Protocol.ApproveByChannel(id, approver, channel, nonce)));
      Log(Ticket(Protocol.ApproveByChannel(id, approver, channel, nonce)));
    }

    method Decline(id: string, approver: string, channel: string, nonce: string) returns (r: Result<Confirmation>)
      requires Valid()
      modifies this
      ensures Valid() && history == old(history) + [Ticket(Protocol.Decline(id, approver, channel, nonce))]
      ensures View() == Apply(old(View()), Ticket(Protocol.Decline(id, approver, channel, nonce)))
      ensures r.Ok? <==> Decide(old(confirmations), id, Declined, approver, channel, nonce, None, None).Ok?
    {
      r := UpdateConfirmation(id, Declined, approver, channel, nonce, None, None);
      OneMore(history, Ticket(Protocol.Decline(id, approver, channel, nonce)));
      Log(Ticket(Protocol.Decline(id, approver, channel, nonce)));
    }

    /** The insert loop of consume: None is the rollback. */
    method InsertIntents(rows: seq<Intent>) returns (inserted: Option<seq<Order>>)
      ensures inserted == InsertAll(orders, rows)
    {
      var work := orders;
      for i := 0 to |rows|
        invariant InsertAll(orders, rows) == InsertAll(work, rows[i..])
      {
        assert rows[i..][0] == rows[i] && rows[i..][1..] == rows[i + 1..];
        if !Insertable(work, rows[i]) { return None; }
        work := work + [Order(rows[i], [], {})];
      }
      return Some(work);
    }

    /** The BEGIN IMMEDIATE block of consume. */
    method ConsumeConfirmation(plan: Plan, id: string, shownPlan: string, now: int) returns (outcome: ConsumeOutcome)
      requires Valid() && Intact(plan)
      modifies this
      ensures Valid() && history == old(history) + [Ticket(Consume(plan, id, shownPlan, now))]
      ensures View() == Apply(old(View()), Ticket(Consume(plan, id, shownPlan, now)))
      ensures outcome == ConsumeTransaction(old(confirmations), old(orders), plan, id, shownPlan, now)
    {
      outcome := AttemptConsumption(plan, id, shownPlan, now);
      if outcome.Created? {
        orders, confirmations := outcome.orders, outcome.confirmations;
        if plan.planId in plans { plans := plans[plan.planId := plans[plan.planId].(consumed := true)]; }
      }
      OneMore(history, Ticket(Consume(plan, id, shownPlan, now)));
      Log(Ticket(Consume(plan, id, shownPlan, now)));
    }

    method AttemptConsumption(plan: Plan, id: string, shownPlan: string, now: int) returns (outcome: ConsumeOutcome)
      ensures outcome == ConsumeTransaction(confirmations, orders, plan, id, shownPlan, now)
    {
      if id !in confirmations || !confirmations[id].status.Approved? {
        return Refused("confirmation is consumed or not approved");
      }
      var row := confirmations[id];
      if row.planId != plan.planId || shownPlan != plan.planId { return Refused("confirmation is for another plan"); }
      if row.planHash != plan.planHash { return Refused("plan hash differs"); }
      if plan.mode.Live? && row.channel != APPROVAL_PROOF { return Refused("LIVE needs a verified approval proof"); }
      if Expired(row.expiresAt, now) { return Refused("confirmation expired"); }
      if Expired(plan.expiresAt, now) { return Refused("plan expired"); }
      if HasIntents(orders, plan.planId) { return AlreadyCreated; }
      var inserted := InsertIntents(IntentRows(plan.planId, id, Canonical(plan.orders)));
      if inserted.None? { return Refused("an order intent violates a constraint"); }
      return Created(confirmations[id := row.(status := Consumed)], inserted.value);
    }

    /** set_intent_status in execution/state.py: the guarded in-place update. */
    method UpdateStatus(i: nat, status: IntentStatus, brokerOrderId: string) returns (changed: bool)
      requires i < |orders|
      modifies this`orders
      ensures orders == old(orders)[i := SetOrderStatus(old(orders)[i], status, brokerOrderId)]
      ensures changed ==> orders[i].row.status == status
      ensures !changed ==> orders[i].row.status == old(orders)[i].row.status
    {
      var o := orders[i];
      var current := o.row.status;
      if Terminal(current) && status != current {
        if brokerOrderId != "" && o.row.brokerOrderId == "" {
          orders := orders[i := o.(row := o.row.(brokerOrderId := brokerOrderId))];
        }
        return false;
      }
      if current == status && brokerOrderId == "" { return false; }
      if brokerOrderId != "" {
        orders := orders[i := o.(row := o.row.(status := status, brokerOrderId := brokerOrderId))];
      } else {
        orders := orders[i := o.(row := o.row.(status := status))];
      }
      return true;
    }

    /** A submitting process takes an intent it read as PENDING. */
    method Claim(i: nat, plan: Plan, id: string)
      requires Valid() && progress.Idle?
      requires i < |orders| && orders[i].row.status.Pending? && Covers(View(), i, plan, id)
      modifies this
      ensures Valid() && history == old(history) + [Submit(Protocol.Claim(i, plan, id))]
      ensures View() == Apply(old(View()), Submit(Protocol.Claim(i, plan, id)))
      ensures progress == Claimed(i, plan)
      ensures orders == old(orders)[i := SetOrderStatus(old(orders)[i], Submitting, "")]
    {
      var _ := UpdateStatus(i, Submitting, "");
      progress := Claimed(i, plan);
      OneMore(history, Submit(Protocol.Claim(i, plan, id)));
      Log(Submit(Protocol.Claim(i, plan, id)));
    }

    /** UNKNOWN, written by recovery, polling, reconciliation or a failed submission. */
    method MarkUnknown(i: nat, brokerOrderId: string)
      requires Valid() && i < |orders|
      modifies this
      ensures Valid() && history == old(history) + [OnIntent(Protocol.MarkUnknown(i, brokerOrderId))]
      ensures View() == Apply(old(View()), OnIntent(Protocol.MarkUnknown(i, brokerOrderId)))
      ensures orders == old(orders)[i := SetOrderStatus(old(orders)[i], Unknown, brokerOrderId)]
    {
      var _ := UpdateStatus(i, Unknown, brokerOrderId);
      OneMore(history, OnIntent(Protocol.MarkUnknown(i, brokerOrderId)));
      Log(OnIntent(Protocol.MarkUnknown(i, brokerOrderId)));
    }

    /** The broker's ack is recorded; the submitting process is done with this intent. */
    method Acknowledge(i: nat, brokerOrderId: string)
      requires Valid() && i < |orders| && MayAcknowledge(View(), brokerOrderId) && progress.order == i
      modifies this
      ensures Valid() && history == old(history) + [Submit(Protocol.Acknowledge(brokerOrderId))]
      ensures View() == Apply(old(View()), Submit(Protocol.Acknowledge(brokerOrderId)))
      ensures progress.Idle?
      ensures orders == old(orders)[i := SetOrderStatus(old(orders)[i], Submitted, brokerOrderId)]
    {
      var _ := UpdateStatus(i, Submitted, brokerOrderId);
      progress := Idle;
      OneMore(history, Submit(Protocol.Acknowledge(brokerOrderId)));
      Log(Submit(Protocol.Acknowledge(brokerOrderId)));
    }

    /** The submitting process loses its place: an exception, or a crash and restart. Nothing is written. */
    ghost method Release()
      requires Valid()
      modifies this`progress, this`history
      ensures Valid() && history == old(history) + [Submit(Protocol.Release)]
      ensures View() == old(View()).(progress := Idle)
    {
      progress := Idle;
      ReleaseMore(history);
      Log(Submit(Protocol.Release));
    }

    /** The broker client is called for the claimed and funded intent. */
    ghost method RecordCall(ack: Option<string>)
      requires Valid() && MayCall(View())
      modifies this`progress, this`history, this`calls
      ensures Valid() && history == old(history) + [Submit(CallBroker(ack))]
      ensures View() == Apply(old(View()), Submit(CallBroker(ack)))
    {
      calls := calls + [CallFor(progress.order, CurrentRow(View()), progress.plan.account)];
      progress := Sent(progress.order, progress.plan, ack);
      OneMore(history, Submit(CallBroker(ack)));
      Log(Submit(CallBroker(ack)));
    }

    method CreateLiveCanary(account: string, symbols: set<string>, side: Side, maxNotional: real, maxOrders: int,
                            expiresAt: int, now: int) returns (r: Result<nat>)
      requires Valid()
      modifies this
      ensures Valid() && history == old(history)
                + [OnCanary(OpenCanary(account, symbols, side, maxNotional, maxOrders, expiresAt, now))]
      ensures View() == Apply(old(View()), OnCanary(OpenCanary(account, symbols, side, maxNotional, maxOrders, expiresAt, now)))
      ensures r.Ok? <==> ready && account != "" && symbols != {} && !side.OtherSide?
                         && maxNotional > 0.0 && maxOrders > 0 && expiresAt > now
      ensures r.Ok? ==> r.value == |old(canaries)| < |canaries| && canaries[r.value].status.Active?
      ensures r.Err? ==> canaries == old(canaries)
    {
      if !ready {
        r := Err("P0-A has not passed");
      } else if account == "" || symbols == {} || side.OtherSide? {
        r := Err("a canary needs an account, symbols and a side");
      } else if maxNotional <= 0.0 || maxOrders <= 0 || Expired(expiresAt, now) {
        r := Err("budget and expiry must be valid");
      } else {
        canaries := canaries + [Canary(account, symbols, side, maxNotional, maxOrders, expiresAt, 0.0, 0, Active)];
        r := Ok(|canaries| - 1);
      }
      OneMore(history, OnCanary(OpenCanary(account, symbols, side, maxNotional, maxOrders, expiresAt, now)));
      Log(OnCanary(OpenCanary(account, symbols, side, maxNotional, maxOrders, expiresAt, now)));
    }

    method CloseLiveCanaries(account: Option<string>, expiredAt: Option<int>, reason: CloseReason)
      requires Valid()
      modifies this
      ensures Valid() && history == old(history) + [OnCanary(CloseAccount(account, expiredAt, reason))]
      ensures View() == old(View()).(canaries := CloseCanaries(old(canaries), account, expiredAt, reason))
    {
      canaries := CloseCanaries(canaries, account, expiredAt, reason);
      CloseMore(history, account, expiredAt, reason);
      Log(OnCanary(CloseAccount(account, expiredAt, reason)));
    }

    /** The candidate loop of authorize_live_canary: close what is used up, stop at the first that fits. */
    method ScanCanaries(open: seq<Canary>, q: Reservation, now: int) returns (scanned: seq<Canary>, hit: Option<nat>)
      ensures (scanned, hit) == Scan(open, 0, q, now)
    {
      scanned := open;
      var k := 0;
      while k < |scanned|
        invariant k <= |scanned|
        invariant Scan(scanned, k, q, now) == Scan(open, 0, q, now)
        decreases |scanned| - k
      {
        var c := scanned[k];
        if Eligible(c, q, now) {
          if Exhausted(c) {
            scanned := scanned[k := c.(status := Closed(ExhaustionReason(c)))];
          } else if OverNotional(c, q) {
            scanned := scanned[k := c.(status := Closed(NotionalLimitReached))];
          } else {
            return scanned, Some(k);
          }
        }
        k := k + 1;
      }
      return scanned, None;
    }

    /** authorize_live_canary: one transaction that reserves budget for the claimed intent. */
    method AuthorizeLiveCanary(q: Reservation, now: int) returns (granted: Option<nat>)
      requires Valid() && MayFund(View())
      requires q == ReservationFor(CurrentRow(View()), progress.plan.account)
      modifies this
      ensures Valid() && history == old(history) + [Submit(Fund(now))]
      ensures View() == Apply(old(View()), Submit(Fund(now)))
      ensures granted == Reserve(old(canaries), old(usages), q, now).canary
    {
      granted := ReserveBudget(q, now);
      if granted.Some? { progress := Funded(progress.order, progress.plan); }
      OneMore(history, Submit(Fund(now)));
      Log(Submit(Fund(now)));
    }

    method ReserveBudget(q: Reservation, now: int) returns (granted: Option<nat>)
      modifies this`canaries, this`usages
      ensures Reserved(canaries, usages, granted) == Reserve(old(canaries), old(usages), q, now)
    {
      var prior := UsageIndex(usages, q.requestId);
      if prior.Some? { return Some(usages[prior.value].canary); }
      var open := CloseCanaries(canaries, Some(q.account), Some(now), CanaryExpired);
      ScanPromises(open, 0, q, now);
      canaries, granted := ScanCanaries(open, q, now);
      if granted.Some? {
        var k := granted.value;
        usages := usages + [Usage(k, q.requestId, q.planId, q.symbol, q.side, q.notional)];
        var c := canaries[k];
        c := c.(usedOrders := c.usedOrders + 1, usedNotional := c.usedNotional + q.notional);
        if Exhausted(c) { c := c.(status := Closed(ExhaustionReason(c))); }
        canaries := canaries[k := c];
      }
    }

    /** mark_system_readiness: the P0-A gate that canaries and LIVE execution ask for. */
    method MarkReadiness(pass: bool)
      requires Valid()
      modifies this
      ensures Valid() && history == old(history) + [SetReadiness(pass)]
      ensures View() == old(View()).(ready := pass)
    {
      ready := pass;
      ReadinessMore(history, pass);
      Log(SetReadiness(pass));
    }

    /** set_account_sync_status, in the core store. */
    method SetAccountSync(account: string, status: SyncStatus)
      requires Valid()
      modifies this
      ensures Valid() && history == old(history) + [SetSync(account, status)]
      ensures View() == old(View()).(sync := old(sync)[account := status])
    {
      sync := sync[account := status];
      SyncMore(history, account, status);
      Log(SetSync(account, status));
    }

    /** list_intents(plan_id), as row numbers in creation order. */
    method ListIntents(planId: string) returns (found: seq<nat>)
      ensures forall k :: 0 <= k < |found| ==> found[k] < |orders| && Listed(orders[found[k]], planId)
      ensures forall i :: 0 <= i < |orders| && Listed(orders[i], planId) ==> i in found
      ensures forall j, k :: 0 <= j < k < |found| ==> found[j] < found[k]
    {
      found := [];
      for i := 0 to |orders|
        invariant forall k :: 0 <= k < |found| ==> found[k] < i && Listed(orders[found[k]], planId)
        invariant forall n :: 0 <= n < i && Listed(orders[n], planId) ==> n in found
        invariant forall j, k :: 0 <= j < k < |found| ==> found[j] < found[k]
      {
        if Listed(orders[i], planId) { found := found + [i]; }
      }
    }
  }
}
