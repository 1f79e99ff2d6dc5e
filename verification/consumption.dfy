/** Confirmations and the atomic consumption of a plan (execution/order_manager.py, shared/db.py). */
module Consumption {
  import opened Models
  import opened IntentState

  type Confirmations = map<string, Confirmation>

  // ---- confirmation transactions ----

  predicate NonceUsed(cs: Confirmations, nonce: string) {
    exists id :: id in cs && cs[id].nonce == Some(nonce)
  }

  predicate KeyUsed(cs: Confirmations, key: string) {
    exists id :: id in cs && cs[id].idempotencyKey == Some(key)
  }

  /** insert_confirmation for a new PENDING ticket; an id or idempotency key is bound once. */
  function InsertConfirmation(cs: Confirmations, id: string, planId: string, planHash: PlanHash, expiresAt: int,
                              key: Option<string>): Result<Confirmations> {
    if id in cs then Err("confirmation id is already bound")
    else if key.Some? && KeyUsed(cs, key.value) then Err("idempotency key is already bound")
    else Ok(cs[id := Confirmation(planId, planHash, AwaitingApproval, "", "", None, expiresAt, key)])
  }

  /** approve_confirmation and reject_confirmation share everything but the resulting status. */
  function Decide(cs: Confirmations, id: string, decision: ConfirmationStatus, approver: string, channel: string,
                  nonce: string, expectedPlan: Option<string>, expectedHash: Option<PlanHash>): Result<Confirmations> {
    if id !in cs then Err("confirmation does not exist")
    else if !cs[id].status.AwaitingApproval? then Err("only a pending confirmation can be decided")
    else if expectedPlan.Some? && cs[id].planId != expectedPlan.value then Err("plan id differs from what was shown")
    else if expectedHash.Some? && cs[id].planHash != expectedHash.value then Err("plan hash differs from what was shown")
    else if NonceUsed(cs, nonce) then Err("approval nonce was used")
    else Ok(cs[id := cs[id].(status := decision, approvedBy := approver, channel := channel, nonce := Some(nonce))])
  }

  // ---- intents of a plan ----

  function RequestId(planId: string, orderId: string): string { "cr_" + planId + "_" + orderId }

  function NewIntent(o: PlanOrder, planId: string, confirmationId: string): Intent {
    Intent(RequestId(planId, o.orderId), planId, o.orderId, o.symbol, o.side, o.quantity, o.orderType,
           o.referencePrice, o.maxSlippageBps, o.strategyVersion, confirmationId, Pending, "")
  }

  function IntentRows(planId: string, confirmationId: string, orders: seq<PlanOrder>): (rows: seq<Intent>)
    ensures |rows| == |orders|
    ensures forall k :: 0 <= k < |orders| ==> rows[k] == NewIntent(orders[k], planId, confirmationId)
  {
    seq(|orders|, k requires 0 <= k < |orders| => NewIntent(orders[k], planId, confirmationId))
  }

  predicate KnownRequest(orders: seq<Order>, requestId: string) {
    exists i :: 0 <= i < |orders| && orders[i].row.requestId == requestId
  }

  /** What the UNIQUE constraints and the side check of insert_intent accept. */
  predicate Insertable(orders: seq<Order>, r: Intent) {
    && !r.side.OtherSide?
    && !KnownRequest(orders, r.requestId)
    && (forall i :: 0 <= i < |orders| ==> !(orders[i].row.planId == r.planId && orders[i].row.orderId == r.orderId))
  }

  function InsertAll(orders: seq<Order>, rows: seq<Intent>): Option<seq<Order>>
    decreases |rows|
  {
    if rows == [] then Some(orders)
    else if !Insertable(orders, rows[0]) then None
    else InsertAll(orders + [Order(rows[0], [], {})], rows[1..])
  }

  /** list_intents: an empty plan id lists every intent. */
  predicate HasIntents(orders: seq<Order>, planId: string) {
    exists i :: 0 <= i < |orders| && Listed(orders[i], planId)
  }

  predicate Listed(o: Order, planId: string) { planId == "" || o.row.planId == planId }

  datatype ConsumeOutcome =
    | Refused(error: string)
    | AlreadyCreated
    | Created(confirmations: Confirmations, orders: seq<Order>)

  /** The BEGIN IMMEDIATE block of OrderManager.consume: everything is re-read here, all or nothing is written.
      `shownPlan` is the plan id on the confirmation object the caller holds. */
  function ConsumeTransaction(cs: Confirmations, orders: seq<Order>, plan: Plan, id: string, shownPlan: string, now: int)
    : ConsumeOutcome
  {
    if id !in cs || !cs[id].status.Approved? then Refused("confirmation is consumed or not approved")
    else if cs[id].planId != plan.planId || shownPlan != plan.planId then Refused("confirmation is for another plan")
    else if cs[id].planHash != plan.planHash then Refused("plan hash differs")
    else if plan.mode.Live? && cs[id].channel != APPROVAL_PROOF then Refused("LIVE needs a verified approval proof")
    else if Expired(cs[id].expiresAt, now) then Refused("confirmation expired")
    else if Expired(plan.expiresAt, now) then Refused("plan expired")
    else if HasIntents(orders, plan.planId) then AlreadyCreated
    else
      match InsertAll(orders, IntentRows(plan.planId, id, Canonical(plan.orders)))
      case None => Refused("an order intent violates a constraint")
      case Some(orders') => Created(cs[id := cs[id].(status := Consumed)], orders')
  }

  // ---- what consumption promises ----

  /** The fixed terms of a plan's intents, in creation order. */
  function PlanTerms(orders: seq<Order>, planId: string): seq<Intent> {
    if orders == [] then []
    else
      var last := orders[|orders| - 1].row;
      PlanTerms(orders[..|orders| - 1], planId) + if last.planId == planId then [Terms(last)] else []
  }

  ghost predicate UniqueRequests(orders: seq<Order>) {
    forall i, j :: 0 <= i < j < |orders| ==> orders[i].row.requestId != orders[j].row.requestId
  }

  ghost predicate UniqueNonces(cs: Confirmations) {
    forall a, b :: a in cs && b in cs && cs[a].nonce.Some? && cs[a].nonce == cs[b].nonce ==> a == b
  }

  /** Every intent belongs to a consumed confirmation of its plan. */
  ghost predicate IntentsAreConsumed(cs: Confirmations, orders: seq<Order>) {
    forall i :: 0 <= i < |orders| ==>
      var r := orders[i].row;
      r.confirmationId in cs && cs[r.confirmationId].status.Consumed?
      && cs[r.confirmationId].planId == r.planId && cs[r.confirmationId].planHash.orders != []
  }

  /** A consumed confirmation of a non-empty plan has created exactly the intents it approved. */
  ghost predicate ConsumedExactly(cs: Confirmations, orders: seq<Order>) {
    forall id :: id in cs && cs[id].status.Consumed? && cs[id].planHash.orders != [] ==>
      PlanTerms(orders, cs[id].planId) == IntentRows(cs[id].planId, id, cs[id].planHash.orders)
  }

  ghost predicate LiveNeedsProof(cs: Confirmations) {
    forall id :: id in cs && cs[id].status.Consumed? && cs[id].planHash.mode.Live? ==> cs[id].channel == APPROVAL_PROOF
  }

  ghost predicate BooksOfPlans(cs: Confirmations, orders: seq<Order>) {
    && UniqueRequests(orders) && UniqueNonces(cs) && IntentsAreConsumed(cs, orders)
    && ConsumedExactly(cs, orders) && LiveNeedsProof(cs)
  }

  lemma {:induction false} PlanTermsOfNone(orders: seq<Order>, planId: string)
    ensures PlanTerms(orders, planId) == [] <==> forall i :: 0 <= i < |orders| ==> orders[i].row.planId != planId
  {
    if orders != [] {
      var before, last := orders[..|orders| - 1], orders[|orders| - 1];
      PlanTermsOfNone(before, planId);
      assert orders == before + [last];
    }
  }

  /** A change that keeps an intent's terms is invisible here. */
  lemma {:induction false} PlanTermsUpdate(orders: seq<Order>, i: nat, o: Order, planId: string)
    requires i < |orders| && Terms(o.row) == Terms(orders[i].row)
    ensures PlanTerms(orders[i := o], planId) == PlanTerms(orders, planId)
  {
    var n := |orders| - 1;
    if i == n {
      assert orders[i := o][..n] == orders[..n];
    } else {
      assert orders[i := o][..n] == orders[..n][i := o];
      PlanTermsUpdate(orders[..n], i, o, planId);
    }
    assert orders[n].row.planId == Terms(orders[n].row).planId;
  }

  ghost predicate RequestIdsDerived(orders: seq<Order>) {
    forall i :: 0 <= i < |orders| ==>
      orders[i].row.requestId == RequestId(orders[i].row.planId, orders[i].row.orderId)
  }

  /** A batch that goes in extends the table by its rows, in order, with no fills. */
  lemma {:induction false} InsertAllAppends(orders: seq<Order>, rows: seq<Intent>)
    ensures InsertAll(orders, rows).Some? ==>
              var r := InsertAll(orders, rows).value;
              && orders <= r && |r| == |orders| + |rows|
              && (forall k :: 0 <= k < |rows| ==> r[|orders| + k] == Order(rows[k], [], {}))
              && (UniqueRequests(orders) ==> UniqueRequests(r))
    decreases |rows|
  {
    if rows != [] && Insertable(orders, rows[0]) {
      InsertAllAppends(orders + [Order(rows[0], [], {})], rows[1..]);
    }
  }

  lemma InsertableByRequest(orders: seq<Order>, r: Intent)
    requires RequestIdsDerived(orders) && r.requestId == RequestId(r.planId, r.orderId)
    ensures Insertable(orders, r) <==> !r.side.OtherSide? && !KnownRequest(orders, r.requestId)
  {
    forall i | 0 <= i < |orders| && orders[i].row.planId == r.planId && orders[i].row.orderId == r.orderId
      ensures KnownRequest(orders, r.requestId)
    {
      assert orders[i].row.requestId == r.requestId;
    }
  }

  predicate DistinctRequests(rows: seq<Intent>) {
    forall j, k :: 0 <= j < k < |rows| ==> rows[j].requestId != rows[k].requestId
  }

  /** The batch goes in exactly when every side is legal and no request id is taken twice. */
  lemma {:induction false} InsertAllExactly(orders: seq<Order>, rows: seq<Intent>)
    requires RequestIdsDerived(orders)
    requires forall k :: 0 <= k < |rows| ==> rows[k].requestId == RequestId(rows[k].planId, rows[k].orderId)
    ensures InsertAll(orders, rows).Some? <==>
            && (forall k :: 0 <= k < |rows| ==> !rows[k].side.OtherSide? && !KnownRequest(orders, rows[k].requestId))
            && DistinctRequests(rows)
    decreases |rows|
  {
    if rows != [] {
      InsertableByRequest(orders, rows[0]);
      var rest := rows[1..];
      assert forall k :: 0 <= k < |rest| ==> rest[k] == rows[k + 1];
      if Insertable(orders, rows[0]) {
        var next := orders + [Order(rows[0], [], {})];
        InsertAllExactly(next, rest);
        forall id ensures KnownRequest(next, id) <==> KnownRequest(orders, id) || id == rows[0].requestId {
          if KnownRequest(orders, id) {
            var i :| 0 <= i < |orders| && orders[i].row.requestId == id;
            assert next[i].row.requestId == id;
          }
          assert next[|orders|].row == rows[0];
        }
        if InsertAll(next, rest).Some? {
          forall j, k | 0 <= j < k < |rows| ensures rows[j].requestId != rows[k].requestId {
            assert rows[k] == rest[k - 1];
            if j > 0 { assert rows[j] == rest[j - 1]; }
          }
        } else if DistinctRequests(rows) {
          assert DistinctRequests(rest);
          var k :| 0 <= k < |rest| && !(!rest[k].side.OtherSide? && !KnownRequest(next, rest[k].requestId));
          assert rows[k + 1] == rest[k];
        }
      }
    }
  }

  lemma {:induction false} PlanTermsAppendAll(orders: seq<Order>, all: seq<Order>, rows: seq<Intent>, planId: string)
    requires orders <= all && |all| == |orders| + |rows|
    requires forall k :: 0 <= k < |rows| ==> all[|orders| + k] == Order(rows[k], [], {})
    requires forall k :: 0 <= k < |rows| ==> Terms(rows[k]) == rows[k]
    requires forall k :: 0 <= k < |rows| ==> rows[k].planId == rows[0].planId
    ensures PlanTerms(all, planId)
            == PlanTerms(orders, planId) + if rows != [] && rows[0].planId == planId then rows else []
    decreases |rows|
  {
    if rows == [] {
      assert all == orders;
    } else {
      var n := |rows| - 1;
      PlanTermsAppendAll(orders, all[..|all| - 1], rows[..n], planId);
      assert rows == rows[..n] + [rows[n]];
      assert all[|all| - 1] == Order(rows[n], [], {});
    }
  }

  lemma {:induction false} NewIntentsAreConsumed(
      cs: Confirmations, orders: seq<Order>, id: string, all: seq<Order>, rows: seq<Intent>)
    requires IntentsAreConsumed(cs, orders) && id in cs && cs[id].status.Approved?
    requires orders <= all && |all| == |orders| + |rows|
    requires rows == IntentRows(cs[id].planId, id, cs[id].planHash.orders)
    requires forall k :: 0 <= k < |rows| ==> all[|orders| + k] == Order(rows[k], [], {})
    ensures IntentsAreConsumed(cs[id := cs[id].(status := Consumed)], all)
  {
    forall i | 0 <= i < |all|
      ensures i < |orders| ==> all[i] == orders[i] && all[i].row.confirmationId != id
      ensures i >= |orders| ==> all[i].row == rows[i - |orders|]
    {
      if i >= |orders| { assert all[|orders| + (i - |orders|)] == Order(rows[i - |orders|], [], {}); }
    }
  }

  lemma {:induction false} NewIntentsAreExact(
      cs: Confirmations, orders: seq<Order>, id: string, all: seq<Order>, rows: seq<Intent>)
    requires ConsumedExactly(cs, orders) && id in cs && cs[id].status.Approved?
    requires orders <= all && |all| == |orders| + |rows|
    requires rows == IntentRows(cs[id].planId, id, cs[id].planHash.orders)
    requires forall k :: 0 <= k < |rows| ==> all[|orders| + k] == Order(rows[k], [], {})
    requires PlanTerms(orders, cs[id].planId) == []
    ensures ConsumedExactly(cs[id := cs[id].(status := Consumed)], all)
  {
    var cs' := cs[id := cs[id].(status := Consumed)];
    forall c | c in cs' && cs'[c].status.Consumed? && cs'[c].planHash.orders != []
      ensures PlanTerms(all, cs'[c].planId) == IntentRows(cs'[c].planId, c, cs'[c].planHash.orders)
    {
      PlanTermsAppendAll(orders, all, rows, cs'[c].planId);
      if c != id {
        assert PlanTerms(orders, cs[c].planId) == IntentRows(cs[c].planId, c, cs[c].planHash.orders);
        assert |PlanTerms(orders, cs[c].planId)| > 0;
      }
    }
  }

  lemma {:induction false} NewTermsAreRows(orders: seq<Order>, all: seq<Order>, rows: seq<Intent>, planId: string)
    requires orders <= all && |all| == |orders| + |rows|
    requires forall k :: 0 <= k < |rows| ==> all[|orders| + k] == Order(rows[k], [], {})
    requires forall k :: 0 <= k < |rows| ==> Terms(rows[k]) == rows[k] && rows[k].planId == planId
    requires PlanTerms(orders, planId) == []
    ensures PlanTerms(all, planId) == rows
  {
    PlanTermsAppendAll(orders, all, rows, planId);
  }

  lemma {:induction false} NewIntentsKeepBooks(
      cs: Confirmations, orders: seq<Order>, id: string, all: seq<Order>, rows: seq<Intent>)
    requires BooksOfPlans(cs, orders) && id in cs && cs[id].status.Approved?
    requires rows == IntentRows(cs[id].planId, id, cs[id].planHash.orders)
    requires InsertAll(orders, rows) == Some(all)
    requires cs[id].planHash.mode.Live? ==> cs[id].channel == APPROVAL_PROOF
    requires PlanTerms(orders, cs[id].planId) == []
    ensures BooksOfPlans(cs[id := cs[id].(status := Consumed)], all)
    ensures PlanTerms(all, cs[id].planId) == rows
  {
    InsertAllAppends(orders, rows);
    NewTermsAreRows(orders, all, rows, cs[id].planId);
    NewIntentsAreConsumed(cs, orders, id, all, rows);
    NewIntentsAreExact(cs, orders, id, all, rows);
    ConsumingKeepsTickets(cs, id);
  }

  lemma {:induction false} ConsumingKeepsTickets(cs: Confirmations, id: string)
    requires UniqueNonces(cs) && LiveNeedsProof(cs) && id in cs
    requires cs[id].planHash.mode.Live? ==> cs[id].channel == APPROVAL_PROOF
    ensures var cs' := cs[id := cs[id].(status := Consumed)]; UniqueNonces(cs') && LiveNeedsProof(cs')
  {
  }

  /** Consumption is exact: it creates the approved intents once, marks one confirmation, and keeps the books. */
  lemma {:induction false} ConsumeKeepsBooks(
      cs: Confirmations, orders: seq<Order>, plan: Plan, id: string, shownPlan: string, now: int)
    requires BooksOfPlans(cs, orders) && Intact(plan)
    ensures var r := ConsumeTransaction(cs, orders, plan, id, shownPlan, now);
            r.Created? ==>
              && BooksOfPlans(r.confirmations, r.orders)
              && PlanTerms(r.orders, plan.planId) == IntentRows(plan.planId, id, Canonical(plan.orders))
  {
    var r := ConsumeTransaction(cs, orders, plan, id, shownPlan, now);
    if r.Created? {
      assert forall i :: 0 <= i < |orders| ==> !Listed(orders[i], plan.planId);
      PlanTermsOfNone(orders, plan.planId);
      NewIntentsKeepBooks(cs, orders, id, r.orders, IntentRows(plan.planId, id, Canonical(plan.orders)));
    }
  }

  /** Consequence of the books: a plan has no intents, or exactly those of one consumed confirmation. */
  lemma {:induction false} AbsentOrComplete(cs: Confirmations, orders: seq<Order>, planId: string)
    requires BooksOfPlans(cs, orders)
    ensures PlanTerms(orders, planId) == [] ||
            exists id :: id in cs && cs[id].status.Consumed? && cs[id].planId == planId
                         && PlanTerms(orders, planId) == IntentRows(planId, id, cs[id].planHash.orders)
  {
    PlanTermsOfNone(orders, planId);
    if PlanTerms(orders, planId) != [] {
      var i :| 0 <= i < |orders| && orders[i].row.planId == planId;
      assert orders[i].row.confirmationId in cs;
    }
  }

  /** A non-empty plan is never consumed twice. */
  lemma {:induction false} ConsumedOnce(cs: Confirmations, orders: seq<Order>, a: string, b: string)
    requires BooksOfPlans(cs, orders) && a in cs && b in cs
    requires cs[a].status.Consumed? && cs[b].status.Consumed? && cs[a].planId == cs[b].planId
    requires cs[a].planHash.orders != [] && cs[b].planHash.orders != []
    ensures a == b
  {
    var ra := IntentRows(cs[a].planId, a, cs[a].planHash.orders);
    var rb := IntentRows(cs[b].planId, b, cs[b].planHash.orders);
    assert ra[0] == rb[0];
  }

  /** Plan id `q` is `p` cut at an underscore, and the order id `b` starts with what was cut off. */
  predicate CutsAt(p: string, a: string, q: string, b: string) {
    q + "_" <= p && b == p[|q| + 1..] + "_" + a
  }

  lemma PlanIdIsPrefix(planId: string, orderId: string)
    ensures var id := RequestId(planId, orderId);
            |id| == |planId| + |orderId| + 4 && id[3..|planId| + 3] == planId && id[|planId| + 3] == '_'
            && id[|planId| + 4..] == orderId
  {
  }

  lemma LongerPlanClashes(p: string, a: string, q: string, b: string)
    requires |q| < |p|
    ensures RequestId(p, a) == RequestId(q, b) <==> CutsAt(p, a, q, b)
  {
    var x, y := RequestId(p, a), RequestId(q, b);
    PlanIdIsPrefix(p, a);
    PlanIdIsPrefix(q, b);
    if x == y {
      assert forall k :: 0 <= k < |p| ==> p[k] == x[k + 3];
      assert forall k :: 0 <= k < |q| ==> q[k] == y[k + 3];
      assert p[|q|] == '_' && q + "_" == p[..|q| + 1];
      assert b == x[|q| + 4..] == p[|q| + 1..] + "_" + a;
    }
    if CutsAt(p, a, q, b) {
      var cut := p[|q| + 1..];
      assert p == q + "_" + cut;
      assert "cr_" + (q + "_" + cut) + "_" + a == "cr_" + q + "_" + (cut + "_" + a);
    }
  }

  /** Exactly when two orders share a client request id: they are one order, or one plan id is the other cut at an
      underscore and the order id carries the rest. The second plan is then refused as a whole. */
  lemma RequestIdsClash(p: string, a: string, q: string, b: string)
    ensures RequestId(p, a) == RequestId(q, b) <==>
            (p == q && a == b) || CutsAt(p, a, q, b) || CutsAt(q, b, p, a)
  {
    if |q| < |p| {
      LongerPlanClashes(p, a, q, b);
    } else if |p| < |q| {
      LongerPlanClashes(q, b, p, a);
    } else {
      PlanIdIsPrefix(p, a);
      PlanIdIsPrefix(q, b);
    }
  }

  /** Plan ids of one length never clash. */
  lemma EqualLengthPlansNeverClash(p: string, a: string, q: string, b: string)
    requires |p| == |q|
    ensures RequestId(p, a) == RequestId(q, b) <==> p == q && a == b
  {
    RequestIdsClash(p, a, q, b);
  }

  /** The plan ids both planners make: "plan_" and hexadecimal digits. */
  predicate Planned(planId: string) { "plan_" <= planId && '_' !in planId[5..] }

  lemma CutKeepsUnderscore(p: string, q: string)
    requires |q| >= 5 && q + "_" <= p
    ensures '_' in p[5..]
  {
    assert p[5..][|q| - 5] == (q + "_")[|q|];
  }

  /** Plan ids the planners make never clash, whatever their lengths and the order ids. */
  lemma PlannedOrdersNeverClash(p: string, a: string, q: string, b: string)
    requires Planned(p) && Planned(q)
    ensures RequestId(p, a) == RequestId(q, b) <==> p == q && a == b
  {
    RequestIdsClash(p, a, q, b);
    if CutsAt(p, a, q, b) { CutKeepsUnderscore(p, q); }
    if CutsAt(q, b, p, a) { CutKeepsUnderscore(q, p); }
  }

  lemma {:induction false} DecideKeepsBooks(
      cs: Confirmations, orders: seq<Order>, id: string, decision: ConfirmationStatus, approver: string, channel: string,
      nonce: string, plan: Option<string>, hash: Option<PlanHash>)
    requires BooksOfPlans(cs, orders) && !decision.Consumed?
    ensures var r := Decide(cs, id, decision, approver, channel, nonce, plan, hash);
            r.Ok? ==> BooksOfPlans(r.value, orders)
  {
  }

  lemma {:induction false} InsertConfirmationKeepsBooks(
      cs: Confirmations, orders: seq<Order>, id: string, planId: string, planHash: PlanHash, expiresAt: int,
      key: Option<string>)
    requires BooksOfPlans(cs, orders)
    ensures var r := InsertConfirmation(cs, id, planId, planHash, expiresAt, key);
            r.Ok? ==> BooksOfPlans(r.value, orders)
  {
  }

  /** An intent may evolve in any way that keeps its terms. */
  lemma {:induction false} EvolvingKeepsBooks(cs: Confirmations, orders: seq<Order>, i: nat, o: Order)
    requires BooksOfPlans(cs, orders) && i < |orders| && Terms(o.row) == Terms(orders[i].row)
    ensures BooksOfPlans(cs, orders[i := o])
  {
    var orders' := orders[i := o];
    assert o.row.requestId == Terms(o.row).requestId && o.row.planId == Terms(o.row).planId
           && o.row.confirmationId == Terms(o.row).confirmationId;
    forall id | id in cs && cs[id].status.Consumed? && cs[id].planHash.orders != []
      ensures PlanTerms(orders', cs[id].planId) == IntentRows(cs[id].planId, id, cs[id].planHash.orders)
    {
      PlanTermsUpdate(orders, i, o, cs[id].planId);
    }
  }
}
