/** Data contracts of the execution layer (execution/models.py) and the rows the execution store keeps. */
module Models {

  /** Tolerance the source uses for quantities and notionals. */
  const EPS: real := 0.000000001

  /** The one approval channel that may carry a LIVE plan (execution/models.py:27). */
  const APPROVAL_PROOF: string := "approval-proof"

  datatype Option<+T> = None | Some(value: T)

  datatype Result<+T> = Ok(value: T) | Err(error: string)

  datatype Mode = DryRun | Paper | Live

  /** `OtherSide` stands for any text the source would refuse as a side. */
  datatype Side = Buy | Sell | OtherSide

  datatype OrderType = Market | Limit | OtherType

  datatype PlanOrder = PlanOrder(
    orderId: string, symbol: string, side: Side, quantity: real, orderType: OrderType,
    referencePrice: Option<real>, maxSlippageBps: real, strategyVersion: Option<int>)

  /** A collision-free digest: it is the content it covers. The plan id is not part of it. */
  datatype PlanHash = PlanHash(account: string, mode: Mode, orders: seq<PlanOrder>, expiresAt: int)

  datatype Plan = Plan(
    planId: string, account: string, mode: Mode, expiresAt: int, orders: seq<PlanOrder>, planHash: PlanHash)

  datatype ConfirmationStatus = AwaitingApproval | Approved | Consumed | Declined

  datatype Confirmation = Confirmation(
    planId: string, planHash: PlanHash, status: ConfirmationStatus, approvedBy: string,
    channel: string, nonce: Option<string>, expiresAt: int, idempotencyKey: Option<string>)

  function Min(a: real, b: real): real { if a <= b then a else b }

  function Max(a: real, b: real): real { if a >= b then a else b }

  function Abs(a: real): real { if a < 0.0 then -a else a }

  /** Text order, character by character, as the sort key of plan orders uses it. */
  predicate TextLe(a: string, b: string) {
    |a| == 0 || (|b| > 0 && (a[0] < b[0] || (a[0] == b[0] && TextLe(a[1..], b[1..]))))
  }

  function InsertSorted(o: PlanOrder, s: seq<PlanOrder>): seq<PlanOrder> {
    if |s| > 0 && !TextLe(o.orderId, s[0].orderId) then [s[0]] + InsertSorted(o, s[1..]) else [o] + s
  }

  /** Orders sorted by plan order id: the form that is hashed and the order intents are created in. */
  function Canonical(orders: seq<PlanOrder>): seq<PlanOrder> {
    if orders == [] then [] else InsertSorted(orders[0], Canonical(orders[1..]))
  }

  lemma {:induction false} InsertSortedKeeps(o: PlanOrder, s: seq<PlanOrder>)
    ensures multiset(InsertSorted(o, s)) == multiset(s) + multiset{o}
  {
    if |s| > 0 && !TextLe(o.orderId, s[0].orderId) {
      InsertSortedKeeps(o, s[1..]);
      assert s == [s[0]] + s[1..];
    } else {
      assert multiset([o] + s) == multiset([o]) + multiset(s);
    }
  }

  /** Sorting neither drops nor repeats an order. */
  lemma {:induction false} CanonicalKeeps(orders: seq<PlanOrder>)
    ensures multiset(Canonical(orders)) == multiset(orders)
  {
    if orders != [] {
      CanonicalKeeps(orders[1..]);
      InsertSortedKeeps(orders[0], Canonical(orders[1..]));
      assert orders == [orders[0]] + orders[1..];
    }
  }

  /** compute_plan_hash: covers account, mode, the sorted orders and the expiry. */
  function ComputePlanHash(account: string, mode: Mode, orders: seq<PlanOrder>, expiresAt: int): PlanHash {
    PlanHash(account, mode, Canonical(orders), expiresAt)
  }

  /** Whether the hash a plan object carries is the hash of its content. */
  predicate Intact(p: Plan) {
    p.planHash == ComputePlanHash(p.account, p.mode, p.orders, p.expiresAt)
  }

  /** Two intact plans with one hash agree on everything an approval is about. */
  lemma SameHashSameContent(p: Plan, q: Plan)
    requires Intact(p) && Intact(q) && p.planHash == q.planHash
    ensures p.account == q.account && p.mode == q.mode && p.expiresAt == q.expiresAt
    ensures multiset(p.orders) == multiset(q.orders)
  {
    CanonicalKeeps(p.orders);
    CanonicalKeeps(q.orders);
  }

  /** Expiry is inclusive: at the instant itself the plan or ticket is already dead. */
  predicate Expired(expiresAt: int, now: int) { expiresAt <= now }
}
