/** LIVE canaries: explicit, tightly capped unlock records (shared/db.py). A canary is named by its row number. */
module CanaryBudget {
  import opened Models

  datatype CloseReason =
    | CanaryExpired | LimitsReached | OrderLimitReached | NotionalLimitReached
    | OrderIntentUnknown | SubmitUnknown | AccountNotSynced | ReconciliationMismatch | PretradeMismatch

  datatype CanaryStatus = Active | Closed(reason: CloseReason)

  datatype Canary = Canary(
    account: string, symbols: set<string>, side: Side, maxNotional: real, maxOrders: int, expiresAt: int,
    usedNotional: real, usedOrders: int, status: CanaryStatus)

  /** A row of live_canary_usage: what one request reserved, and from which canary. */
  datatype Usage = Usage(canary: nat, requestId: string, planId: string, symbol: string, side: Side, notional: real)

  datatype Reservation = Reservation(
    account: string, planId: string, requestId: string, symbol: string, side: Side, notional: real)

  predicate OrdersExhausted(c: Canary) { c.usedOrders >= c.maxOrders }

  predicate NotionalExhausted(c: Canary) { c.usedNotional >= c.maxNotional - EPS }

  predicate Exhausted(c: Canary) { OrdersExhausted(c) || NotionalExhausted(c) }

  function ExhaustionReason(c: Canary): CloseReason {
    if OrdersExhausted(c) && NotionalExhausted(c) then LimitsReached
    else if OrdersExhausted(c) then OrderLimitReached
    else NotionalLimitReached
  }

  /** The rows an UPDATE ... SET status='CLOSED' selects. */
  predicate Selected(c: Canary, account: Option<string>, expiredAt: Option<int>) {
    && c.status.Active?
    && (account.Some? ==> c.account == account.value)
    && (expiredAt.Some? ==> Expired(c.expiresAt, expiredAt.value))
  }

  /** _close_live_canaries_locked, over an account and optionally only what has expired. */
  function CloseCanaries(cs: seq<Canary>, account: Option<string>, expiredAt: Option<int>, reason: CloseReason)
    : (r: seq<Canary>)
    ensures |r| == |cs|
    ensures forall k :: 0 <= k < |cs| ==>
              r[k] == if Selected(cs[k], account, expiredAt) then cs[k].(status := Closed(reason)) else cs[k]
  {
    if cs == [] then []
    else
      [if Selected(cs[0], account, expiredAt) then cs[0].(status := Closed(reason)) else cs[0]]
      + CloseCanaries(cs[1..], account, expiredAt, reason)
  }

  /** The rows an authorisation looks at. */
  predicate Eligible(c: Canary, q: Reservation, now: int) {
    c.account == q.account && c.side == q.side && c.status.Active? && c.expiresAt >= now && q.symbol in c.symbols
  }

  predicate OverNotional(c: Canary, q: Reservation) { c.usedNotional + q.notional > c.maxNotional + EPS }

  /** The authorisation loop from row k on: close what cannot serve the request, stop at the first that can. */
  function Scan(cs: seq<Canary>, k: nat, q: Reservation, now: int): (seq<Canary>, Option<nat>)
    requires k <= |cs|
    decreases |cs| - k
  {
    if k == |cs| then (cs, None)
    else if !Eligible(cs[k], q, now) then Scan(cs, k + 1, q, now)
    else if Exhausted(cs[k]) then
      Scan(cs[k := cs[k].(status := Closed(ExhaustionReason(cs[k])))], k + 1, q, now)
    else if OverNotional(cs[k], q) then
      Scan(cs[k := cs[k].(status := Closed(NotionalLimitReached))], k + 1, q, now)
    else (cs, Some(k))
  }

  /** Charge a canary; one that is used up closes in the same transaction. */
  function Charge(c: Canary, notional: real): Canary {
    var charged := c.(usedOrders := c.usedOrders + 1, usedNotional := c.usedNotional + notional);
    if Exhausted(charged) then charged.(status := Closed(ExhaustionReason(charged))) else charged
  }

  function UsageIndex(us: seq<Usage>, requestId: string): (r: Option<nat>)
    ensures r.Some? ==> r.value < |us| && us[r.value].requestId == requestId
    ensures r.None? ==> forall k :: 0 <= k < |us| ==> us[k].requestId != requestId
  {
    if us == [] then None
    else if us[|us| - 1].requestId == requestId then Some(|us| - 1)
    else UsageIndex(us[..|us| - 1], requestId)
  }

  datatype Reserved = Reserved(canaries: seq<Canary>, usages: seq<Usage>, canary: Option<nat>)

  /** authorize_live_canary as one transaction. A refusal still commits the closures it made. */
  function Reserve(cs: seq<Canary>, us: seq<Usage>, q: Reservation, now: int): Reserved {
    var prior := UsageIndex(us, q.requestId);
    if prior.Some? then Reserved(cs, us, Some(us[prior.value].canary))
    else
      var (scanned, hit) := Scan(CloseCanaries(cs, Some(q.account), Some(now), CanaryExpired), 0, q, now);
      match hit
      case None => Reserved(scanned, us, None)
      case Some(k) =>
        if k < |scanned| then
          Reserved(scanned[k := Charge(scanned[k], q.notional)],
                   us + [Usage(k, q.requestId, q.planId, q.symbol, q.side, q.notional)], hit)
        else Reserved(scanned, us, None)
  }

  // ---- what reservations promise ----

  function UseCount(us: seq<Usage>, k: nat): int {
    if us == [] then 0 else UseCount(us[..|us| - 1], k) + if us[|us| - 1].canary == k then 1 else 0
  }

  function UseSum(us: seq<Usage>, k: nat): real {
    if us == [] then 0.0 else UseSum(us[..|us| - 1], k) + if us[|us| - 1].canary == k then us[|us| - 1].notional else 0.0
  }

  function TotalNotional(us: seq<Usage>): real {
    if us == [] then 0.0 else TotalNotional(us[..|us| - 1]) + us[|us| - 1].notional
  }

  function TotalUsed(cs: seq<Canary>): real {
    if cs == [] then 0.0 else TotalUsed(cs[..|cs| - 1]) + cs[|cs| - 1].usedNotional
  }

  /** The sum of all caps, with one EPS of slack for each canary. */
  function TotalCap(cs: seq<Canary>): real {
    if cs == [] then 0.0 else TotalCap(cs[..|cs| - 1]) + cs[|cs| - 1].maxNotional + EPS
  }

  /** One canary's counters agree with the usage rows and lie within its caps. */
  ghost predicate CanaryWithin(c: Canary, us: seq<Usage>, k: nat) {
    c.usedOrders == UseCount(us, k) <= c.maxOrders && c.usedNotional == UseSum(us, k) <= c.maxNotional + EPS
  }

  /** Counters equal the usage rows, and no canary is over its caps. */
  ghost predicate WithinBudget(cs: seq<Canary>, us: seq<Usage>) {
    && (forall k :: 0 <= k < |cs| ==> CanaryWithin(cs[k], us, k))
    && (forall j :: 0 <= j < |us| ==> us[j].canary < |cs| && us[j].notional > 0.0)
    && TotalUsed(cs) == TotalNotional(us)
  }

  /** Nothing but the counters and the status of a canary ever changes, and closing is final. */
  ghost predicate OnlyConsumed(cs: seq<Canary>, cs': seq<Canary>) {
    && |cs| == |cs'|
    && forall k :: 0 <= k < |cs| ==>
         && cs'[k].(usedNotional := cs[k].usedNotional, usedOrders := cs[k].usedOrders, status := cs[k].status) == cs[k]
         && (cs[k].status.Closed? ==> cs'[k] == cs[k])
  }

  ghost predicate SameCounters(cs: seq<Canary>, cs': seq<Canary>) {
    && OnlyConsumed(cs, cs')
    && forall k :: 0 <= k < |cs| ==>
         cs'[k].usedNotional == cs[k].usedNotional && cs'[k].usedOrders == cs[k].usedOrders
  }

  /** A canary that can serve the request at this instant. */
  predicate Fits(c: Canary, q: Reservation, now: int) {
    && c.account == q.account && c.side == q.side && c.status.Active? && !Expired(c.expiresAt, now)
    && q.symbol in c.symbols && !Exhausted(c) && !OverNotional(c, q)
  }

  predicate NoneActive(cs: seq<Canary>, account: string) {
    forall k :: 0 <= k < |cs| && cs[k].account == account ==> !cs[k].status.Active?
  }

  lemma {:induction false} TotalUsedDiffers(cs: seq<Canary>, cs': seq<Canary>, k: nat, extra: real)
    requires |cs| == |cs'|
    requires forall j :: 0 <= j < |cs| ==> cs'[j].usedNotional == cs[j].usedNotional + if j == k then extra else 0.0
    ensures TotalUsed(cs') == TotalUsed(cs) + if k < |cs| then extra else 0.0
  {
    if cs != [] {
      TotalUsedDiffers(cs[..|cs| - 1], cs'[..|cs| - 1], k, extra);
    }
  }

  lemma {:induction false} TotalUsedFits(cs: seq<Canary>)
    requires forall k :: 0 <= k < |cs| ==> cs[k].usedNotional <= cs[k].maxNotional + EPS
    ensures TotalUsed(cs) <= TotalCap(cs)
  {
    if cs != [] { TotalUsedFits(cs[..|cs| - 1]); }
  }

  lemma {:induction false} UnusedCanary(us: seq<Usage>, k: nat)
    requires forall j :: 0 <= j < |us| ==> us[j].canary < k
    ensures UseCount(us, k) == 0 && UseSum(us, k) == 0.0
  {
    if us != [] { UnusedCanary(us[..|us| - 1], k); }
  }

  lemma {:induction false} ScanPromises(cs: seq<Canary>, k: nat, q: Reservation, now: int)
    requires k <= |cs|
    ensures var (cs', hit) := Scan(cs, k, q, now);
            && SameCounters(cs, cs')
            && (forall j :: 0 <= j < |cs| ==> cs'[j].status == cs[j].status || Eligible(cs[j], q, now))
            && (hit.Some? ==> k <= hit.value < |cs| && cs'[hit.value] == cs[hit.value] && Serves(cs[hit.value], q, now))
            && (forall j :: k <= j < |cs| && (hit.Some? ==> j < hit.value) ==> !Serves(cs[j], q, now))
    decreases |cs| - k
  {
    if k < |cs| {
      if !Eligible(cs[k], q, now) {
        ScanPromises(cs, k + 1, q, now);
      } else if Exhausted(cs[k]) {
        ScanPromises(cs[k := cs[k].(status := Closed(ExhaustionReason(cs[k])))], k + 1, q, now);
      } else if OverNotional(cs[k], q) {
        ScanPromises(cs[k := cs[k].(status := Closed(NotionalLimitReached))], k + 1, q, now);
      }
    }
  }

  /** After closing what has expired, the loop finds the first canary that fits. */
  lemma {:induction false} FirstFitIsFound(cs: seq<Canary>, q: Reservation, now: int)
    ensures var (scanned, hit) := Scan(CloseCanaries(cs, Some(q.account), Some(now), CanaryExpired), 0, q, now);
            && SameCounters(cs, scanned)
            && (hit.Some? <==> exists k :: 0 <= k < |cs| && Fits(cs[k], q, now))
            && (hit.Some? ==>
                  && hit.value < |cs| && Fits(cs[hit.value], q, now) && scanned[hit.value] == cs[hit.value]
                  && forall j :: 0 <= j < hit.value ==> !Fits(cs[j], q, now))
  {
    var open := CloseCanaries(cs, Some(q.account), Some(now), CanaryExpired);
    ScanPromises(open, 0, q, now);
    forall j | 0 <= j < |cs| ensures Fits(cs[j], q, now) <==> Serves(open[j], q, now) {
      FitsWhenOpen(cs[j], open[j], q, now);
    }
  }

  /** A fresh request is granted exactly when some canary fits it, and then the first such canary pays. */
  lemma ReserveGrantsFirstFit(cs: seq<Canary>, us: seq<Usage>, q: Reservation, now: int)
    requires forall j :: 0 <= j < |us| ==> us[j].requestId != q.requestId
    ensures var r := Reserve(cs, us, q, now);
            && OnlyConsumed(cs, r.canaries)
            && (r.canary.Some? <==> exists k :: 0 <= k < |cs| && Fits(cs[k], q, now))
            && (r.canary.Some? ==>
                  var k := r.canary.value;
                  && k < |cs| && Fits(cs[k], q, now)
                  && (forall j :: 0 <= j < k ==> !Fits(cs[j], q, now))
                  && r.canaries[k] == Charge(cs[k], q.notional)
                  && r.usages == us + [Usage(k, q.requestId, q.planId, q.symbol, q.side, q.notional)]
                  && forall j :: 0 <= j < |cs| && j != k ==>
                       r.canaries[j].usedNotional == cs[j].usedNotional && r.canaries[j].usedOrders == cs[j].usedOrders)
            && (r.canary.None? ==> r.usages == us && SameCounters(cs, r.canaries))
  {
    FirstFitIsFound(cs, q, now);
    var (scanned, hit) := Scan(CloseCanaries(cs, Some(q.account), Some(now), CanaryExpired), 0, q, now);
    if hit.Some? { OnePays(cs, scanned, hit.value, q.notional); }
  }

  lemma {:induction false} OnePays(cs: seq<Canary>, scanned: seq<Canary>, k: nat, notional: real)
    requires SameCounters(cs, scanned) && k < |cs| && scanned[k] == cs[k] && cs[k].status.Active?
    ensures var paid := scanned[k := Charge(scanned[k], notional)];
            && OnlyConsumed(cs, paid) && paid[k] == Charge(cs[k], notional)
            && forall j :: 0 <= j < |cs| && j != k ==>
                 paid[j].usedNotional == cs[j].usedNotional && paid[j].usedOrders == cs[j].usedOrders
  {
  }

  /** What the authorisation loop tests a row for. */
  predicate Serves(c: Canary, q: Reservation, now: int) { Eligible(c, q, now) && !Exhausted(c) && !OverNotional(c, q) }

  lemma {:induction false} FitsWhenOpen(c: Canary, open: Canary, q: Reservation, now: int)
    requires open == if Selected(c, Some(q.account), Some(now)) then c.(status := Closed(CanaryExpired)) else c
    ensures Fits(c, q, now) <==> Serves(open, q, now)
  {
  }

  /** Asking again for the same request charges nothing. */
  lemma ReserveIsIdempotent(cs: seq<Canary>, us: seq<Usage>, q: Reservation, now: int, later: int)
    ensures var r := Reserve(cs, us, q, now);
            r.canary.Some? ==> Reserve(r.canaries, r.usages, q, later) == r
  {
    var r := Reserve(cs, us, q, now);
    if UsageIndex(us, q.requestId).None? && r.canary.Some? {
      assert r.usages[|r.usages| - 1].requestId == q.requestId;
    }
  }

  lemma {:induction false} SameCountersSameBudget(cs: seq<Canary>, cs': seq<Canary>, us: seq<Usage>)
    requires SameCounters(cs, cs') && WithinBudget(cs, us)
    ensures WithinBudget(cs', us)
  {
    TotalUsedDiffers(cs, cs', |cs|, 0.0);
    forall k | 0 <= k < |cs| ensures CanaryWithin(cs'[k], us, k) {
      assert CanaryWithin(cs[k], us, k);
    }
  }

  /** What one more usage row adds. */
  lemma {:induction false} OneMoreUse(us: seq<Usage>, u: Usage, k: nat)
    ensures UseCount(us + [u], k) == UseCount(us, k) + if u.canary == k then 1 else 0
    ensures UseSum(us + [u], k) == UseSum(us, k) + if u.canary == k then u.notional else 0.0
    ensures TotalNotional(us + [u]) == TotalNotional(us) + u.notional
  {
    assert (us + [u])[..|us|] == us;
  }

  lemma {:induction false} ChargedCanary(c: Canary, c': Canary, us: seq<Usage>, u: Usage, k: nat)
    requires CanaryWithin(c, us, k) && c'.maxOrders == c.maxOrders && c'.maxNotional == c.maxNotional
    requires u.canary == k ==> !Exhausted(c) && c.usedNotional + u.notional <= c.maxNotional + EPS
    requires c'.usedNotional == c.usedNotional + if u.canary == k then u.notional else 0.0
    requires c'.usedOrders == c.usedOrders + if u.canary == k then 1 else 0
    ensures CanaryWithin(c', us + [u], k)
  {
    OneMoreUse(us, u, k);
  }

  lemma {:induction false} ChargedStaysWithinBudget(
      cs: seq<Canary>, cs': seq<Canary>, us: seq<Usage>, u: Usage)
    requires WithinBudget(cs, us) && OnlyConsumed(cs, cs') && u.canary < |cs| && u.notional > 0.0
    requires !Exhausted(cs[u.canary]) && cs[u.canary].usedNotional + u.notional <= cs[u.canary].maxNotional + EPS
    requires cs'[u.canary].usedNotional == cs[u.canary].usedNotional + u.notional
    requires cs'[u.canary].usedOrders == cs[u.canary].usedOrders + 1
    requires forall j :: 0 <= j < |cs| && j != u.canary ==>
               cs'[j].usedNotional == cs[j].usedNotional && cs'[j].usedOrders == cs[j].usedOrders
    ensures WithinBudget(cs', us + [u])
  {
    TotalUsedDiffers(cs, cs', u.canary, u.notional);
    OneMoreUse(us, u, u.canary);
    forall k | 0 <= k < |cs| ensures CanaryWithin(cs'[k], us + [u], k) {
      ChargedCanary(cs[k], cs'[k], us, u, k);
    }
  }

  /** A reservation keeps every canary within its caps and the counters equal to the usage rows. */
  lemma {:induction false} ReserveStaysWithinBudget(cs: seq<Canary>, us: seq<Usage>, q: Reservation, now: int)
    requires WithinBudget(cs, us) && q.notional > 0.0
    ensures var r := Reserve(cs, us, q, now); WithinBudget(r.canaries, r.usages)
  {
    var r := Reserve(cs, us, q, now);
    if UsageIndex(us, q.requestId).None? {
      ReserveGrantsFirstFit(cs, us, q, now);
      match r.canary {
        case None => SameCountersSameBudget(cs, r.canaries, us);
        case Some(k) =>
          ChargedStaysWithinBudget(cs, r.canaries, us, Usage(k, q.requestId, q.planId, q.symbol, q.side, q.notional));
      }
    }
  }

  lemma {:induction false} ClosingStaysWithinBudget(
      cs: seq<Canary>, us: seq<Usage>, account: Option<string>, at: Option<int>, why: CloseReason)
    requires WithinBudget(cs, us)
    ensures WithinBudget(CloseCanaries(cs, account, at, why), us)
  {
    SameCountersSameBudget(cs, CloseCanaries(cs, account, at, why), us);
  }

  lemma {:induction false} OpeningStaysWithinBudget(cs: seq<Canary>, us: seq<Usage>, c: Canary)
    requires WithinBudget(cs, us) && c.usedNotional == 0.0 && c.usedOrders == 0 && c.maxNotional > 0.0 && c.maxOrders > 0
    ensures WithinBudget(cs + [c], us)
  {
    UnusedCanary(us, |cs|);
    assert (cs + [c])[..|cs|] == cs;
  }

  /** With every canary of the account closed, no new request can be granted. */
  lemma ClosedAccountGrantsNothing(cs: seq<Canary>, us: seq<Usage>, q: Reservation, now: int)
    requires NoneActive(cs, q.account)
    requires forall j :: 0 <= j < |us| ==> us[j].requestId != q.requestId
    ensures var r := Reserve(cs, us, q, now); r.canary.None? && r.usages == us
  {
    ReserveGrantsFirstFit(cs, us, q, now);
  }

  /** A reservation opens no canary. */
  lemma {:induction false} ReserveOpensNothing(cs: seq<Canary>, us: seq<Usage>, q: Reservation, now: int, account: string)
    requires NoneActive(cs, account)
    requires forall j :: 0 <= j < |us| ==> us[j].requestId != q.requestId
    ensures var r := Reserve(cs, us, q, now); NoneActive(r.canaries, account) && (q.account == account ==> r.canary.None?)
  {
    ReserveGrantsFirstFit(cs, us, q, now);
    if q.account == account { ClosedAccountGrantsNothing(cs, us, q, now); }
  }
}
