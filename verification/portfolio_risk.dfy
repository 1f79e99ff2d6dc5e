/** The portfolio review (check_portfolio and apply_portfolio_decision in production/portfolio_risk.py). */
module PortfolioRisk {
  import opened Models
  import opened Correlation

  const CORR_THRESHOLD: real := 0.75
  const UNKNOWN_LABEL: string := "UNKNOWN"
  const DEFAULT_GROUP: string := "default"

  datatype PositionPlan = PositionPlan(
    symbol: string, fraction: real, stopPrice: Option<real>, entryPrice: Option<real>, riskGroup: string, proposed: bool,
    sector: string, currency: string, beta: real, leverage: real, medianVolume: Option<real>, eventRisk: bool)

  datatype Policy = Policy(
    maxGross: real, maxStop: real, maxGroup: real, maxPair: real, maxSector: real, maxCurrency: real,
    maxBeta: real, maxEvent: real, maxAdv: real)

  /** What the review is told about the account; `synced` is false for anything but SYNCED. */
  datatype Account = Account(synced: bool, buyingPower: Option<real>)

  // ---- what is summed ----

  datatype Measure = Gross | StopRisk | Beta | Event | Buying

  /** Loss to the stop as a fraction of equity; two percent of the position when no distance can be computed. */
  function StopRiskOf(p: PositionPlan): real {
    if p.entryPrice.None? || p.stopPrice.None? || p.entryPrice.value <= 0.0 || p.stopPrice.value == 0.0
    then p.fraction * 0.02
    else
      var distance := (p.entryPrice.value - p.stopPrice.value) / p.entryPrice.value;
      if distance <= 0.0 then 0.0 else p.fraction * distance
  }

  function Weigh(m: Measure, p: PositionPlan, equity: real): real {
    match m
    case Gross => p.fraction * Max(1.0, p.leverage)
    case StopRisk => StopRiskOf(p)
    case Beta => p.fraction * p.beta * p.leverage
    case Event => if p.eventRisk then p.fraction else 0.0
    case Buying => if p.proposed && p.fraction > 0.0 then p.fraction * equity else 0.0
  }

  function Total(m: Measure, positions: seq<PositionPlan>, equity: real): real {
    if positions == [] then 0.0
    else Total(m, positions[..|positions| - 1], equity) + Weigh(m, positions[|positions| - 1], equity)
  }

  datatype Grouping = ByGroup | BySector | ByCurrency

  /** The bucket a position is counted in. A default risk group falls back to the sector, then to the symbol. */
  function Bucket(g: Grouping, p: PositionPlan): string {
    match g
    case ByGroup =>
      if p.riskGroup != DEFAULT_GROUP then p.riskGroup else if p.sector != UNKNOWN_LABEL then p.sector else p.symbol
    case BySector => p.sector
    case ByCurrency => p.currency
  }

  /** The fractions of all positions in one bucket. */
  function Exposure(g: Grouping, positions: seq<PositionPlan>, bucket: string): real {
    if positions == [] then 0.0
    else
      var p := positions[|positions| - 1];
      Exposure(g, positions[..|positions| - 1], bucket) + if Bucket(g, p) == bucket then p.fraction else 0.0
  }

  // ---- what a passed review means ----

  /** Some position is counted in the bucket. */
  ghost predicate Occupied(g: Grouping, positions: seq<PositionPlan>, bucket: string) {
    exists k :: 0 <= k < |positions| && Bucket(g, positions[k]) == bucket
  }

  ghost predicate Bounded(g: Grouping, positions: seq<PositionPlan>, cap: real) {
    forall bucket :: Occupied(g, positions, bucket) && Exposure(g, positions, bucket) > cap ==>
      !g.ByGroup? && bucket == UNKNOWN_LABEL
  }

  /** A proposed position takes no more than its share of the usual dollar volume. */
  predicate Liquid(p: PositionPlan, equity: real, cap: real) {
    p.proposed && p.medianVolume.Some? && p.medianVolume.value != 0.0 && equity > 0.0 ==>
      p.fraction * equity / p.medianVolume.value <= cap
  }

  function FractionOf(positions: seq<PositionPlan>, symbol: string): real {
    if positions == [] then 0.0 else if positions[0].symbol == symbol then positions[0].fraction
    else FractionOf(positions[1..], symbol)
  }

  function Remembered(symbols: seq<string>, symbol: string): seq<string> {
    if symbol in symbols then symbols else symbols + [symbol]
  }

  /** The symbols that are held or targeted, once each. */
  function ActiveSymbols(positions: seq<PositionPlan>): seq<string> {
    if positions == [] then []
    else
      var p := positions[|positions| - 1];
      var before := ActiveSymbols(positions[..|positions| - 1]);
      if p.fraction > 0.0 then Remembered(before, p.symbol) else before
  }

  /** Two highly correlated symbols together stay within the pair cap. */
  predicate EntryOk(positions: seq<PositionPlan>, a: string, b: string, correlation: real, cap: real) {
    correlation >= CORR_THRESHOLD ==> FractionOf(positions, a) + FractionOf(positions, b) <= cap
  }

  predicate PairOk(positions: seq<PositionPlan>, a: string, b: string, market: Market, cap: real) {
    var c := PairCorrelation(market, a, b);
    c.Some? ==> EntryOk(positions, a, b, c.value, cap)
  }

  ghost predicate PairsOk(positions: seq<PositionPlan>, market: Market, cap: real) {
    var symbols := ActiveSymbols(positions);
    forall i, j :: 0 <= i < j < |symbols| ==> PairOk(positions, symbols[i], symbols[j], market, cap)
  }

  predicate Affordable(positions: seq<PositionPlan>, equity: real, account: Option<Account>) {
    account.Some? ==>
      && account.value.synced
      && (if account.value.buyingPower.None? then Total(Buying, positions, equity) <= 0.0
          else Total(Buying, positions, equity) <= Max(account.value.buyingPower.value, 0.0))
  }

  ghost predicate Within(positions: seq<PositionPlan>, equity: real, account: Option<Account>, policy: Policy, market: Market) {
    && Total(Gross, positions, equity) <= policy.maxGross
    && Total(StopRisk, positions, equity) <= policy.maxStop
    && Total(Beta, positions, equity) <= policy.maxBeta
    && Total(Event, positions, equity) <= policy.maxEvent
    && Bounded(ByGroup, positions, policy.maxGroup)
    && Bounded(BySector, positions, policy.maxSector)
    && Bounded(ByCurrency, positions, policy.maxCurrency)
    && (forall k :: 0 <= k < |positions| ==> Liquid(positions[k], equity, policy.maxAdv))
    && PairsOk(positions, market, policy.maxPair)
    && Affordable(positions, equity, account)
  }

  // ---- the review, loop by loop ----

  datatype Failure =
    | GrossOver | StopOver | BetaOver | EventOver | BucketOver(grouping: Grouping, bucket: string)
    | Illiquid(symbol: string) | PairOver(first: string, second: string) | BuyingPower | NotSynced

  method Accumulate(m: Measure, positions: seq<PositionPlan>, equity: real) returns (total: real)
    ensures total == Total(m, positions, equity)
  {
    total := 0.0;
    for k := 0 to |positions|
      invariant total == Total(m, positions[..k], equity)
    {
      assert positions[..k + 1][..k] == positions[..k];
      total := total + Weigh(m, positions[k], equity);
    }
    assert positions[..|positions|] == positions;
  }

  /** dict.get(key, 0.0). */
  function Lookup(sums: map<string, real>, key: string): real { if key in sums then sums[key] else 0.0 }

  lemma NextOccupied(g: Grouping, positions: seq<PositionPlan>, n: nat, bucket: string)
    requires n < |positions|
    ensures Occupied(g, positions[..n + 1], bucket) <==>
            Occupied(g, positions[..n], bucket) || Bucket(g, positions[n]) == bucket
  {
    var more := positions[..n + 1];
    if Bucket(g, positions[n]) == bucket { assert Bucket(g, more[n]) == bucket; }
    if Occupied(g, positions[..n], bucket) {
      var k :| 0 <= k < n && Bucket(g, positions[..n][k]) == bucket;
      assert Bucket(g, more[k]) == bucket;
    }
    if k :| 0 <= k < n && Bucket(g, more[k]) == bucket { assert Bucket(g, positions[..n][k]) == bucket; }
  }

  /** One dictionary of bucket exposures. */
  method Buckets(g: Grouping, positions: seq<PositionPlan>) returns (sums: map<string, real>)
    ensures forall bucket :: bucket in sums <==> Occupied(g, positions, bucket)
    ensures forall bucket :: bucket in sums ==> sums[bucket] == Exposure(g, positions, bucket)
  {
    sums := map[];
    for k := 0 to |positions|
      invariant forall bucket :: bucket in sums <==> Occupied(g, positions[..k], bucket)
      invariant forall bucket :: Lookup(sums, bucket) == Exposure(g, positions[..k], bucket)
    {
      assert positions[..k + 1][..k] == positions[..k];
      forall bucket {
        NextOccupied(g, positions, k, bucket);
      }
      var bucket := Bucket(g, positions[k]);
      sums := sums[bucket := Lookup(sums, bucket) + positions[k].fraction];
    }
    assert positions[..|positions|] == positions;
    forall bucket | bucket in sums ensures sums[bucket] == Exposure(g, positions, bucket) {
      assert Lookup(sums, bucket) == sums[bucket];
    }
  }

  method BucketFailures(g: Grouping, positions: seq<PositionPlan>, cap: real) returns (failures: seq<Failure>)
    ensures failures == [] <==> Bounded(g, positions, cap)
  {
    var sums := Buckets(g, positions);
    failures := [];
    var left := sums.Keys;
    while left != {}
      invariant left <= sums.Keys
      invariant failures == [] <==> forall bucket :: bucket in sums.Keys - left ==> BucketOk(g, sums[bucket], bucket, cap)
      decreases |left|
    {
      var bucket :| bucket in left;
      left := left - {bucket};
      if !BucketOk(g, sums[bucket], bucket, cap) { failures := failures + [BucketOver(g, bucket)]; }
    }
    BucketsDecide(g, positions, cap, sums);
  }

  /** The test of one dictionary entry; unknown sectors and currencies are not capped. */
  predicate BucketOk(g: Grouping, exposure: real, bucket: string, cap: real) {
    exposure <= cap || (!g.ByGroup? && bucket == UNKNOWN_LABEL)
  }

  lemma {:induction false} BucketsDecide(g: Grouping, positions: seq<PositionPlan>, cap: real, sums: map<string, real>)
    requires forall bucket :: bucket in sums <==> Occupied(g, positions, bucket)
    requires forall bucket :: bucket in sums ==> sums[bucket] == Exposure(g, positions, bucket)
    ensures Bounded(g, positions, cap) <==> forall bucket :: bucket in sums ==> BucketOk(g, sums[bucket], bucket, cap)
  {
  }

  method LiquidityFailures(positions: seq<PositionPlan>, equity: real, cap: real) returns (failures: seq<Failure>)
    ensures failures == [] <==> forall k :: 0 <= k < |positions| ==> Liquid(positions[k], equity, cap)
  {
    failures := [];
    for k := 0 to |positions|
      invariant failures == [] <==> forall j :: 0 <= j < k ==> Liquid(positions[j], equity, cap)
    {
      var p := positions[k];
      if p.proposed && p.medianVolume.Some? && p.medianVolume.value != 0.0 && equity > 0.0 {
        if p.fraction * equity / p.medianVolume.value > cap { failures := failures + [Illiquid(p.symbol)]; }
      }
    }
  }

  /** The loop over the correlation table. */
  method PairFailures(positions: seq<PositionPlan>, market: Market, cap: real) returns (failures: seq<Failure>)
    ensures failures == [] <==> PairsOk(positions, market, cap)
  {
    var corr := PairCorrelations(market, ActiveSymbols(positions));
    failures := [];
    var left := corr.Keys;
    while left != {}
      invariant left <= corr.Keys
      invariant failures == [] <==>
                  forall key :: key in corr.Keys - left ==> EntryOk(positions, key.0, key.1, corr[key], cap)
      decreases |left|
    {
      var key :| key in left;
      left := left - {key};
      if !EntryOk(positions, key.0, key.1, corr[key], cap) { failures := failures + [PairOver(key.0, key.1)]; }
    }
    TableDecides(positions, market, cap, corr);
  }

  lemma {:induction false} TableDecides(positions: seq<PositionPlan>, market: Market, cap: real, corr: Table)
    requires forall a, b :: (a, b) in corr <==>
               Before(ActiveSymbols(positions), a, b) && PairCorrelation(market, a, b).Some?
    requires forall a, b :: (a, b) in corr ==> Some(corr[(a, b)]) == PairCorrelation(market, a, b)
    ensures PairsOk(positions, market, cap) <==>
            forall key :: key in corr ==> EntryOk(positions, key.0, key.1, corr[key], cap)
  {
    var symbols := ActiveSymbols(positions);
    forall i, j | 0 <= i < j < |symbols| ensures Before(symbols, symbols[i], symbols[j]) {
    }
    if PairsOk(positions, market, cap) {
      forall key | key in corr ensures EntryOk(positions, key.0, key.1, corr[key], cap) {
        assert (key.0, key.1) in corr;
      }
    }
    if forall key :: key in corr ==> EntryOk(positions, key.0, key.1, corr[key], cap) {
      forall i, j | 0 <= i < j < |symbols| ensures PairOk(positions, symbols[i], symbols[j], market, cap) {
        var key := (symbols[i], symbols[j]);
        assert PairCorrelation(market, symbols[i], symbols[j]).Some? ==> key in corr;
      }
    }
  }

  method AccountFailures(positions: seq<PositionPlan>, equity: real, account: Option<Account>) returns (failures: seq<Failure>)
    ensures failures == [] <==> Affordable(positions, equity, account)
  {
    var needed := Accumulate(Buying, positions, equity);
    failures := [];
    if account.Some? {
      if account.value.synced {
        var power := account.value.buyingPower;
        if needed > 0.0 && power.None? { failures := [BuyingPower]; }
        else if needed > Max(if power.Some? then power.value else 0.0, 0.0) { failures := [BuyingPower]; }
      } else {
        failures := [NotSynced];
      }
    }
  }

  method TotalFailures(positions: seq<PositionPlan>, equity: real, policy: Policy) returns (failures: seq<Failure>)
    ensures failures == [] <==>
              && Total(Gross, positions, equity) <= policy.maxGross && Total(StopRisk, positions, equity) <= policy.maxStop
              && Total(Beta, positions, equity) <= policy.maxBeta && Total(Event, positions, equity) <= policy.maxEvent
  {
    failures := [];
    var gross := Accumulate(Gross, positions, equity);
    if gross > policy.maxGross { failures := failures + [GrossOver]; }
    var stop := Accumulate(StopRisk, positions, equity);
    if stop > policy.maxStop { failures := failures + [StopOver]; }
    var beta := Accumulate(Beta, positions, equity);
    if beta > policy.maxBeta { failures := failures + [BetaOver]; }
    var event := Accumulate(Event, positions, equity);
    if event > policy.maxEvent { failures := failures + [EventOver]; }
  }

  /** check_portfolio: no failure is reported exactly when every cap holds. */
  method CheckPortfolio(positions: seq<PositionPlan>, equity: real, account: Option<Account>, policy: Policy, market: Market)
    returns (failures: seq<Failure>)
    ensures failures == [] <==> Within(positions, equity, account, policy, market)
  {
    var totals := TotalFailures(positions, equity, policy);
    var groups := BucketFailures(ByGroup, positions, policy.maxGroup);
    var illiquid := LiquidityFailures(positions, equity, policy.maxAdv);
    var sectors := BucketFailures(BySector, positions, policy.maxSector);
    var currencies := BucketFailures(ByCurrency, positions, policy.maxCurrency);
    var pairs := PairFailures(positions, market, policy.maxPair);
    var funds := AccountFailures(positions, equity, account);
    failures := totals + groups + illiquid + sectors + currencies + pairs + funds;
  }

  /** What a decision leaves of a position. */
  function Decided(p: PositionPlan, passed: bool): real { if passed || !p.proposed then p.fraction else 0.0 }

  /** The plan that counts for a symbol in a dictionary: the last one. */
  function LastPlan(plans: seq<PositionPlan>, symbol: string): (r: Option<PositionPlan>)
    ensures r.Some? ==> r.value in plans && r.value.symbol == symbol
  {
    if plans == [] then None
    else if plans[|plans| - 1].symbol == symbol then Some(plans[|plans| - 1])
    else LastPlan(plans[..|plans| - 1], symbol)
  }

  /** apply_portfolio_decision: a failed review zeroes what was proposed and keeps what is held. */
  method ApplyDecision(plans: seq<PositionPlan>, equity: real, account: Option<Account>, policy: Policy, market: Market)
    returns (passed: bool, final: map<string, real>)
    ensures passed <==> Within(plans, equity, account, policy, market)
    ensures forall symbol :: symbol in final <==> LastPlan(plans, symbol).Some?
    ensures forall symbol :: symbol in final ==> final[symbol] == Decided(LastPlan(plans, symbol).value, passed)
  {
    var failures := CheckPortfolio(plans, equity, account, policy, market);
    passed := failures == [];
    final := map[];
    for n := 0 to |plans|
      invariant forall symbol :: symbol in final <==> LastPlan(plans[..n], symbol).Some?
      invariant forall symbol :: symbol in final ==> final[symbol] == Decided(LastPlan(plans[..n], symbol).value, passed)
    {
      assert plans[..n + 1][..n] == plans[..n];
      final := final[plans[n].symbol := Decided(plans[n], passed)];
    }
    assert plans[..|plans|] == plans;
  }

  // ---- a cap on a bucket bounds every member ----

  lemma {:induction false} ExposureCoversMember(g: Grouping, positions: seq<PositionPlan>, k: nat)
    requires k < |positions| && forall i :: 0 <= i < |positions| ==> positions[i].fraction >= 0.0
    ensures Exposure(g, positions, Bucket(g, positions[k])) >= positions[k].fraction
  {
    var n := |positions| - 1;
    if k < n {
      ExposureCoversMember(g, positions[..n], k);
    } else {
      ExposureIsNonNegative(g, positions[..n], Bucket(g, positions[k]));
    }
  }

  lemma {:induction false} ExposureIsNonNegative(g: Grouping, positions: seq<PositionPlan>, bucket: string)
    requires forall i :: 0 <= i < |positions| ==> positions[i].fraction >= 0.0
    ensures Exposure(g, positions, bucket) >= 0.0
  {
    if positions != [] { ExposureIsNonNegative(g, positions[..|positions| - 1], bucket); }
  }

  /** A passed review bounds every single position by the group cap, whatever its group is called. */
  lemma PassBoundsEveryPosition(positions: seq<PositionPlan>, equity: real, account: Option<Account>, policy: Policy,
                                market: Market, k: nat)
    requires Within(positions, equity, account, policy, market) && k < |positions|
    requires forall i :: 0 <= i < |positions| ==> positions[i].fraction >= 0.0
    ensures positions[k].fraction <= policy.maxGroup
  {
    ExposureCoversMember(ByGroup, positions, k);
  }

  // ---- what the review does with correlations ----

  /** Every correlation the review compares with its threshold lies in [-1, 1]. */
  lemma UsedCorrelationsAreBounded(market: Market, a: string, b: string)
    requires IsRoot(market.root) && PairCorrelation(market, a, b).Some?
    ensures -1.0 <= PairCorrelation(market, a, b).value <= 1.0
  {
    CorrelationIsBounded(Recent(market, a), Recent(market, b), market.root);
  }

  /** Two active symbols whose recent returns are the same cannot pass together above the pair cap,
      whatever their groups, sectors and price levels are. */
  lemma PassCapsTwins(positions: seq<PositionPlan>, equity: real, account: Option<Account>, policy: Policy, market: Market,
                      a: string, b: string)
    requires Within(positions, equity, account, policy, market) && Before(ActiveSymbols(positions), a, b)
    requires IsRoot(market.root) && PairCorrelation(market, a, b).Some?
    requires var rs := PairReturns(Shared(Recent(market, a), Recent(market, b))); Firsts(rs) == Seconds(rs)
    ensures FractionOf(positions, a) + FractionOf(positions, b) <= policy.maxPair
  {
    SameReturnsCorrelatePerfectly(Recent(market, a), Recent(market, b), market.root);
    var symbols := ActiveSymbols(positions);
    var i, j :| 0 <= i < j < |symbols| && symbols[i] == a && symbols[j] == b;
    assert PairOk(positions, symbols[i], symbols[j], market, policy.maxPair);
  }
}
