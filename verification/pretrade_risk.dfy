/** The last gate before submission (execution/pretrade_risk.py): PASS or REJECT, never a changed order. */
module PreTradeRisk {
  import opened Models
  import opened Protocol

  const MAX_PENDING_INTENTS := 10

  datatype Position = Position(symbol: string, quantity: real, lastPrice: real)

  datatype AccountState = AccountState(
    sync: SyncStatus, cash: Option<real>, buyingPower: Option<real>, nav: Option<real>, positions: seq<Position>)

  datatype MarketState = MarketState(quoteAt: int, price: real, maxAge: int)

  type Quotes = map<string, MarketState>

  /** Each limit may be given as an amount or as a fraction of net asset value; the amount wins. */
  datatype Limit = Limit(amount: Option<real>, fraction: Option<real>)

  datatype RiskLimits = RiskLimits(order: Limit, position: Limit, portfolio: Limit, dailyLoss: Limit)

  /** The confirmation object a caller holds: a copy of a stored row, possibly stale. */
  datatype Shown = Shown(id: string, ticket: Confirmation)

  datatype Reason =
    | TicketNotApproved | HashMismatch | PlanMismatch | PlanExpired | TicketExpired
    | AccountMissing | NotSynced(status: SyncStatus)
    | IllegalSide | NonPositiveQuantity | IllegalOrderType | NegativeSlippage | NoQuote | StaleQuote
    | SlippageExceeded | BuyingPowerUnknown | BuyingPowerShort | TooManyPending | UnknownOrders | NotEnoughHeld
    | NavMissing | OrdersUnpriced | NegativeOrderLimit | OrderOverLimit
    | PositionOverLimit | PositionsUnpriced | PortfolioOverLimit
    | NegativeDailyLimit | DailyLossMissing | DailyLossOverLimit

  // ---- what a PASS means ----

  predicate TicketOk(plan: Plan, shown: Shown, now: int) {
    && shown.ticket.status.Approved?
    && shown.ticket.planHash == plan.planHash && shown.ticket.planId == plan.planId
    && !Expired(plan.expiresAt, now) && !Expired(shown.ticket.expiresAt, now)
  }

  predicate AccountOk(account: Option<AccountState>) { account.Some? && account.value.sync.Synced? }

  predicate Fresh(q: MarketState, now: int) { 0 <= now - q.quoteAt <= q.maxAge }

  predicate OrderOk(o: PlanOrder, quotes: Quotes, now: int) {
    && !o.side.OtherSide? && o.quantity > 0.0 && !o.orderType.OtherType? && o.maxSlippageBps >= 0.0
    && o.symbol in quotes && Fresh(quotes[o.symbol], now)
  }

  predicate Quoted(symbol: string, quotes: Quotes) { symbol in quotes && quotes[symbol].price > 0.0 }

  predicate SlippageOk(o: PlanOrder, quotes: Quotes) {
    o.referencePrice.Some? && Quoted(o.symbol, quotes) ==>
      Abs(quotes[o.symbol].price - o.referencePrice.value) / quotes[o.symbol].price * 10000.0 <= o.maxSlippageBps
  }

  /** Quantity times market price; 0 for an order without a usable quote. */
  function Notional(o: PlanOrder, quotes: Quotes): real {
    if Quoted(o.symbol, quotes) then o.quantity * quotes[o.symbol].price else 0.0
  }

  function BuyNotional(orders: seq<PlanOrder>, quotes: Quotes): real {
    if orders == [] then 0.0
    else
      var o := orders[|orders| - 1];
      BuyNotional(orders[..|orders| - 1], quotes) + if o.side.Buy? then Notional(o, quotes) else 0.0
  }

  predicate BuyingPowerOk(orders: seq<PlanOrder>, account: AccountState, quotes: Quotes) {
    if account.buyingPower.None? then forall k :: 0 <= k < |orders| ==> !orders[k].side.Buy?
    else BuyNotional(orders, quotes) <= account.buyingPower.value
  }

  function Held(positions: seq<Position>, symbol: string): real {
    if positions == [] then 0.0
    else
      var p := positions[|positions| - 1];
      Held(positions[..|positions| - 1], symbol) + if p.symbol == symbol then p.quantity else 0.0
  }

  predicate HoldingsOk(orders: seq<PlanOrder>, positions: seq<Position>) {
    forall k :: 0 <= k < |orders| && orders[k].side.Sell? ==>
      orders[k].quantity <= Held(positions, orders[k].symbol) + EPS
  }

  function Nav(account: AccountState): Option<real> {
    if account.nav.Some? && account.nav.value > 0.0 then account.nav
    else if account.cash.Some? && account.cash.value > 0.0 then account.cash
    else None
  }

  function LimitValue(limit: Limit, nav: Option<real>): Option<real> {
    if limit.amount.Some? then limit.amount
    else if limit.fraction.Some? && nav.Some? then Some(limit.fraction.value * nav.value)
    else None
  }

  predicate NavOk(limits: RiskLimits, nav: Option<real>) {
    nav.None? ==> limits.order.fraction.None? && limits.position.fraction.None?
                  && limits.portfolio.fraction.None? && limits.dailyLoss.fraction.None?
  }

  predicate OrderLimitOk(orders: seq<PlanOrder>, quotes: Quotes, cap: Option<real>) {
    cap.Some? ==> cap.value >= 0.0 && forall k :: 0 <= k < |orders| ==> Notional(orders[k], quotes) <= cap.value + EPS
  }

  /** Bought minus sold. */
  function Traded(orders: seq<PlanOrder>, symbol: string): real {
    if orders == [] then 0.0
    else
      var o := orders[|orders| - 1];
      Traded(orders[..|orders| - 1], symbol)
      + if o.symbol != symbol then 0.0 else if o.side.Buy? then o.quantity else -o.quantity
  }

  /** What would be held of a symbol after the plan: held + buys - sells. */
  function Projected(positions: seq<Position>, orders: seq<PlanOrder>, symbol: string): real {
    (if symbol == "" then 0.0 else Held(positions, symbol)) + Traded(orders, symbol)
  }

  function LastPrice(positions: seq<Position>, symbol: string): real {
    if positions == [] then 0.0
    else if positions[0].symbol == symbol then positions[0].lastPrice
    else LastPrice(positions[1..], symbol)
  }

  /** The market price, else the last price of the first position row of the symbol. */
  function PriceOf(symbol: string, positions: seq<Position>, quotes: Quotes): real {
    if Quoted(symbol, quotes) then quotes[symbol].price else LastPrice(positions, symbol)
  }

  function With(symbols: seq<string>, symbol: string): seq<string> {
    if symbol in symbols then symbols else symbols + [symbol]
  }

  function HeldSymbols(positions: seq<Position>): seq<string> {
    if positions == [] then []
    else
      var p := positions[|positions| - 1];
      var before := HeldSymbols(positions[..|positions| - 1]);
      if p.symbol != "" && p.quantity != 0.0 then With(before, p.symbol) else before
  }

  /** Every symbol the plan leaves a position in, each once, in order of first appearance. */
  function Touched(positions: seq<Position>, orders: seq<PlanOrder>): seq<string> {
    if orders == [] then HeldSymbols(positions)
    else With(Touched(positions, orders[..|orders| - 1]), orders[|orders| - 1].symbol)
  }

  function Valued(quantity: real, price: real): real { Abs(quantity) * price }

  function Exposure(symbol: string, positions: seq<Position>, orders: seq<PlanOrder>, quotes: Quotes): real {
    Valued(Projected(positions, orders, symbol), PriceOf(symbol, positions, quotes))
  }

  function Gross(symbols: seq<string>, positions: seq<Position>, orders: seq<PlanOrder>, quotes: Quotes): real {
    if symbols == [] then 0.0
    else Gross(symbols[..|symbols| - 1], positions, orders, quotes)
         + Exposure(symbols[|symbols| - 1], positions, orders, quotes)
  }

  /** The price a held row is valued at: its quote, else its own last price. */
  predicate RowPriced(p: Position, quotes: Quotes) {
    p.symbol != "" && p.quantity != 0.0 ==> Quoted(p.symbol, quotes) || p.lastPrice > 0.0
  }

  predicate SymbolPriced(x: string, positions: seq<Position>, orders: seq<PlanOrder>, quotes: Quotes) {
    Projected(positions, orders, x) == 0.0 || PriceOf(x, positions, quotes) > 0.0
  }

  predicate ExposureOk(positions: seq<Position>, orders: seq<PlanOrder>, quotes: Quotes,
                       positionCap: Option<real>, portfolioCap: Option<real>) {
    var symbols := Touched(positions, orders);
    (positionCap.Some? || portfolioCap.Some?) ==>
      && (forall k :: 0 <= k < |positions| ==> RowPriced(positions[k], quotes))
      && (forall k :: 0 <= k < |symbols| ==> SymbolPriced(symbols[k], positions, orders, quotes))
      && (positionCap.Some? ==> forall k :: 0 <= k < |symbols| ==>
            Exposure(symbols[k], positions, orders, quotes) <= positionCap.value + EPS)
      && (portfolioCap.Some? ==> Gross(symbols, positions, orders, quotes) <= portfolioCap.value + EPS)
  }

  predicate DailyLossOk(loss: Option<real>, cap: Option<real>) {
    cap.Some? ==> cap.value >= 0.0 && loss.Some? && loss.value <= cap.value + EPS
  }

  predicate AllQuoted(orders: seq<PlanOrder>, quotes: Quotes) {
    forall k :: 0 <= k < |orders| ==> Quoted(orders[k].symbol, quotes)
  }

  predicate LimitsOk(limits: RiskLimits, orders: seq<PlanOrder>, account: AccountState, quotes: Quotes, loss: Option<real>) {
    var nav := Nav(account);
    && NavOk(limits, nav)
    && AllQuoted(orders, quotes)
    && OrderLimitOk(orders, quotes, LimitValue(limits.order, nav))
    && ExposureOk(account.positions, orders, quotes, LimitValue(limits.position, nav), LimitValue(limits.portfolio, nav))
    && DailyLossOk(loss, LimitValue(limits.dailyLoss, nav))
  }

  predicate OrdersOk(orders: seq<PlanOrder>, quotes: Quotes, now: int) {
    forall k :: 0 <= k < |orders| ==> OrderOk(orders[k], quotes, now) && SlippageOk(orders[k], quotes)
  }

  predicate FundsOk(orders: seq<PlanOrder>, account: AccountState, quotes: Quotes, limits: Option<RiskLimits>,
                    loss: Option<real>) {
    && BuyingPowerOk(orders, account, quotes)
    && HoldingsOk(orders, account.positions)
    && (limits.Some? ==> LimitsOk(limits.value, orders, account, quotes, loss))
  }

  /** The declarative meaning of PASS. */
  predicate Passes(plan: Plan, shown: Shown, account: Option<AccountState>, quotes: Quotes, pending: int, unknown: int,
                   limits: Option<RiskLimits>, loss: Option<real>, now: int) {
    && TicketOk(plan, shown, now)
    && AccountOk(account)
    && OrdersOk(plan.orders, quotes, now)
    && pending < MAX_PENDING_INTENTS && unknown <= 0
    && FundsOk(plan.orders, account.value, quotes, limits, loss)
  }

  // ---- the evaluation, section by section ----

  /** No reason that concerns the account state or UNKNOWN orders. */
  predicate Neutral(reasons: seq<Reason>) {
    forall k :: 0 <= k < |reasons| ==> !reasons[k].NotSynced? && !reasons[k].UnknownOrders?
  }

  method TicketReasons(plan: Plan, shown: Shown, now: int) returns (reasons: seq<Reason>)
    ensures reasons == [] <==> TicketOk(plan, shown, now)
    ensures Neutral(reasons)
  {
    reasons := [];
    if !shown.ticket.status.Approved? { reasons := reasons + [TicketNotApproved]; }
    if shown.ticket.planHash != plan.planHash { reasons := reasons + [HashMismatch]; }
    if shown.ticket.planId != plan.planId { reasons := reasons + [PlanMismatch]; }
    if Expired(plan.expiresAt, now) { reasons := reasons + [PlanExpired]; }
    if Expired(shown.ticket.expiresAt, now) { reasons := reasons + [TicketExpired]; }
  }

  method ShapeReasons(o: PlanOrder, quotes: Quotes, now: int) returns (reasons: seq<Reason>)
    ensures reasons == [] <==> OrderOk(o, quotes, now)
    ensures Neutral(reasons)
  {
    reasons := [];
    if o.side.OtherSide? { reasons := reasons + [IllegalSide]; }
    if o.quantity <= 0.0 { reasons := reasons + [NonPositiveQuantity]; }
    if o.orderType.OtherType? { reasons := reasons + [IllegalOrderType]; }
    if o.maxSlippageBps < 0.0 { reasons := reasons + [NegativeSlippage]; }
    if o.symbol !in quotes { reasons := reasons + [NoQuote]; }
    else if !Fresh(quotes[o.symbol], now) { reasons := reasons + [StaleQuote]; }
  }

  method WellFormedReasons(orders: seq<PlanOrder>, quotes: Quotes, now: int) returns (reasons: seq<Reason>)
    ensures reasons == [] <==> forall k :: 0 <= k < |orders| ==> OrderOk(orders[k], quotes, now)
    ensures Neutral(reasons)
  {
    reasons := [];
    for i := 0 to |orders|
      invariant reasons == [] <==> forall k :: 0 <= k < i ==> OrderOk(orders[k], quotes, now)
      invariant Neutral(reasons)
    {
      var shape := ShapeReasons(orders[i], quotes, now);
      reasons := reasons + shape;
    }
  }

  method SlippageReasons(orders: seq<PlanOrder>, quotes: Quotes) returns (reasons: seq<Reason>)
    ensures reasons == [] <==> forall k :: 0 <= k < |orders| ==> SlippageOk(orders[k], quotes)
    ensures Neutral(reasons)
  {
    reasons := [];
    for i := 0 to |orders|
      invariant reasons == [] <==> forall k :: 0 <= k < i ==> SlippageOk(orders[k], quotes)
      invariant Neutral(reasons)
    {
      var o := orders[i];
      if o.referencePrice.Some? && Quoted(o.symbol, quotes) {
        var price := quotes[o.symbol].price;
        if Abs(price - o.referencePrice.value) / price * 10000.0 > o.maxSlippageBps {
          reasons := reasons + [SlippageExceeded];
        }
      }
    }
  }

  method BuyingPowerReasons(orders: seq<PlanOrder>, account: AccountState, quotes: Quotes) returns (reasons: seq<Reason>)
    ensures reasons == [] <==> BuyingPowerOk(orders, account, quotes)
    ensures Neutral(reasons)
  {
    var hasBuy, total := false, 0.0;
    for i := 0 to |orders|
      invariant hasBuy <==> exists k :: 0 <= k < i && orders[k].side.Buy?
      invariant total == BuyNotional(orders[..i], quotes)
    {
      assert orders[..i + 1][..i] == orders[..i];
      if orders[i].side.Buy? {
        hasBuy := true;
        if Quoted(orders[i].symbol, quotes) { total := total + orders[i].quantity * quotes[orders[i].symbol].price; }
      }
    }
    assert orders[..|orders|] == orders;
    reasons := [];
    if account.buyingPower.None? {
      if hasBuy { reasons := [BuyingPowerUnknown]; }
    } else if total > account.buyingPower.value {
      reasons := [BuyingPowerShort];
    }
  }

  method HoldingsReasons(orders: seq<PlanOrder>, positions: seq<Position>) returns (reasons: seq<Reason>)
    ensures reasons == [] <==> HoldingsOk(orders, positions)
    ensures Neutral(reasons)
  {
    var available: map<string, real> := map[];
    for i := 0 to |positions|
      invariant forall x :: (if x in available then available[x] else 0.0) == Held(positions[..i], x)
    {
      assert positions[..i + 1][..i] == positions[..i];
      var x := positions[i].symbol;
      available := available[x := (if x in available then available[x] else 0.0) + positions[i].quantity];
    }
    assert positions[..|positions|] == positions;
    reasons := [];
    for i := 0 to |orders|
      invariant reasons == [] <==> HoldingsOk(orders[..i], positions)
      invariant Neutral(reasons)
    {
      var x := orders[i].symbol;
      if orders[i].side.Sell? && (if x in available then available[x] else 0.0) + EPS < orders[i].quantity {
        reasons := reasons + [NotEnoughHeld];
      }
    }
    assert orders[..|orders|] == orders;
  }

  method OrderLimitReasons(orders: seq<PlanOrder>, quotes: Quotes, cap: Option<real>) returns (reasons: seq<Reason>)
    ensures reasons == [] <==> AllQuoted(orders, quotes) && OrderLimitOk(orders, quotes, cap)
    ensures Neutral(reasons)
  {
    var notionals: seq<real> := [];
    for i := 0 to |orders|
      invariant |notionals| <= i
      invariant |notionals| == i <==> AllQuoted(orders[..i], quotes)
      invariant |notionals| == i ==> forall k :: 0 <= k < i ==> notionals[k] == Notional(orders[k], quotes)
    {
      if Quoted(orders[i].symbol, quotes) {
        notionals := notionals + [orders[i].quantity * quotes[orders[i].symbol].price];
      }
    }
    assert orders[..|orders|] == orders;
    reasons := [];
    if |notionals| != |orders| { reasons := [OrdersUnpriced]; }
    if cap.Some? {
      if cap.value < 0.0 { reasons := reasons + [NegativeOrderLimit]; }
      var before := reasons;
      for i := 0 to |notionals|
        invariant reasons == [] <==> before == [] && forall k :: 0 <= k < i ==> notionals[k] <= cap.value + EPS
        invariant Neutral(reasons)
      {
        if notionals[i] > cap.value + EPS { reasons := reasons + [OrderOverLimit]; }
      }
    }
  }

  /** The dictionary of projected quantities, and whether every held row has a price. */
  method ProjectQuantities(orders: seq<PlanOrder>, positions: seq<Position>, quotes: Quotes)
    returns (symbols: seq<string>, quantities: map<string, real>, known: bool)
    ensures symbols == Touched(positions, orders)
    ensures forall x :: x in quantities <==> x in symbols
    ensures forall x :: x in quantities ==> quantities[x] == Projected(positions, orders, x)
    ensures known <==> forall k :: 0 <= k < |positions| ==> RowPriced(positions[k], quotes)
  {
    symbols, quantities, known := [], map[], true;
    for i := 0 to |positions|
      invariant symbols == HeldSymbols(positions[..i])
      invariant forall x :: x in quantities <==> x in symbols
      invariant forall x :: (if x in quantities then quantities[x] else 0.0) == Projected(positions[..i], [], x)
      invariant known <==> forall k :: 0 <= k < i ==> RowPriced(positions[k], quotes)
    {
      assert positions[..i + 1][..i] == positions[..i];
      var p := positions[i];
      if p.symbol != "" && p.quantity != 0.0 {
        quantities := quantities[p.symbol := (if p.symbol in quantities then quantities[p.symbol] else 0.0) + p.quantity];
        symbols := With(symbols, p.symbol);
        if (if Quoted(p.symbol, quotes) then quotes[p.symbol].price else p.lastPrice) <= 0.0 { known := false; }
      }
    }
    assert positions[..|positions|] == positions;
    for i := 0 to |orders|
      invariant symbols == Touched(positions, orders[..i])
      invariant forall x :: x in quantities <==> x in symbols
      invariant forall x :: (if x in quantities then quantities[x] else 0.0) == Projected(positions, orders[..i], x)
    {
      assert orders[..i + 1][..i] == orders[..i];
      var o := orders[i];
      var change := if o.side.Buy? then o.quantity else -o.quantity;
      quantities := quantities[o.symbol := (if o.symbol in quantities then quantities[o.symbol] else 0.0) + change];
      symbols := With(symbols, o.symbol);
    }
    assert orders[..|orders|] == orders;
  }

  method MeasureExposure(symbols: seq<string>, quantities: map<string, real>, orders: seq<PlanOrder>,
                         positions: seq<Position>, quotes: Quotes, positionCap: Option<real>)
    returns (reasons: seq<Reason>, priced: bool, gross: real)
    requires forall k :: 0 <= k < |symbols| ==>
               symbols[k] in quantities && quantities[symbols[k]] == Projected(positions, orders, symbols[k])
    ensures priced <==> forall k :: 0 <= k < |symbols| ==> SymbolPriced(symbols[k], positions, orders, quotes)
    ensures priced ==> gross == Gross(symbols, positions, orders, quotes)
    ensures priced ==> (reasons == [] <==> (positionCap.Some? ==> forall k :: 0 <= k < |symbols| ==>
              Exposure(symbols[k], positions, orders, quotes) <= positionCap.value + EPS))
    ensures Neutral(reasons)
  {
    reasons, priced, gross := [], true, 0.0;
    for i := 0 to |symbols|
      invariant priced <==> forall k :: 0 <= k < i ==> SymbolPriced(symbols[k], positions, orders, quotes)
      invariant priced ==> gross == Gross(symbols[..i], positions, orders, quotes)
      invariant priced ==> (reasons == [] <==> (positionCap.Some? ==> forall k :: 0 <= k < i ==>
                  Exposure(symbols[k], positions, orders, quotes) <= positionCap.value + EPS))
      invariant Neutral(reasons)
    {
      assert symbols[..i + 1][..i] == symbols[..i];
      var x := symbols[i];
      var quantity, price := quantities[x], PriceOf(x, positions, quotes);
      if quantity != 0.0 && price <= 0.0 {
        assert !SymbolPriced(x, positions, orders, quotes);
        priced := false;
      } else {
        assert SymbolPriced(x, positions, orders, quotes);
        var exposure := Valued(quantity, price);
        assert exposure == Exposure(x, positions, orders, quotes);
        gross := gross + exposure;
        if positionCap.Some? && exposure > positionCap.value + EPS { reasons := reasons + [PositionOverLimit]; }
      }
    }
    assert symbols[..|symbols|] == symbols;
  }

  method ExposureReasons(orders: seq<PlanOrder>, positions: seq<Position>, quotes: Quotes,
                         positionCap: Option<real>, portfolioCap: Option<real>) returns (reasons: seq<Reason>)
    ensures reasons == [] <==> ExposureOk(positions, orders, quotes, positionCap, portfolioCap)
    ensures Neutral(reasons)
  {
    reasons := [];
    var symbols, quantities, rowsPriced := ProjectQuantities(orders, positions, quotes);
    if positionCap.Some? || portfolioCap.Some? {
      var over, priced, gross := MeasureExposure(symbols, quantities, orders, positions, quotes, positionCap);
      reasons := over;
      if !(rowsPriced && priced) { reasons := reasons + [PositionsUnpriced]; }
      if portfolioCap.Some? && gross > portfolioCap.value + EPS { reasons := reasons + [PortfolioOverLimit]; }
    }
  }

  method DailyLossReasons(loss: Option<real>, cap: Option<real>) returns (reasons: seq<Reason>)
    ensures reasons == [] <==> DailyLossOk(loss, cap)
    ensures Neutral(reasons)
  {
    reasons := [];
    if cap.Some? {
      if cap.value < 0.0 { reasons := [NegativeDailyLimit]; }
      else if loss.None? { reasons := [DailyLossMissing]; }
      else if loss.value > cap.value + EPS { reasons := [DailyLossOverLimit]; }
    }
  }

  /** The orders a limit can put a price on. */
  function PricedOrders(orders: seq<PlanOrder>, quotes: Quotes): seq<PlanOrder> {
    if orders == [] then []
    else
      PricedOrders(orders[..|orders| - 1], quotes)
      + if Quoted(orders[|orders| - 1].symbol, quotes) then [orders[|orders| - 1]] else []
  }

  lemma {:induction false} AllQuotedArePriced(orders: seq<PlanOrder>, quotes: Quotes)
    requires AllQuoted(orders, quotes)
    ensures PricedOrders(orders, quotes) == orders
  {
    if orders != [] {
      AllQuotedArePriced(orders[..|orders| - 1], quotes);
      assert orders == orders[..|orders| - 1] + [orders[|orders| - 1]];
    }
  }

  method LimitReasons(limits: RiskLimits, orders: seq<PlanOrder>, account: AccountState, quotes: Quotes, loss: Option<real>)
    returns (reasons: seq<Reason>)
    ensures reasons == [] <==> LimitsOk(limits, orders, account, quotes, loss)
    ensures Neutral(reasons)
  {
    var nav := Nav(account);
    reasons := [];
    if nav.None? && (limits.order.fraction.Some? || limits.position.fraction.Some?
                     || limits.portfolio.fraction.Some? || limits.dailyLoss.fraction.Some?) {
      reasons := [NavMissing];
    }
    var perOrder := OrderLimitReasons(orders, quotes, LimitValue(limits.order, nav));
    var exposure := ExposureReasons(PricedOrders(orders, quotes), account.positions, quotes,
                                    LimitValue(limits.position, nav), LimitValue(limits.portfolio, nav));
    var daily := DailyLossReasons(loss, LimitValue(limits.dailyLoss, nav));
    if AllQuoted(orders, quotes) { AllQuotedArePriced(orders, quotes); }
    reasons := reasons + perOrder + exposure + daily;
  }

  method FundsReasons(orders: seq<PlanOrder>, account: AccountState, quotes: Quotes, limits: Option<RiskLimits>,
                      loss: Option<real>) returns (reasons: seq<Reason>)
    ensures reasons == [] <==> FundsOk(orders, account, quotes, limits, loss)
    ensures Neutral(reasons)
  {
    reasons := BuyingPowerReasons(orders, account, quotes);
    var held := HoldingsReasons(orders, account.positions);
    reasons := reasons + held;
    if limits.Some? {
      var capped := LimitReasons(limits.value, orders, account, quotes, loss);
      reasons := reasons + capped;
    }
  }

  method StandingReasons(account: Option<AccountState>, pending: int, unknown: int) returns (reasons: seq<Reason>)
    ensures reasons == [] <==> AccountOk(account) && pending < MAX_PENDING_INTENTS && unknown <= 0
    ensures UnknownOrders in reasons <==> unknown > 0
    ensures account.Some? && !account.value.sync.Synced? ==> NotSynced(account.value.sync) in reasons
    ensures AccountOk(account) || account.None? ==> forall k :: 0 <= k < |reasons| ==> !reasons[k].NotSynced?
  {
    reasons := [];
    if account.None? { reasons := [AccountMissing]; }
    else if !account.value.sync.Synced? { reasons := [NotSynced(account.value.sync)]; }
    if pending >= MAX_PENDING_INTENTS { reasons := reasons + [TooManyPending]; }
    if unknown > 0 { reasons := reasons + [UnknownOrders]; }
  }

  /** PASS exactly when every declared condition holds; nothing but the verdict and its reasons is produced. */
  method Evaluate(plan: Plan, shown: Shown, account: Option<AccountState>, quotes: Quotes, pending: int, unknown: int,
                  limits: Option<RiskLimits>, loss: Option<real>, now: int) returns (reasons: seq<Reason>)
    ensures reasons == [] <==> Passes(plan, shown, account, quotes, pending, unknown, limits, loss, now)
    ensures UnknownOrders in reasons <==> unknown > 0
    ensures account.Some? && !account.value.sync.Synced? ==> NotSynced(account.value.sync) in reasons
    ensures AccountOk(account) || account.None? ==> forall k :: 0 <= k < |reasons| ==> !reasons[k].NotSynced?
  {
    var ticket := TicketReasons(plan, shown, now);
    var standing := StandingReasons(account, pending, unknown);
    var shape := WellFormedReasons(plan.orders, quotes, now);
    var slippage := SlippageReasons(plan.orders, quotes);
    var funds := [];
    if account.Some? { funds := FundsReasons(plan.orders, account.value, quotes, limits, loss); }
    reasons := ticket + standing + shape + slippage + funds;
  }

  // ---- what the sums mean ----

  ghost predicate Trades(orders: seq<PlanOrder>, x: string) {
    exists k :: 0 <= k < |orders| && orders[k].symbol == x
  }

  ghost predicate Holds(positions: seq<Position>, x: string) {
    x != "" && exists k :: 0 <= k < |positions| && positions[k].symbol == x && positions[k].quantity != 0.0
  }

  ghost predicate Distinct(symbols: seq<string>) {
    forall j, k :: 0 <= j < k < |symbols| ==> symbols[j] != symbols[k]
  }

  /** Each symbol is counted once, and exactly the held and traded symbols are. */
  lemma {:induction false} TouchedIsExact(positions: seq<Position>, orders: seq<PlanOrder>)
    ensures Distinct(Touched(positions, orders))
    ensures forall x :: x in Touched(positions, orders) <==> Trades(orders, x) || Holds(positions, x)
    decreases |orders|
  {
    if orders == [] {
      HeldSymbolsAreExact(positions);
    } else {
      var n := |orders| - 1;
      TouchedIsExact(positions, orders[..n]);
      forall x ensures Trades(orders, x) <==> Trades(orders[..n], x) || orders[n].symbol == x {
        if Trades(orders[..n], x) {
          var k :| 0 <= k < n && orders[..n][k].symbol == x;
          assert orders[k].symbol == x;
        }
        if Trades(orders, x) {
          var k :| 0 <= k < |orders| && orders[k].symbol == x;
          if k < n { assert orders[..n][k].symbol == x; }
        }
      }
    }
  }

  lemma {:induction false} HeldSymbolsAreExact(positions: seq<Position>)
    ensures Distinct(HeldSymbols(positions))
    ensures forall x :: x in HeldSymbols(positions) <==> Holds(positions, x)
  {
    if positions != [] {
      var n := |positions| - 1;
      var p := positions[n];
      HeldSymbolsAreExact(positions[..n]);
      forall x ensures Holds(positions, x) <==> Holds(positions[..n], x) || (p.symbol == x != "" && p.quantity != 0.0) {
        if Holds(positions[..n], x) {
          var k :| 0 <= k < n && positions[..n][k].symbol == x && positions[..n][k].quantity != 0.0;
          assert positions[k].symbol == x;
        }
        if Holds(positions, x) {
          var k :| 0 <= k < |positions| && positions[k].symbol == x && positions[k].quantity != 0.0;
          if k < n { assert positions[..n][k].symbol == x; }
        }
      }
    }
  }

  /** A symbol outside the list has no projected position, so the list misses no exposure. */
  lemma {:induction false} UntouchedIsFlat(positions: seq<Position>, orders: seq<PlanOrder>, x: string)
    requires x !in Touched(positions, orders)
    ensures Projected(positions, orders, x) == 0.0
    decreases |orders|
  {
    if orders != [] { UntouchedIsFlat(positions, orders[..|orders| - 1], x); }
    else if x != "" { UnheldIsFlat(positions, x); }
  }

  lemma {:induction false} UnheldIsFlat(positions: seq<Position>, x: string)
    requires x !in HeldSymbols(positions) && x != ""
    ensures Held(positions, x) == 0.0
  {
    if positions != [] { UnheldIsFlat(positions[..|positions| - 1], x); }
  }

  /** A PASS under a position cap bounds every symbol there is, named in the plan or not. */
  lemma PassCapsEverySymbol(plan: Plan, shown: Shown, account: AccountState, quotes: Quotes, pending: int, unknown: int,
                            limits: RiskLimits, loss: Option<real>, now: int, cap: real, x: string)
    requires Passes(plan, shown, Some(account), quotes, pending, unknown, Some(limits), loss, now)
    requires LimitValue(limits.position, Nav(account)) == Some(cap)
    ensures Projected(account.positions, plan.orders, x) == 0.0
            || Exposure(x, account.positions, plan.orders, quotes) <= cap + EPS
  {
    if x in Touched(account.positions, plan.orders) {
      var k :| 0 <= k < |Touched(account.positions, plan.orders)| && Touched(account.positions, plan.orders)[k] == x;
    } else {
      UntouchedIsFlat(account.positions, plan.orders, x);
    }
  }
}
