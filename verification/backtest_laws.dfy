/** What every backtest promises: accounting, order, feasible fills, the stop it claims to follow, no look-ahead. */
module BacktestLaws {
  import opened Models
  import opened Arithmetic
  import opened Indicators
  import opened Strategy
  import opened Backtest

  /** The bar is well formed; the data filter lets a few through that are not. */
  predicate ValidBar(b: Bar) { b.low <= b.open <= b.high && b.low <= b.close <= b.high }

  /** A price the bar reached, whatever its high says: not below its low, open and close, not above both of
      its open and its close. */
  predicate Reached(b: Bar, price: real) { Min(b.low, Min(b.open, b.close)) <= price <= Max(b.open, b.close) }

  /** The runs that cannot lose everything: positive prices, a cost below the whole price, some cash. */
  ghost predicate Solvent(bars: seq<Bar>, r: Run) {
    && (forall i :: 0 <= i < |bars| ==> bars[i].open > 0.0 && bars[i].low > 0.0 && bars[i].close > 0.0)
    && r.costBps < 10000.0 && r.initialCash > 0.0
  }

  // ---- money ----

  /** What one trade multiplies the capital by. */
  function Factor(t: Trade, r: Run): real
    requires t.entryPrice > 0.0 && r.costBps >= 0.0
  {
    EntryCostsAreNotZero(t.entryPrice, r);
    Proceeds(t.exitPrice, r) / EntryCost(t.entryPrice, r)
  }

  ghost predicate TradesPriced(trades: seq<Trade>) { forall k :: 0 <= k < |trades| ==> trades[k].entryPrice > 0.0 }

  ghost predicate ExitsPriced(trades: seq<Trade>) { forall k :: 0 <= k < |trades| ==> trades[k].exitPrice > 0.0 }

  function Growth(trades: seq<Trade>, r: Run): real
    requires TradesPriced(trades) && r.costBps >= 0.0
  {
    if trades == [] then 1.0
    else
      var t := trades[|trades| - 1];
      Growth(trades[..|trades| - 1], r) * Factor(t, r)
  }

  /** The capital after a list of trades. */
  function Owed(trades: seq<Trade>, r: Run): real
    requires TradesPriced(trades) && r.costBps >= 0.0
  {
    if trades == [] then r.initialCash
    else
      var t := trades[|trades| - 1];
      Owed(trades[..|trades| - 1], r) * Factor(t, r)
  }

  function Bought(cash: real, price: real, r: Run): real
    requires price > 0.0 && r.costBps >= 0.0
  {
    EntryCostsAreNotZero(price, r);
    cash / EntryCost(price, r)
  }

  /** All of the capital is in cash, or all of it was spent on the open position. */
  ghost predicate Accounts(b: Book, r: Run)
    requires r.costBps >= 0.0
  {
    && TradesPriced(b.trades) && HeldIsPriced(b)
    && (b.held.None? ==> b.position == 0.0 && b.cash == Owed(b.trades, r))
    && (b.held.Some? ==>
          b.cash == 0.0 && b.position == Bought(Owed(b.trades, r), b.held.value.entryPrice, r))
  }

  lemma ProceedsArePositive(price: real, r: Run)
    requires price > 0.0 && 0.0 <= r.costBps < 10000.0
    ensures Proceeds(price, r) > 0.0
  {
    ProductIsPositive(price, 1.0 - Rate(r));
  }

  lemma Reinvested(capital: real, cost: real, proceeds: real)
    requires cost > 0.0
    ensures capital / cost * proceeds == capital * (proceeds / cost)
  {
  }

  lemma {:induction false} OwedIsGrowth(trades: seq<Trade>, r: Run)
    requires TradesPriced(trades) && r.costBps >= 0.0
    ensures Owed(trades, r) == r.initialCash * Growth(trades, r)
  {
    if trades == [] {
      assert r.initialCash * 1.0 == r.initialCash;
    } else {
      var t, before := trades[|trades| - 1], trades[..|trades| - 1];
      OwedIsGrowth(before, r);
      Scaled(r.initialCash, Growth(before, r), Factor(t, r), Owed(before, r));
    }
  }

  lemma Scaled(a: real, b: real, c: real, product: real)
    requires product == a * b
    ensures product * c == a * (b * c)
  {
  }

  lemma {:induction false} OwedIsPositive(trades: seq<Trade>, r: Run)
    requires TradesPriced(trades) && ExitsPriced(trades) && 0.0 <= r.costBps < 10000.0 && r.initialCash > 0.0
    ensures Owed(trades, r) > 0.0
  {
    if trades != [] {
      var t, before := trades[|trades| - 1], trades[..|trades| - 1];
      OwedIsPositive(before, r);
      FactorIsPositive(t, r);
      ProductIsPositive(Owed(before, r), Factor(t, r));
    }
  }

  lemma FactorIsPositive(t: Trade, r: Run)
    requires t.entryPrice > 0.0 && t.exitPrice > 0.0 && 0.0 <= r.costBps < 10000.0
    ensures EntryCost(t.entryPrice, r) > 0.0 && Factor(t, r) > 0.0
  {
    EntryCostsAreNotZero(t.entryPrice, r);
    ProceedsArePositive(t.exitPrice, r);
  }

  lemma {:induction false} LeavingAccounts(b: Book, i: nat, price: real, reason: ExitReason, r: Run)
    requires r.costBps >= 0.0 && Accounts(b, r) && b.held.Some?
    ensures Accounts(Leave(b, i, price, reason, r), r)
  {
    var h, t := b.held.value, Leave(b, i, price, reason, r);
    EntryCostsAreNotZero(h.entryPrice, r);
    assert t.trades[..|t.trades| - 1] == b.trades;
    Reinvested(Owed(b.trades, r), EntryCost(h.entryPrice, r), Proceeds(price, r));
    assert Factor(t.trades[|t.trades| - 1], r) == Proceeds(price, r) / EntryCost(h.entryPrice, r);
  }

  lemma {:induction false} ActingAccounts(bars: seq<Bar>, s: Series, r: Run, k: nat, b: Book)
    requires Runnable(bars, r) && Fits(|bars|, s, r.params) && 1 <= k < |bars| && Accounts(b, r)
    ensures Accounts(Act(bars, s, r, k, b), r)
  {
    if b.held.Some? {
      var raised := b.(peak := Max(b.peak, bars[k - 1].high));
      var d := EvaluateExit(bars[k], s, r.params, k, raised.peak);
      var fill := FillOf(d, bars[k], s.atr[k], r.stpLmt);
      if fill.Some? { LeavingAccounts(raised, k, fill.value.0, fill.value.1, r); }
    }
  }

  lemma {:induction false} ReplayAccounts(bars: seq<Bar>, s: Series, r: Run, k: nat)
    requires Runnable(bars, r) && Fits(|bars|, s, r.params) && k <= |bars|
    ensures Accounts(Replay(bars, s, r, k), r)
  {
    if k > First(r) {
      ReplayAccounts(bars, s, r, k - 1);
      ActingAccounts(bars, s, r, k - 1, Replay(bars, s, r, k - 1));
    }
  }

  // ---- fills ----

  /** Every exit the rules allow is a price the bar reached, on any bar whatever; on a well-formed bar it lies
      between low and high. */
  lemma FillsAreFeasible(bar: Bar, s: Series, p: Params, i: nat, peak: real, stpLmt: bool)
    requires 1 <= i < |s.atr|
    ensures var d := EvaluateExit(bar, s, p, i, peak);
            var fill := FillOf(d, bar, s.atr[i], stpLmt);
            && (fill.Some? ==> Reached(bar, fill.value.0) && !fill.value.1.StpLmtUnfilled?)
            && (d.ExitAt? ==> Reached(bar, d.price))
            && (ValidBar(bar) && fill.Some? ==> bar.low <= fill.value.0 <= bar.high)
            && (ValidBar(bar) && d.ExitAt? ==> bar.low <= d.price <= bar.high)
  {
  }

  // ---- the book, bar by bar ----

  ghost predicate TradeSound(t: Trade, bars: seq<Bar>, r: Run, k: nat)
  {
    && First(r) <= t.entry <= t.exit < k && k <= |bars|
    && t.entryPrice == bars[t.entry].close
    && Reached(bars[t.exit], t.exitPrice)
    && (ValidBar(bars[t.exit]) ==> bars[t.exit].low <= t.exitPrice <= bars[t.exit].high)
    && !t.reason.StpLmtUnfilled?
    && (t.entry == t.exit ==> t.reason.EndOfWindow?)
  }

  ghost predicate TradesSound(trades: seq<Trade>, bars: seq<Bar>, r: Run, k: nat) {
    && (forall j :: 0 <= j < |trades| ==> TradeSound(trades[j], bars, r, k))
    && (forall j :: 1 <= j < |trades| ==> trades[j - 1].exit < trades[j].entry)
  }

  /** The open position: entered within the window, after the last trade, with the peak since its entry. */
  ghost predicate HeldSound(b: Book, bars: seq<Bar>, r: Run, k: nat)
    requires k <= |bars|
  {
    b.held.Some? ==>
      var e := b.held.value.entry;
      && First(r) <= e < k
      && b.held.value.entryPrice == bars[e].close
      && b.peak == PeakSince(bars, e, PeakEnd(e, k - 1))
      && (b.trades != [] ==> b.trades[|b.trades| - 1].exit < e)
  }

  /** One entry a bar, the last one marked at the last close. */
  ghost predicate CurveSound(b: Book, r: Run, k: nat)
    requires First(r) <= k
  {
    && |b.equity| == k - First(r)
    && (k > First(r) && b.held.None? ==> b.equity[|b.equity| - 1] == b.cash)
  }

  ghost predicate CurvePositive(b: Book) { forall j :: 0 <= j < |b.equity| ==> b.equity[j] > 0.0 }

  lemma {:induction false} TradesSoundLater(trades: seq<Trade>, bars: seq<Bar>, r: Run, k: nat, n: nat)
    requires TradesSound(trades, bars, r, k) && k <= n <= |bars|
    ensures TradesSound(trades, bars, r, n)
  {
    forall j | 0 <= j < |trades| ensures TradeSound(trades[j], bars, r, n) {
      assert TradeSound(trades[j], bars, r, k);
    }
  }

  lemma {:induction false} OneMoreTrade(trades: seq<Trade>, t: Trade, bars: seq<Bar>, r: Run, k: nat)
    requires TradesSound(trades, bars, r, k) && TradeSound(t, bars, r, k)
    requires trades != [] ==> trades[|trades| - 1].exit < t.entry
    ensures TradesSound(trades + [t], bars, r, k)
  {
  }

  ghost predicate Orderly(b: Book, bars: seq<Bar>, r: Run, k: nat)
    requires k <= |bars|
  {
    TradesSound(b.trades, bars, r, k) && HeldSound(b, bars, r, k)
  }

  lemma {:induction false} LeavingIsOrderly(b: Book, bars: seq<Bar>, r: Run, k: nat, price: real, reason: ExitReason)
    requires k < |bars| && TradesSound(b.trades, bars, r, k + 1) && b.held.Some? && b.held.value.entryPrice > 0.0
    requires First(r) <= b.held.value.entry <= k && b.held.value.entryPrice == bars[b.held.value.entry].close
    requires b.trades != [] ==> b.trades[|b.trades| - 1].exit < b.held.value.entry
    requires Reached(bars[k], price) && !reason.StpLmtUnfilled?
    requires b.held.value.entry == k ==> reason.EndOfWindow?
    ensures TradesSound(Leave(b, k, price, reason, r).trades, bars, r, k + 1)
  {
    var h := b.held.value;
    OneMoreTrade(b.trades, Trade(h.entry, h.entryPrice, k, price, reason, Pnl(h.entryPrice, price)), bars, r, k + 1);
  }

  /** Bar k with an open position. */
  lemma {:induction false} HoldingIsOrderly(bars: seq<Bar>, s: Series, r: Run, k: nat, b: Book)
    requires Runnable(bars, r) && Fits(|bars|, s, r.params) && First(r) <= k < |bars|
    requires HeldIsPriced(b) && Orderly(b, bars, r, k) && b.held.Some?
    ensures Orderly(HoldOn(bars, s, r, k, b), bars, r, k + 1)
  {
    var raised := b.(peak := Max(b.peak, bars[k - 1].high));
    assert raised.peak == PeakSince(bars, b.held.value.entry, PeakEnd(b.held.value.entry, k));
    TradesSoundLater(b.trades, bars, r, k, k + 1);
    FillsAreFeasible(bars[k], s, r.params, k, raised.peak, r.stpLmt);
    var d := EvaluateExit(bars[k], s, r.params, k, raised.peak);
    var fill := FillOf(d, bars[k], s.atr[k], r.stpLmt);
    if fill.Some? { LeavingIsOrderly(raised, bars, r, k, fill.value.0, fill.value.1); }
  }

  lemma {:induction false} ActingIsOrderly(bars: seq<Bar>, s: Series, r: Run, k: nat, b: Book)
    requires Runnable(bars, r) && Fits(|bars|, s, r.params) && First(r) <= k < |bars|
    requires HeldIsPriced(b) && Orderly(b, bars, r, k)
    ensures Orderly(Act(bars, s, r, k, b), bars, r, k + 1)
  {
    if b.held.Some? {
      HoldingIsOrderly(bars, s, r, k, b);
    } else {
      TradesSoundLater(b.trades, bars, r, k, k + 1);
      if b.trades != [] { assert TradeSound(b.trades[|b.trades| - 1], bars, r, k); }
    }
  }

  lemma {:induction false} StepIsOrderly(bars: seq<Bar>, s: Series, r: Run, k: nat, b: Book)
    requires Runnable(bars, r) && Fits(|bars|, s, r.params) && First(r) <= k < |bars|
    requires HeldIsPriced(b) && Orderly(b, bars, r, k)
    ensures Orderly(Step(bars, s, r, k, b), bars, r, k + 1)
  {
    ActingIsOrderly(bars, s, r, k, b);
    MarkingIsOrderly(Act(bars, s, r, k, b), bars, r, k + 1, bars[k]);
  }

  lemma {:induction false} MarkingIsOrderly(b: Book, bars: seq<Bar>, r: Run, k: nat, bar: Bar)
    requires k <= |bars| && Orderly(b, bars, r, k)
    ensures Orderly(Mark(b, bar), bars, r, k)
  {
  }

  lemma {:induction false} ReplayIsOrderly(bars: seq<Bar>, s: Series, r: Run, k: nat)
    requires Runnable(bars, r) && Fits(|bars|, s, r.params) && First(r) <= k <= |bars|
    ensures Orderly(Replay(bars, s, r, k), bars, r, k)
  {
    if k > First(r) {
      var before := Replay(bars, s, r, k - 1);
      ReplayIsOrderly(bars, s, r, k - 1);
      StepIsOrderly(bars, s, r, k - 1, before);
      assert Replay(bars, s, r, k) == Step(bars, s, r, k - 1, before);
    }
  }

  // ---- the curve ----

  lemma {:induction false} StepCurve(bars: seq<Bar>, s: Series, r: Run, k: nat, b: Book)
    requires Runnable(bars, r) && Fits(|bars|, s, r.params) && First(r) <= k < |bars| && HeldIsPriced(b)
    requires CurveSound(b, r, k)
    ensures CurveSound(Step(bars, s, r, k, b), r, k + 1)
  {
    ActingKeepsCurve(bars, s, r, k, b);
  }

  lemma {:induction false} ActingKeepsCurve(bars: seq<Bar>, s: Series, r: Run, k: nat, b: Book)
    requires Runnable(bars, r) && Fits(|bars|, s, r.params) && 1 <= k < |bars| && HeldIsPriced(b)
    ensures Act(bars, s, r, k, b).equity == b.equity
  {
  }

  lemma {:induction false} ReplayCurve(bars: seq<Bar>, s: Series, r: Run, k: nat)
    requires Runnable(bars, r) && Fits(|bars|, s, r.params) && First(r) <= k <= |bars|
    ensures CurveSound(Replay(bars, s, r, k), r, k)
  {
    if k > First(r) {
      ReplayCurve(bars, s, r, k - 1);
      StepCurve(bars, s, r, k - 1, Replay(bars, s, r, k - 1));
    }
  }

  lemma {:induction false} SoundExitsArePriced(trades: seq<Trade>, bars: seq<Bar>, r: Run, k: nat)
    requires Solvent(bars, r) && TradesSound(trades, bars, r, k)
    ensures ExitsPriced(trades)
  {
    forall j | 0 <= j < |trades| ensures trades[j].exitPrice > 0.0 {
      assert TradeSound(trades[j], bars, r, k);
    }
  }

  lemma {:induction false} MarkedPositive(b: Book, r: Run, bar: Bar)
    requires 0.0 <= r.costBps < 10000.0 && r.initialCash > 0.0 && bar.close > 0.0
    requires Accounts(b, r) && ExitsPriced(b.trades)
    ensures b.held.Some? ==> b.cash + Worth(b.position, bar.close) > 0.0
    ensures b.held.None? ==> b.cash > 0.0
  {
    OwedIsPositive(b.trades, r);
    if b.held.Some? {
      EntryCostsAreNotZero(b.held.value.entryPrice, r);
      assert Bought(Owed(b.trades, r), b.held.value.entryPrice, r) > 0.0;
      ProductIsPositive(b.position, bar.close);
    }
  }

  lemma {:induction false} StepStaysPositive(bars: seq<Bar>, s: Series, r: Run, k: nat, b: Book)
    requires Runnable(bars, r) && Solvent(bars, r) && Fits(|bars|, s, r.params) && First(r) <= k < |bars|
    requires Accounts(b, r) && Orderly(b, bars, r, k) && CurvePositive(b)
    ensures CurvePositive(Step(bars, s, r, k, b))
  {
    var t := Act(bars, s, r, k, b);
    ActingAccounts(bars, s, r, k, b);
    ActingIsOrderly(bars, s, r, k, b);
    ActingKeepsCurve(bars, s, r, k, b);
    SoundExitsArePriced(t.trades, bars, r, k + 1);
    MarkedPositive(t, r, bars[k]);
  }

  lemma {:induction false} NextStaysPositive(bars: seq<Bar>, s: Series, r: Run, k: nat)
    requires Runnable(bars, r) && Solvent(bars, r) && Fits(|bars|, s, r.params) && First(r) <= k < |bars|
    requires CurvePositive(Replay(bars, s, r, k))
    ensures CurvePositive(Replay(bars, s, r, k + 1))
  {
    var before := Replay(bars, s, r, k);
    assert Accounts(before, r) && Orderly(before, bars, r, k) by {
      ReplayAccounts(bars, s, r, k);
      ReplayIsOrderly(bars, s, r, k);
    }
    StepStaysPositive(bars, s, r, k, before);
    NextTurn(bars, s, r, k, before);
  }

  lemma {:induction false} ReplayStaysPositive(bars: seq<Bar>, s: Series, r: Run, k: nat)
    requires Runnable(bars, r) && Solvent(bars, r) && Fits(|bars|, s, r.params) && First(r) <= k <= |bars|
    ensures CurvePositive(Replay(bars, s, r, k))
  {
    if k > First(r) {
      ReplayStaysPositive(bars, s, r, k - 1);
      NextStaysPositive(bars, s, r, k - 1);
    }
  }

  /** Settling keeps the books and ends the curve with the capital. */
  lemma {:induction false} SettlingAccounts(bars: seq<Bar>, r: Run, b: Book)
    requires Runnable(bars, r) && First(r) < r.end && Accounts(b, r) && CurveSound(b, r, r.end)
    ensures var t := Settle(bars, r, b);
            && t.held.None? && Accounts(t, r) && |t.equity| == |b.equity|
            && t.equity[|t.equity| - 1] == Owed(t.trades, r)
  {
    if b.held.Some? { LeavingAccounts(b, r.end - 1, bars[r.end - 1].close, EndOfWindow, r); }
  }

  lemma {:induction false} SettlingIsOrderly(bars: seq<Bar>, r: Run, b: Book)
    requires Runnable(bars, r) && First(r) < r.end && HeldIsPriced(b) && Orderly(b, bars, r, r.end)
    ensures TradesSound(Settle(bars, r, b).trades, bars, r, r.end)
  {
    if b.held.Some? { LeavingIsOrderly(b, bars, r, r.end - 1, bars[r.end - 1].close, EndOfWindow); }
  }

  lemma {:induction false} SettlingStaysPositive(bars: seq<Bar>, r: Run, b: Book)
    requires Runnable(bars, r) && Solvent(bars, r) && First(r) < r.end
    requires Accounts(b, r) && CurveSound(b, r, r.end) && Orderly(b, bars, r, r.end) && CurvePositive(b)
    ensures var t := Settle(bars, r, b); CurvePositive(t) && ExitsPriced(t.trades)
  {
    var t := Settle(bars, r, b);
    SettlingAccounts(bars, r, b);
    SettlingIsOrderly(bars, r, b);
    SoundExitsArePriced(t.trades, bars, r, r.end);
    OwedIsPositive(t.trades, r);
  }

  /** What a finished backtest looks like: the curve has one entry per bar; the final entry is the starting cash
      times the product over all trades of exit * (1 - c) / (entry * (1 + c)); trades follow one another without
      overlap, enter at the close, exit at a price the exit bar reached, none recorded as unfilled; and a solvent
      run keeps every entry of the curve and every exit price positive. */
  ghost predicate Finished(b: Book, bars: seq<Bar>, r: Run)
    requires r.costBps >= 0.0
  {
    && b.held.None? && TradesPriced(b.trades)
    && |b.equity| == r.end - First(r) > 0
    && b.equity[|b.equity| - 1] == r.initialCash * Growth(b.trades, r)
    && TradesSound(b.trades, bars, r, r.end)
    && (Solvent(bars, r) ==> CurvePositive(b) && ExitsPriced(b.trades))
  }

  lemma {:induction false} SettlingFinishes(bars: seq<Bar>, r: Run, b: Book)
    requires Runnable(bars, r) && First(r) < r.end
    requires Accounts(b, r) && CurveSound(b, r, r.end) && Orderly(b, bars, r, r.end)
    requires Solvent(bars, r) ==> CurvePositive(b)
    ensures Finished(Settle(bars, r, b), bars, r)
  {
    var t := Settle(bars, r, b);
    SettlingAccounts(bars, r, b);
    SettlingIsOrderly(bars, r, b);
    if Solvent(bars, r) { SettlingStaysPositive(bars, r, b); }
    CapitalIsGrowth(bars, r, t);
  }

  lemma {:induction false} CapitalIsGrowth(bars: seq<Bar>, r: Run, t: Book)
    requires r.costBps >= 0.0 && t.held.None? && Accounts(t, r) && |t.equity| == r.end - First(r) > 0
    requires t.equity[|t.equity| - 1] == Owed(t.trades, r) && TradesSound(t.trades, bars, r, r.end)
    requires Solvent(bars, r) ==> CurvePositive(t) && ExitsPriced(t.trades)
    ensures Finished(t, bars, r)
  {
    OwedIsGrowth(t.trades, r);
  }

  /** The accounting identity, with everything else a result promises, on every series of positive closes. */
  lemma BacktestAccounts(bars: seq<Bar>, r: Run)
    requires Runnable(bars, r) && First(r) < r.end
    ensures Finished(Outcome(bars, r), bars, r)
  {
    var s := SeriesOf(bars, r.params);
    SeriesFit(bars, r.params);
    ReplayAccounts(bars, s, r, r.end);
    ReplayCurve(bars, s, r, r.end);
    ReplayIsOrderly(bars, s, r, r.end);
    if Solvent(bars, r) { ReplayStaysPositive(bars, s, r, r.end); }
    SettlingFinishes(bars, r, Replay(bars, s, r, r.end));
  }

  /** Two simulations of one stop decide alike. */
  predicate DecideAlike(d: ExitDecision, batch: (bool, real, ExitReason)) {
    (d.ExitAt? <==> batch.0) && (d.ExitAt? ==> d.price == batch.1 && d.reason == batch.2)
  }

  lemma {:induction false} StopsDecideAlike(bar: Bar, s: Series, p: Params, i: nat, peak: real)
    requires 1 <= i < |s.atr| && p.exitMode.Chandelier?
    ensures var stop := StopLevel(peak, p.atrMultiple, s.atr[i]);
            DecideAlike(EvaluateExit(bar, s, p, i, peak), ExitSimulate(bar, stop)) <==> !(bar.low <= stop <= 0.0)
  {
  }

  /** The loop decides on bar k as the batch simulation does on the stop series of the open position's entry. */
  ghost predicate FollowsBatchStop(bars: seq<Bar>, r: Run, k: nat, b: Book)
    requires Runnable(bars, r) && 1 <= k < |bars|
  {
    b.held.Some? ==>
      && b.held.value.entry < k
      && Fits(|bars|, SeriesOf(bars, r.params), r.params)
      && DecideAlike(EvaluateExit(bars[k], SeriesOf(bars, r.params), r.params, k, Max(b.peak, bars[k - 1].high)),
                     ExitSimulate(bars[k],
                                  ChandelierStop(bars, b.held.value.entry, k, r.params.atrMultiple, ATR_PERIOD)))
  }

  /** The stop lies at or below zero and the bar trades at or below it: the loop has no such stop, the batch has. */
  ghost predicate OnlyBatchTriggers(bars: seq<Bar>, r: Run, k: nat, b: Book)
    requires Runnable(bars, r) && k < |bars|
  {
    && b.held.Some? && b.held.value.entry < k
    && bars[k].low <= ChandelierStop(bars, b.held.value.entry, k, r.params.atrMultiple, ATR_PERIOD) <= 0.0
  }

  lemma {:induction false} PeakFollowsStop(bars: seq<Bar>, r: Run, k: nat, b: Book)
    requires Runnable(bars, r) && First(r) <= k < |bars| && r.params.exitMode.Chandelier? && HeldSound(b, bars, r, k)
    ensures FollowsBatchStop(bars, r, k, b) <==> !OnlyBatchTriggers(bars, r, k, b)
  {
    SeriesFit(bars, r.params);
    if b.held.Some? {
      var e := b.held.value.entry;
      assert Max(b.peak, bars[k - 1].high) == PeakSince(bars, e, PeakEnd(e, k));
      assert SeriesOf(bars, r.params).atr[k] == AtrOf(History(bars, k), ATR_PERIOD);
      StopsDecideAlike(bars[k], SeriesOf(bars, r.params), r.params, k, Max(b.peak, bars[k - 1].high));
    }
  }

  /** The streaming stop is the batch stop: on any bar of an open position in chandelier mode, the loop decides
      what exit_simulate decides on the stop series chandelier_stop_entry_peak computes for that entry, except on
      a bar that trades at or below a stop at or below zero; with a positive low there is no exception. */
  lemma StreamingStopIsBatchStop(bars: seq<Bar>, r: Run, k: nat)
    requires Runnable(bars, r) && First(r) <= k < r.end && r.params.exitMode.Chandelier?
    ensures FollowsBatchStop(bars, r, k, BookAt(bars, r, k)) <==> !OnlyBatchTriggers(bars, r, k, BookAt(bars, r, k))
    ensures bars[k].low > 0.0 ==> FollowsBatchStop(bars, r, k, BookAt(bars, r, k))
  {
    SeriesFit(bars, r.params);
    ReplayIsOrderly(bars, SeriesOf(bars, r.params), r, k);
    PeakFollowsStop(bars, r, k, BookAt(bars, r, k));
  }

  // ---- no look-ahead ----

  lemma {:induction false} StepDoesNotLookAhead(a: seq<Bar>, b: seq<Bar>, s: Series, t: Series, r: Run, k: nat, i: nat, book: Book)
    requires Runnable(a, r) && Runnable(b, r) && Agree(a, b, k) && SeriesAgree(s, t, k)
    requires Fits(|a|, s, r.params) && Fits(|b|, t, r.params) && 1 <= i < k && HeldIsPriced(book)
    ensures Step(a, s, r, i, book) == Step(b, t, r, i, book)
  {
    AgreeAt(a, b, k, i);
    AgreeAt(a, b, k, i - 1);
    AgreeAt(s.atr, t.atr, k, i);
    if book.held.Some? {
      ExitDoesNotLookAhead(s, t, r.params, k, i, a[i], Max(book.peak, a[i - 1].high));
    } else {
      ClosesAgree(a, b, k);
      EntryDoesNotLookAhead(Closes(a), Closes(b), s, t, r.params, k, i);
      AgreeAt(s.adx, t.adx, k, i);
      AgreeAt(s.plusDi, t.plusDi, k, i);
      AgreeAt(s.minusDi, t.minusDi, k, i);
    }
  }

  lemma {:induction false} ReplayDoesNotLookAhead(a: seq<Bar>, b: seq<Bar>, s: Series, t: Series, r: Run, k: nat, i: nat)
    requires Runnable(a, r) && Runnable(b, r) && Agree(a, b, k) && SeriesAgree(s, t, k)
    requires Fits(|a|, s, r.params) && Fits(|b|, t, r.params) && i <= k
    ensures Replay(a, s, r, i) == Replay(b, t, r, i)
  {
    if i > First(r) {
      ReplayDoesNotLookAhead(a, b, s, t, r, k, i - 1);
      StepDoesNotLookAhead(a, b, s, t, r, k, i - 1, Replay(a, s, r, i - 1));
    }
  }

  lemma {:induction false} BookDoesNotLookAhead(a: seq<Bar>, b: seq<Bar>, r: Run, k: nat, i: nat)
    requires Runnable(a, r) && Runnable(b, r) && Agree(a, b, k) && i <= k
    ensures BookAt(a, r, i) == BookAt(b, r, i)
  {
    SeriesDoNotLookAhead(a, b, r.params, k);
    SeriesFit(a, r.params);
    SeriesFit(b, r.params);
    ReplayDoesNotLookAhead(a, b, SeriesOf(a, r.params), SeriesOf(b, r.params), r, k, i);
  }

  lemma {:induction false} SettlesAlike(a: seq<Bar>, b: seq<Bar>, r: Run, k: nat, book: Book)
    requires Agree(a, b, k) && r.end <= k && HeldIsPriced(book)
    ensures Settle(a, r, book) == Settle(b, r, book)
  {
    if r.end > 0 { AgreeAt(a, b, k, r.end - 1); }
  }

  /** A backtest that ends before bar k is the same on any two histories of one length that agree before k. */
  lemma {:induction false} BacktestDoesNotLookAhead(a: seq<Bar>, b: seq<Bar>, r: Run, k: nat)
    requires Runnable(a, r) && Runnable(b, r) && Agree(a, b, k) && r.end <= k
    ensures Outcome(a, r) == Outcome(b, r)
  {
    BookDoesNotLookAhead(a, b, r, k, r.end);
    SettlesAlike(a, b, r, k, BookAt(a, r, r.end));
  }
}
