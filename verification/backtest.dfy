/** The bar-by-bar backtest of one parameter set (run_backtest in shared/backtest.py). */
module Backtest {
  import opened Models
  import opened Indicators
  import opened Strategy

  datatype Trade = Trade(
    entry: nat, entryPrice: real, exit: nat, exitPrice: real, reason: ExitReason, pnlPct: real)

  /** The position that is open: where and at what price it was entered. */
  datatype Held = Held(entry: nat, entryPrice: real, reason: ExitReason)

  /** The local variables of the loop. */
  datatype Book = Book(
    cash: real, position: real, peak: real, held: Option<Held>, trades: seq<Trade>, equity: seq<real>)

  /** A run: parameters, cost per side in basis points, stop-limit fills or not, window, starting cash. */
  datatype Run = Run(params: Params, costBps: real, stpLmt: bool, start: nat, end: nat, initialCash: real)

  function Rate(r: Run): real { r.costBps / 10000.0 }

  /** The first bar the loop looks at. */
  function First(r: Run): nat { if r.start < 1 then 1 else r.start }

  ghost predicate Priced(bars: seq<Bar>) { forall i :: 0 <= i < |bars| ==> bars[i].close > 0.0 }

  /** What the source divides by is positive and the window lies within the data. */
  ghost predicate Runnable(bars: seq<Bar>, r: Run) {
    Priced(bars) && Usable(r.params) && r.costBps >= 0.0 && r.end <= |bars|
  }

  function Start(r: Run): Book { Book(r.initialCash, 0.0, 0.0, None, [], []) }

  function EntryCost(price: real, r: Run): real { price * (1.0 + Rate(r)) }

  function Worth(quantity: real, price: real): real { quantity * price }

  function Proceeds(price: real, r: Run): real { price * (1.0 - Rate(r)) }

  function Pnl(entryPrice: real, exitPrice: real): real
    requires entryPrice != 0.0
  {
    (exitPrice - entryPrice) / entryPrice * 100.0
  }

  lemma EntryCostsAreNotZero(price: real, r: Run)
    requires price > 0.0 && r.costBps >= 0.0
    ensures EntryCost(price, r) > 0.0
  {
    assert Rate(r) >= 0.0;
  }

  /** The price a triggered exit is filled at. A stop with a limit one ATR below it fills only when the bar
      trades down to the limit. */
  function FillOf(d: ExitDecision, bar: Bar, atr: real, stpLmt: bool): Option<(real, ExitReason)> {
    if d.Stay? then None
    else if (d.reason.StopHit? || d.reason.GapOpen?) && d.stop.Some? && stpLmt then
      var limit := d.stop.value - atr;
      if bar.low <= limit then Some((Min(bar.open, limit), StpLmtFill)) else None
    else Some((d.price, d.reason))
  }

  function Enter(b: Book, i: nat, bar: Bar, r: Run): Book
    requires bar.close > 0.0 && r.costBps >= 0.0
  {
    EntryCostsAreNotZero(bar.close, r);
    b.(cash := 0.0, position := b.cash / EntryCost(bar.close, r), peak := bar.high,
       held := Some(Held(i, bar.close, NoReason)))
  }

  function Leave(b: Book, i: nat, price: real, reason: ExitReason, r: Run): Book
    requires b.held.Some? && b.held.value.entryPrice != 0.0
  {
    var h := b.held.value;
    b.(cash := Worth(b.position, Proceeds(price, r)), position := 0.0, held := None,
       trades := b.trades + [Trade(h.entry, h.entryPrice, i, price, reason, Pnl(h.entryPrice, price))])
  }

  ghost predicate HeldIsPriced(b: Book) { b.held.Some? ==> b.held.value.entryPrice > 0.0 }

  /** Bar i with a position open: the peak takes in the bar before, then the exit rules decide. */
  function HoldOn(bars: seq<Bar>, s: Series, r: Run, i: nat, b: Book): (t: Book)
    requires 1 <= i < |bars| && Fits(|bars|, s, r.params) && b.held.Some? && b.held.value.entryPrice > 0.0
    ensures HeldIsPriced(t)
  {
    var raised := b.(peak := Max(b.peak, bars[i - 1].high));
    var d := EvaluateExit(bars[i], s, r.params, i, raised.peak);
    var fill := FillOf(d, bars[i], s.atr[i], r.stpLmt);
    if fill.Some? then Leave(raised, i, fill.value.0, fill.value.1, r)
    else if d.ExitAt? then raised.(held := Some(raised.held.value.(reason := StpLmtUnfilled)))
    else raised
  }

  /** Net value at the close of the bar. */
  function Mark(b: Book, bar: Bar): Book {
    b.(equity := b.equity + [if b.held.Some? then b.cash + Worth(b.position, bar.close) else b.cash])
  }

  /** One turn of the loop. */
  function Step(bars: seq<Bar>, s: Series, r: Run, i: nat, b: Book): (t: Book)
    requires Runnable(bars, r) && 1 <= i < |bars| && Fits(|bars|, s, r.params) && HeldIsPriced(b)
    ensures HeldIsPriced(t)
  {
    Mark(Act(bars, s, r, i, b), bars[i])
  }

  function Act(bars: seq<Bar>, s: Series, r: Run, i: nat, b: Book): (t: Book)
    requires Runnable(bars, r) && 1 <= i < |bars| && Fits(|bars|, s, r.params) && HeldIsPriced(b)
    ensures HeldIsPriced(t)
  {
    if b.held.Some? then HoldOn(bars, s, r, i, b)
    else if Enters(EntryRule(Closes(bars), s, r.params, i), s, r.params, i) then Enter(b, i, bars[i], r)
    else b
  }

  /** The book before bar k. */
  function Replay(bars: seq<Bar>, s: Series, r: Run, k: nat): (b: Book)
    requires Runnable(bars, r) && k <= |bars| && Fits(|bars|, s, r.params)
    ensures HeldIsPriced(b)
  {
    if k <= First(r) then Start(r) else Step(bars, s, r, k - 1, Replay(bars, s, r, k - 1))
  }

  /** A position still open after the last bar is sold at its close, and the last equity entry is the cash. */
  function Settle(bars: seq<Bar>, r: Run, b: Book): Book
    requires r.end <= |bars| && HeldIsPriced(b)
  {
    if b.held.Some? && r.end > 0 then
      var sold := Leave(b, r.end - 1, bars[r.end - 1].close, EndOfWindow, r);
      if sold.equity == [] then sold else sold.(equity := sold.equity[..|sold.equity| - 1] + [sold.cash])
    else b
  }

  /** The book a run holds before bar k. */
  function BookAt(bars: seq<Bar>, r: Run, k: nat): (b: Book)
    requires Runnable(bars, r) && k <= |bars|
    ensures HeldIsPriced(b)
  {
    SeriesFit(bars, r.params);
    Replay(bars, SeriesOf(bars, r.params), r, k)
  }

  function Outcome(bars: seq<Bar>, r: Run): Book
    requires Runnable(bars, r)
  {
    Settle(bars, r, BookAt(bars, r, r.end))
  }

  lemma {:induction false} NextTurn(bars: seq<Bar>, s: Series, r: Run, i: nat, before: Book)
    requires Runnable(bars, r) && First(r) <= i < |bars| && Fits(|bars|, s, r.params)
    requires before == Replay(bars, s, r, i)
    ensures Replay(bars, s, r, i + 1) == Step(bars, s, r, i, before)
  {
  }

  /** run_backtest up to the statistics: the loop over the window with its local variables. */
  method RunBacktest(bars: seq<Bar>, r: Run) returns (trades: seq<Trade>, equity: seq<real>)
    requires Runnable(bars, r)
    ensures trades == Outcome(bars, r).trades && equity == Outcome(bars, r).equity
  {
    SeriesFit(bars, r.params);
    var s := Compile(bars, r.params);
    var b := WalkBars(bars, s, r);
    trades, equity := CloseOut(bars, r, b);
  }

  /** The loop over the window. */
  method WalkBars(bars: seq<Bar>, s: Series, r: Run) returns (b: Book)
    requires Runnable(bars, r) && Fits(|bars|, s, r.params)
    ensures b == Replay(bars, s, r, r.end)
  {
    var signals := GenerateAlpha(Closes(bars), s, r.params, First(r), r.end);
    b := Start(r);
    for i := First(r) to if r.end < First(r) then First(r) else r.end
      invariant i <= r.end ==> b == Replay(bars, s, r, i)
      invariant i > r.end ==> b == Start(r)
    {
      ghost var before := b;
      b := Turn(bars, s, r, i, i in signals, b);
      NextTurn(bars, s, r, i, before);
    }
  }

  /** Settlement of a position the window cuts off. */
  method CloseOut(bars: seq<Bar>, r: Run, b: Book) returns (trades: seq<Trade>, equity: seq<real>)
    requires r.end <= |bars| && HeldIsPriced(b)
    ensures trades == Settle(bars, r, b).trades && equity == Settle(bars, r, b).equity
  {
    trades, equity := b.trades, b.equity;
    if b.held.Some? && r.end > 0 {
      var h, price := b.held.value, bars[r.end - 1].close;
      var cash := Worth(b.position, Proceeds(price, r));
      trades := trades + [Trade(h.entry, h.entryPrice, r.end - 1, price, EndOfWindow, Pnl(h.entryPrice, price))];
      if equity != [] { equity := equity[..|equity| - 1] + [cash]; }
    }
  }

  /** The loop body. */
  method Turn(bars: seq<Bar>, s: Series, r: Run, i: nat, signal: bool, before: Book) returns (b: Book)
    requires Runnable(bars, r) && 1 <= i < |bars| && Fits(|bars|, s, r.params) && HeldIsPriced(before)
    requires signal <==> EntryRule(Closes(bars), s, r.params, i)
    ensures b == Step(bars, s, r, i, before)
  {
    var bar := bars[i];
    b := before;
    if before.held.None? {
      if Enters(signal, s, r.params, i) {
        EntryCostsAreNotZero(bar.close, r);
        b := b.(position := b.cash / EntryCost(bar.close, r));
        b := b.(peak := bar.high);
        b := b.(held := Some(Held(i, bar.close, NoReason)));
        b := b.(cash := 0.0);
        assert b == Enter(before, i, bar, r);
      }
    } else {
      if bars[i - 1].high > b.peak { b := b.(peak := bars[i - 1].high); }
      assert b == before.(peak := Max(before.peak, bars[i - 1].high));
      var d := EvaluateExit(bar, s, r.params, i, b.peak);
      if d.ExitAt? { b := Exit(bar, s.atr[i], r, i, d, b); }
      assert b == HoldOn(bars, s, r, i, before);
    }
    assert b == Act(bars, s, r, i, before);
    var value := b.cash;
    if b.held.Some? { value := b.cash + Worth(b.position, bar.close); }
    b := b.(equity := b.equity + [value]);
  }

  /** The fill simulation of a triggered exit and, when it fills, the booking. */
  method Exit(bar: Bar, atr: real, r: Run, i: nat, d: ExitDecision, before: Book) returns (b: Book)
    requires before.held.Some? && before.held.value.entryPrice > 0.0 && d.ExitAt?
    ensures b == match FillOf(d, bar, atr, r.stpLmt)
                 case Some(fill) => Leave(before, i, fill.0, fill.1, r)
                 case None => before.(held := Some(before.held.value.(reason := StpLmtUnfilled)))
  {
    b := before;
    var h := before.held.value;
    var now: Option<(real, ExitReason)> := None;
    if (d.reason.StopHit? || d.reason.GapOpen?) && d.stop.Some? && r.stpLmt {
      var limit := d.stop.value - atr;
      if bar.low <= limit {
        now := Some((Min(bar.open, limit), StpLmtFill));
      } else {
        b := b.(held := Some(h.(reason := StpLmtUnfilled)));
      }
    } else {
      now := Some((d.price, d.reason));
    }
    if now.Some? {
      var (price, reason) := now.value;
      b := b.(cash := Worth(b.position, Proceeds(price, r)));
      b := b.(trades := b.trades + [Trade(h.entry, h.entryPrice, i, price, reason, Pnl(h.entryPrice, price))]);
      b := b.(held := None, position := 0.0);
    }
  }
}
