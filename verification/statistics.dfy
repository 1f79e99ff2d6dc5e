/** Statistics of a finished backtest (_compute_stats in shared/backtest.py). */
module Statistics {
  import opened Models
  import opened Arithmetic
  import opened Indicators
  import opened Backtest

  /** The host's square root; nothing below depends on more than that it is a function. */
  type Root = real -> real

  datatype Stats = Stats(
    tradeCount: nat, winRate: real, profitFactor: real, totalReturnPct: real, maxDrawdownPct: real,
    sharpe: real, kelly: real)

  const NO_STATS: Stats := Stats(0, 0.0, 0.0, 0.0, 0.0, 0.0, 0.0)

  // ---- drawdown ----

  /** The highest entry so far. */
  function Peak(equity: seq<real>): real
    requires equity != []
  {
    if |equity| == 1 then equity[0] else Max(Peak(equity[..|equity| - 1]), equity[|equity| - 1])
  }

  /** How far `value` is below `peak`, relative to it. */
  function Fall(peak: real, value: real): real { if peak > 0.0 then (peak - value) / peak else 0.0 }

  /** The largest fall of an entry below the peak before it. */
  function Drawdown(equity: seq<real>): real {
    if equity == [] then 0.0
    else Max(Drawdown(equity[..|equity| - 1]), Fall(Peak(equity), equity[|equity| - 1]))
  }

  method MaxDrawdown(equity: seq<real>) returns (worst: real)
    requires equity != []
    ensures worst == Drawdown(equity)
  {
    var peak := equity[0];
    worst := 0.0;
    for k := 0 to |equity|
      invariant peak == if k == 0 then equity[0] else Peak(equity[..k])
      invariant worst == Drawdown(equity[..k])
    {
      assert equity[..k + 1][..k] == equity[..k];
      var v := equity[k];
      if v > peak { peak := v; }
      worst := Max(worst, Fall(peak, v));
    }
    assert equity[..|equity|] == equity;
  }

  ghost predicate Positive(equity: seq<real>) { forall k :: 0 <= k < |equity| ==> equity[k] > 0.0 }

  lemma {:induction false} PeakIsHighest(equity: seq<real>)
    requires equity != []
    ensures forall k :: 0 <= k < |equity| ==> equity[k] <= Peak(equity)
    ensures Peak(equity) in equity
  {
    if |equity| > 1 {
      var prefix := equity[..|equity| - 1];
      PeakIsHighest(prefix);
      assert forall k :: 0 <= k < |prefix| ==> prefix[k] == equity[k];
      assert equity[|equity| - 1] in equity;
      var k :| 0 <= k < |prefix| && prefix[k] == Peak(prefix);
      assert equity[k] == Peak(prefix);
    }
  }

  lemma FallTimesPeak(peak: real, value: real)
    requires peak > 0.0
    ensures Fall(peak, value) * peak == peak - value
    ensures value > 0.0 ==> Fall(peak, value) < 1.0
    ensures value >= 0.0 ==> Fall(peak, value) <= 1.0
  {
    var f := Fall(peak, value);
    assert (1.0 - f) * peak == peak - f * peak;
    Quotient(1.0 - f, peak);
  }

  /** Falling from a higher start is a deeper fall. */
  lemma FallGrows(low: real, high: real, value: real)
    requires 0.0 < low <= high && value >= 0.0
    ensures Fall(low, value) <= Fall(high, value)
  {
    var f, g := Fall(low, value), Fall(high, value);
    FallTimesPeak(low, value);
    FallTimesPeak(high, value);
    assert (g - f) * high == g * high - f * high;
    assert (high - low) * (1.0 - f) == high - low - f * high + f * low;
    ProductIsNonNegative(high - low, 1.0 - f);
    Quotient(g - f, high);
  }

  /** One pass finds the maximum drawdown: no pair i <= j falls further, and some pair falls exactly that far. */
  lemma {:induction false} DrawdownIsMaximum(equity: seq<real>)
    requires Positive(equity) && equity != []
    ensures forall i, j :: 0 <= i <= j < |equity| ==> Fall(equity[i], equity[j]) <= Drawdown(equity)
    ensures exists i, j :: 0 <= i <= j < |equity| && Fall(equity[i], equity[j]) == Drawdown(equity)
    ensures 0.0 <= Drawdown(equity) < 1.0
  {
    var n := |equity| - 1;
    PeakIsHighest(equity);
    var top :| 0 <= top <= n && equity[top] == Peak(equity);
    FallTimesPeak(equity[top], equity[n]);
    forall i | 0 <= i <= n ensures Fall(equity[i], equity[n]) <= Fall(equity[top], equity[n]) {
      FallGrows(equity[i], equity[top], equity[n]);
    }
    if n == 0 {
      assert Fall(equity[0], equity[0]) == 0.0 == Drawdown(equity[..0]);
    } else {
      var prefix := equity[..n];
      DrawdownIsMaximum(prefix);
      forall i, j | 0 <= i <= j <= n ensures Fall(equity[i], equity[j]) <= Drawdown(equity) {
        if j < n { assert Fall(prefix[i], prefix[j]) <= Drawdown(prefix); }
      }
      var i, j :| 0 <= i <= j < n && Fall(prefix[i], prefix[j]) == Drawdown(prefix);
      assert Fall(equity[i], equity[j]) == Drawdown(prefix);
    }
  }

  // ---- trades ----

  function Wins(trades: seq<Trade>): nat {
    if trades == [] then 0 else Wins(trades[..|trades| - 1]) + if trades[|trades| - 1].pnlPct > 0.0 then 1 else 0
  }

  function Losses(trades: seq<Trade>): nat {
    if trades == [] then 0 else Losses(trades[..|trades| - 1]) + if trades[|trades| - 1].pnlPct < 0.0 then 1 else 0
  }

  function GrossWin(trades: seq<Trade>): real {
    if trades == [] then 0.0
    else GrossWin(trades[..|trades| - 1]) + Max(0.0, trades[|trades| - 1].pnlPct)
  }

  function GrossLoss(trades: seq<Trade>): real {
    if trades == [] then 0.0
    else GrossLoss(trades[..|trades| - 1]) + Max(0.0, -trades[|trades| - 1].pnlPct)
  }

  function Ratio(a: real, b: real): real { if b > 0.0 then a / b else 0.0 }

  function WinRate(trades: seq<Trade>): real { Ratio(Wins(trades) as real, |trades| as real) }

  function ProfitFactor(trades: seq<Trade>): real {
    if GrossLoss(trades) > 0.0 then GrossWin(trades) / GrossLoss(trades) else Max(0.0, GrossWin(trades))
  }

  /** Kelly fraction p - (1 - p) / b from the win rate and the payoff ratio; 0 without a loss or a win. */
  function Kelly(trades: seq<Trade>): real {
    var b := Ratio(Ratio(GrossWin(trades), Wins(trades) as real), Ratio(GrossLoss(trades), Losses(trades) as real));
    if Losses(trades) > 0 && b > 0.0 then WinRate(trades) - (1.0 - WinRate(trades)) / b else 0.0
  }

  // ---- daily returns ----

  function Returns(equity: seq<real>): seq<real> {
    if |equity| < 2 then []
    else
      var n := |equity|;
      Returns(equity[..n - 1]) + if equity[n - 2] > 0.0 then [(equity[n - 1] - equity[n - 2]) / equity[n - 2]] else []
  }

  function Squares(values: seq<real>, mean: real): real {
    if values == [] then 0.0
    else Squares(values[..|values| - 1], mean) + (values[|values| - 1] - mean) * (values[|values| - 1] - mean)
  }

  function Sharpe(equity: seq<real>, root: Root): real {
    var rs := Returns(equity);
    if |equity| > 1 && |rs| > 1 then
      var mean := Sum(rs) / |rs| as real;
      var std := root(Squares(rs, mean) / (|rs| - 1) as real);
      if std > 0.0 then mean / std else 0.0
    else 0.0
  }

  function TotalReturn(equity: seq<real>): real
    requires equity != []
  {
    if equity[0] != 0.0 then (equity[|equity| - 1] - equity[0]) / equity[0] * 100.0 else 0.0
  }

  function StatsOf(trades: seq<Trade>, equity: seq<real>, root: Root): Stats {
    if trades == [] || equity == [] then NO_STATS.(tradeCount := |trades|)
    else
      Stats(|trades|, WinRate(trades), ProfitFactor(trades), TotalReturn(equity), Drawdown(equity) * 100.0,
            Sharpe(equity, root), Kelly(trades))
  }

  /** _compute_stats. */
  method ComputeStats(trades: seq<Trade>, equity: seq<real>, root: Root) returns (s: Stats)
    ensures s == StatsOf(trades, equity, root)
  {
    if trades == [] || equity == [] { return NO_STATS.(tradeCount := |trades|); }
    var wins, losses, won, lost := Tally(trades);
    var worst := MaxDrawdown(equity);
    var rate := Ratio(wins as real, |trades| as real);
    var factor := if lost > 0.0 then won / lost else Max(0.0, won);
    var b := Ratio(Ratio(won, wins as real), Ratio(lost, losses as real));
    var kelly := if losses > 0 && b > 0.0 then rate - (1.0 - rate) / b else 0.0;
    s := Stats(|trades|, rate, factor, TotalReturn(equity), worst * 100.0, Sharpe(equity, root), kelly);
  }

  method Tally(trades: seq<Trade>) returns (wins: nat, losses: nat, won: real, lost: real)
    ensures wins == Wins(trades) && losses == Losses(trades) && won == GrossWin(trades) && lost == GrossLoss(trades)
  {
    wins, losses, won, lost := 0, 0, 0.0, 0.0;
    for k := 0 to |trades|
      invariant wins == Wins(trades[..k]) && losses == Losses(trades[..k])
      invariant won == GrossWin(trades[..k]) && lost == GrossLoss(trades[..k])
    {
      assert trades[..k + 1][..k] == trades[..k];
      var pnl := trades[k].pnlPct;
      if pnl > 0.0 { wins, won := wins + 1, won + pnl; }
      if pnl < 0.0 { losses, lost := losses + 1, lost - pnl; }
    }
    assert trades[..|trades|] == trades;
  }

  lemma {:induction false} TallyBounds(trades: seq<Trade>)
    ensures Wins(trades) + Losses(trades) <= |trades|
    ensures GrossWin(trades) >= 0.0 && GrossLoss(trades) >= 0.0
    ensures Losses(trades) > 0 <==> GrossLoss(trades) > 0.0
    ensures Wins(trades) > 0 <==> GrossWin(trades) > 0.0
  {
    if trades != [] { TallyBounds(trades[..|trades| - 1]); }
  }

  /** A positive Kelly fraction, which selection insists on, is only given to a set of trades whose gains
      outweigh its losses, break-even trades counted against it. */
  lemma {:induction false} KellyNeedsProfit(trades: seq<Trade>)
    requires Kelly(trades) > 0.0
    ensures GrossWin(trades) > GrossLoss(trades) > 0.0
    ensures GrossWin(trades) * Losses(trades) as real > GrossLoss(trades) * (|trades| - Wins(trades)) as real
  {
    TallyBounds(trades);
    var n, w, l := |trades| as real, Wins(trades) as real, Losses(trades) as real;
    KellyArithmetic(n, w, l, GrossWin(trades), GrossLoss(trades));
  }

  lemma KellyArithmetic(n: real, w: real, l: real, gain: real, loss: real)
    requires 0.0 < l && 0.0 < w && w + l <= n && gain > 0.0 && loss > 0.0
    requires w / n - (1.0 - w / n) / (gain / w / (loss / l)) > 0.0
    ensures gain * l > loss * (n - w) && gain > loss
  {
    var p, b := w / n, gain / w / (loss / l);
    PayoffRatio(w, l, gain, loss);
    assert b > 0.0;
    assert (1.0 - p) / b * b == 1.0 - p;
    assert (p - (1.0 - p) / b) * b > 0.0;
    assert p * b > 1.0 - p;
    WinsTimesPayoff(n, w, l, gain, loss, b);
    MoreGain(n, w, l, gain, loss);
  }

  lemma PayoffRatio(w: real, l: real, gain: real, loss: real)
    requires w > 0.0 && l > 0.0 && gain > 0.0 && loss > 0.0
    ensures gain / w / (loss / l) == gain * l / (w * loss)
    ensures gain / w / (loss / l) > 0.0
  {
    assert loss / l > 0.0 && gain / w > 0.0 && w * loss > 0.0;
    var q := gain / w / (loss / l);
    assert q * (loss / l) == gain / w;
    assert q * (loss / l) * (w * l) == gain / w * (w * l);
    assert q * (loss / l) * (w * l) == q * (loss * w) * (l / l);
    assert gain / w * (w * l) == gain * l * (w / w);
  }

  lemma WinsTimesPayoff(n: real, w: real, l: real, gain: real, loss: real, b: real)
    requires n > 0.0 && w > 0.0 && l > 0.0 && gain > 0.0 && loss > 0.0
    requires b == gain * l / (w * loss) && w / n * b > 1.0 - w / n
    ensures gain * l > loss * (n - w)
  {
    var p := w / n;
    assert w * loss > 0.0 && n * loss > 0.0;
    assert p * n == w;
    assert b * (w * loss) == gain * l;
    var edge := p * b - (1.0 - p);
    Rescale(p, b, n, w, loss, gain * l);
    ProductIsPositive(edge, n * loss);
  }

  lemma Rescale(p: real, b: real, n: real, w: real, loss: real, gained: real)
    requires p * n == w && b * (w * loss) == gained
    ensures (p * b - (1.0 - p)) * (n * loss) == gained - loss * (n - w)
  {
    calc {
      (p * b - (1.0 - p)) * (n * loss);
    ==
      p * n * b * loss - (n - p * n) * loss;
    ==
      w * b * loss - (n - w) * loss;
    ==
      b * (w * loss) - loss * (n - w);
    }
  }

  lemma MoreGain(n: real, w: real, l: real, gain: real, loss: real)
    requires 0.0 < l <= n - w && gain > 0.0 && loss > 0.0 && gain * l > loss * (n - w)
    ensures gain > loss
  {
    assert loss * (n - w) >= loss * l;
    assert (gain - loss) * l == gain * l - loss * l;
    Quotient(gain - loss, l);
  }
}
