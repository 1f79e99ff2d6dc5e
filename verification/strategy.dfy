/** The strategy rules (shared/strategy_evaluator.py, shared/alpha_model.py): decisions on completed bars. */
module Strategy {
  import opened Models
  import opened Indicators

  const ATR_PERIOD: nat := 22
  const MA_SLOPE_PERIOD: nat := 20

  datatype EntryMode = Pullback | Breakout | Hybrid | Momentum | Donchian | GoldenCross

  datatype ExitMode = Chandelier | CrossOnly | ChandelierOrCross

  datatype Params = Params(
    entryMode: EntryMode, exitMode: ExitMode, maPeriod: nat, buffer: real, atrMultiple: real,
    fastPeriod: nat, slowPeriod: nat, adxFilter: bool, adxDirection: bool, adxThreshold: real, adxPeriod: nat)

  /** Every period is one an indicator can divide by. */
  predicate Usable(p: Params) { p.maPeriod > 0 && p.fastPeriod > 0 && p.slowPeriod > 0 && p.adxPeriod > 0 }

  /** The series an evaluator computes once; a series the parameters do not need is []. */
  datatype Series = Series(
    mas: seq<real>, slopes: seq<real>, atr: seq<real>, fastMa: seq<real>, slowMa: seq<real>,
    adx: seq<real>, plusDi: seq<real>, minusDi: seq<real>)

  predicate NeedsFast(p: Params) { p.entryMode.GoldenCross? || !p.exitMode.Chandelier? }

  predicate NeedsAdx(p: Params) { p.adxFilter || p.adxDirection }

  // ---- the series as functions of the bars ----

  function SmaSeries(values: seq<real>, period: nat): (r: seq<real>)
    requires period > 0
    ensures |r| == |values| && forall i :: 0 <= i < |r| ==> r[i] == SmaOf(History(values, i), period)
  {
    seq(|values|, i requires 0 <= i < |values| => SmaOf(History(values, i), period))
  }

  function SlopeSeries(values: seq<real>, period: nat): (r: seq<real>)
    requires period > 0
    ensures |r| == |values| && forall i :: 0 <= i < |r| ==> r[i] == SlopeOf(History(values, i), period, MA_SLOPE_PERIOD)
  {
    seq(|values|, i requires 0 <= i < |values| => SlopeOf(History(values, i), period, MA_SLOPE_PERIOD))
  }

  function AtrSeries(bars: seq<Bar>): (r: seq<real>)
    ensures |r| == |bars| && forall i :: 0 <= i < |r| ==> r[i] == AtrOf(History(bars, i), ATR_PERIOD)
  {
    seq(|bars|, i requires 0 <= i < |bars| => AtrOf(History(bars, i), ATR_PERIOD))
  }

  datatype AdxLine = AdxLine | PlusLine | MinusLine

  function AdxValue(line: AdxLine, history: seq<Bar>, period: nat, enough: bool): real
    requires period > 0
  {
    match line
    case AdxLine => AdxOf(history, period)
    case PlusLine => if enough then PlusDiOf(history, period) else 0.0
    case MinusLine => if enough then MinusDiOf(history, period) else 0.0
  }

  function AdxSeries(line: AdxLine, bars: seq<Bar>, period: nat): (r: seq<real>)
    requires period > 0
    ensures |r| == |bars|
    ensures forall i :: 0 <= i < |r| ==> r[i] == AdxValue(line, History(bars, i), period, |bars| >= 2 * period)
  {
    seq(|bars|, i requires 0 <= i < |bars| => AdxValue(line, History(bars, i), period, |bars| >= 2 * period))
  }

  function Zeros(n: nat): (r: seq<real>)
    ensures |r| == n && forall i :: 0 <= i < n ==> r[i] == 0.0
  {
    seq(n, _ => 0.0)
  }

  function SeriesOf(bars: seq<Bar>, p: Params): Series
    requires Usable(p)
  {
    var closes := Closes(bars);
    Series(
      SmaSeries(closes, p.maPeriod), SlopeSeries(closes, p.maPeriod), AtrSeries(bars),
      if NeedsFast(p) then SmaSeries(closes, p.fastPeriod) else [],
      if p.exitMode.Chandelier? then [] else SmaSeries(closes, p.slowPeriod),
      if NeedsAdx(p) then AdxSeries(AdxLine.AdxLine, bars, p.adxPeriod) else Zeros(|bars|),
      if NeedsAdx(p) then AdxSeries(PlusLine, bars, p.adxPeriod) else Zeros(|bars|),
      if NeedsAdx(p) then AdxSeries(MinusLine, bars, p.adxPeriod) else Zeros(|bars|))
  }

  /** The evaluator's constructor: the array passes compute exactly those functions. */
  method Compile(bars: seq<Bar>, p: Params) returns (s: Series)
    requires Usable(p)
    ensures s == SeriesOf(bars, p)
  {
    var closes := Closes(bars);
    var mas := Sma(closes, p.maPeriod);
    var slopes := MaSlope(closes, p.maPeriod, MA_SLOPE_PERIOD);
    var atr := Atr(bars, ATR_PERIOD);
    var fast, slow := [], [];
    if NeedsFast(p) { fast := Sma(closes, p.fastPeriod); }
    if !p.exitMode.Chandelier? { slow := Sma(closes, p.slowPeriod); }
    var adx, plus, minus := Zeros(|bars|), Zeros(|bars|), Zeros(|bars|);
    if NeedsAdx(p) { adx, plus, minus := AdxDi(bars, p.adxPeriod); }
    s := Series(mas, slopes, atr, fast, slow, adx, plus, minus);
    assert mas == SmaSeries(closes, p.maPeriod) && slopes == SlopeSeries(closes, p.maPeriod) && atr == AtrSeries(bars);
    assert NeedsFast(p) ==> fast == SmaSeries(closes, p.fastPeriod);
    assert !p.exitMode.Chandelier? ==> slow == SmaSeries(closes, p.slowPeriod);
    if NeedsAdx(p) {
      assert adx == AdxSeries(AdxLine.AdxLine, bars, p.adxPeriod);
      assert plus == AdxSeries(PlusLine, bars, p.adxPeriod) && minus == AdxSeries(MinusLine, bars, p.adxPeriod);
    }
  }

  // ---- entry ----

  function Highest(s: seq<real>): real
    requires s != []
  {
    if |s| == 1 then s[0] else Max(Highest(s[..|s| - 1]), s[|s| - 1])
  }

  predicate Fits(n: nat, s: Series, p: Params) {
    && |s.mas| == |s.slopes| == |s.atr| == |s.adx| == |s.plusDi| == |s.minusDi| == n
    && (s.fastMa == [] || |s.fastMa| == n)
    && (p.exitMode.Chandelier? || (|s.fastMa| == n && |s.slowMa| == n))
  }

  lemma SeriesFit(bars: seq<Bar>, p: Params)
    requires Usable(p)
    ensures Fits(|bars|, SeriesOf(bars, p), p)
  {
  }

  predicate CrossesUp(fast: seq<real>, slow: seq<real>, i: nat)
    requires 1 <= i < |fast| && i < |slow|
  {
    && fast[i] > 0.0 && slow[i] > 0.0 && fast[i - 1] > 0.0 && slow[i - 1] > 0.0
    && fast[i] > slow[i] && fast[i - 1] <= slow[i - 1]
  }

  /** entry_rule: may the completed bar i start a position? */
  predicate EntryRule(closes: seq<real>, s: Series, p: Params, i: nat)
    requires Fits(|closes|, s, p)
  {
    if i < 1 || i >= |closes| then false
    else
      var close, ma := closes[i], s.mas[i];
      match p.entryMode
      case Pullback =>
        && (exists j :: 1 <= j <= i && i - 4 <= j && s.mas[j] > 0.0 && closes[j] > s.mas[j])
        && s.slopes[i] > 0.0 && ma > 0.0 && Abs(close - ma) / ma <= p.buffer
      case Breakout =>
        && s.mas[i - 1] > 0.0 && closes[i - 1] < s.mas[i - 1]
        && (close > ma || (if ma > 0.0 then Abs((close - ma) / ma) else 1.0) <= p.buffer)
      case Hybrid => ma > 0.0 && Abs(close - ma) / ma <= p.buffer
      case Momentum => ma > 0.0 && s.slopes[i] > 0.0 && close > ma
      case Donchian => 0 < p.maPeriod <= i && close > Highest(closes[i - p.maPeriod..i])
      case GoldenCross => s.fastMa != [] && CrossesUp(s.fastMa, s.mas, i)
  }

  /** RuleBasedAlpha.generate: the bars of the window on which the entry rule holds, in order. */
  method GenerateAlpha(closes: seq<real>, s: Series, p: Params, start: nat, end: nat) returns (signals: seq<nat>)
    requires Fits(|closes|, s, p)
    ensures forall i: nat :: i in signals <==> start <= i < end && EntryRule(closes, s, p, i)
    ensures forall j, k :: 0 <= j < k < |signals| ==> signals[j] < signals[k]
  {
    signals := [];
    var i := start;
    while i < end && i < |closes|
      invariant start <= i
      invariant forall k: nat :: k in signals <==> start <= k < i && k < end && EntryRule(closes, s, p, k)
      invariant forall j, k :: 0 <= j < k < |signals| ==> signals[j] < signals[k]
      invariant i > start ==> i <= end && i <= |closes|
    {
      assert forall k :: 0 <= k < |signals| ==> signals[k] in signals;
      if EntryRule(closes, s, p, i) { signals := signals + [i]; }
      i := i + 1;
    }
  }

  /** The ADX and direction filters every candidate has to pass. */
  predicate PassesFilters(s: Series, p: Params, i: nat)
    requires i < |s.adx| == |s.plusDi| == |s.minusDi|
  {
    (p.adxFilter ==> s.adx[i] > p.adxThreshold) && (p.adxDirection ==> s.plusDi[i] > s.minusDi[i])
  }

  /** evaluate_entry for a candidate the alpha model proposed. */
  predicate Enters(candidate: bool, s: Series, p: Params, i: nat)
    requires i < |s.adx| == |s.plusDi| == |s.minusDi|
  {
    candidate && PassesFilters(s, p, i)
  }

  // ---- exit ----

  /** dead_cross: the fast average falls below the slow one, both being valid on both bars. */
  predicate DeadCross(fast: seq<real>, slow: seq<real>, i: nat) {
    if i < 1 || i >= |fast| || i >= |slow| then false
    else
      && fast[i] > 0.0 && slow[i] > 0.0 && fast[i - 1] > 0.0 && slow[i - 1] > 0.0
      && fast[i] < slow[i] && fast[i - 1] >= slow[i - 1]
  }

  datatype ExitDecision = Stay | ExitAt(reason: ExitReason, price: real, stop: Option<real>)

  /** current_stop: no stop in cross mode, and none at or below zero. */
  function CurrentStop(p: Params, peak: real, atr: real): Option<real> {
    if p.exitMode.CrossOnly? then None
    else
      var stop := StopLevel(peak, p.atrMultiple, atr);
      if stop > 0.0 then Some(stop) else None
  }

  /** evaluate_exit: the stop has priority over the cross. */
  function EvaluateExit(bar: Bar, s: Series, p: Params, i: nat, peak: real): ExitDecision
    requires 1 <= i < |s.atr|
  {
    var stop := CurrentStop(p, peak, s.atr[i]);
    if stop.Some? && bar.low <= stop.value then
      if bar.open < stop.value then ExitAt(GapOpen, bar.open, stop) else ExitAt(StopHit, stop.value, stop)
    else if !p.exitMode.Chandelier? && DeadCross(s.fastMa, s.slowMa, i) then ExitAt(MaCross, bar.close, stop)
    else Stay
  }

  // ---- warm-up ----

  /** No entry before the moving average has a full window, whatever the mode. */
  lemma NoEntryBeforeWarmUp(bars: seq<Bar>, p: Params, i: nat)
    requires Usable(p) && Fits(|Closes(bars)|, SeriesOf(bars, p), p) && EntryRule(Closes(bars), SeriesOf(bars, p), p, i)
    ensures p.maPeriod - 1 <= i < |bars|
  {
    var s := SeriesOf(bars, p);
    assert s.mas[i] == SmaOf(History(Closes(bars), i), p.maPeriod);
    assert s.mas[i - 1] == SmaOf(History(Closes(bars), i - 1), p.maPeriod);
  }

  /** With the ADX filter on, nothing enters before ADX is valid. */
  lemma FilterNeedsWarmAdx(bars: seq<Bar>, p: Params, i: nat)
    requires Usable(p) && p.adxFilter && p.adxThreshold >= 0.0 && i < |bars|
    requires PassesFilters(SeriesOf(bars, p), p, i)
    ensures i >= 2 * p.adxPeriod - 1
  {
    assert SeriesOf(bars, p).adx[i] == AdxOf(History(bars, i), p.adxPeriod);
  }

  /** A dead cross needs both averages valid on the bar before as well. */
  lemma CrossNeedsWarmAverages(bars: seq<Bar>, p: Params, i: nat)
    requires Usable(p) && !p.exitMode.Chandelier?
    requires DeadCross(SeriesOf(bars, p).fastMa, SeriesOf(bars, p).slowMa, i)
    ensures p.fastPeriod <= i < |bars| && p.slowPeriod <= i
    ensures !CrossesUp(SeriesOf(bars, p).fastMa, SeriesOf(bars, p).slowMa, i)
  {
    var s := SeriesOf(bars, p);
    assert s.fastMa[i - 1] == SmaOf(History(Closes(bars), i - 1), p.fastPeriod);
    assert s.slowMa[i - 1] == SmaOf(History(Closes(bars), i - 1), p.slowPeriod);
  }

  // ---- completed bars only ----

  /** Two series of one length that agree on everything before bar k. */
  ghost predicate Agree<T>(a: seq<T>, b: seq<T>, k: nat) { |a| == |b| && k <= |a| && a[..k] == b[..k] }

  ghost predicate SeriesAgree(s: Series, t: Series, k: nat) {
    && Agree(s.mas, t.mas, k) && Agree(s.slopes, t.slopes, k) && Agree(s.atr, t.atr, k)
    && Agree(s.adx, t.adx, k) && Agree(s.plusDi, t.plusDi, k) && Agree(s.minusDi, t.minusDi, k)
    && (s.fastMa == [] == t.fastMa || Agree(s.fastMa, t.fastMa, k))
    && (s.slowMa == [] == t.slowMa || Agree(s.slowMa, t.slowMa, k))
  }

  lemma {:induction false} SameHistories<T>(a: seq<T>, b: seq<T>, k: nat)
    requires Agree(a, b, k)
    ensures forall i :: 0 <= i < k ==> History(a, i) == History(b, i)
  {
    forall i | 0 <= i < k ensures History(a, i) == History(b, i) {
      assert a[..i + 1] == a[..k][..i + 1];
      assert b[..i + 1] == b[..k][..i + 1];
    }
  }

  lemma {:induction false} ClosesAgree(a: seq<Bar>, b: seq<Bar>, k: nat)
    requires Agree(a, b, k)
    ensures Agree(Closes(a), Closes(b), k)
  {
    forall i | 0 <= i < k ensures Closes(a)[i] == Closes(b)[i] {
      assert a[i] == a[..k][i] == b[..k][i] == b[i];
    }
  }

  lemma {:induction false} SmaSeriesAgree(a: seq<real>, b: seq<real>, period: nat, k: nat)
    requires Agree(a, b, k) && period > 0
    ensures Agree(SmaSeries(a, period), SmaSeries(b, period), k)
    ensures Agree(SlopeSeries(a, period), SlopeSeries(b, period), k)
  {
    SameHistories(a, b, k);
  }

  lemma {:induction false} BarSeriesAgree(a: seq<Bar>, b: seq<Bar>, period: nat, k: nat)
    requires Agree(a, b, k) && period > 0
    ensures Agree(AtrSeries(a), AtrSeries(b), k)
    ensures forall line :: Agree(AdxSeries(line, a, period), AdxSeries(line, b, period), k)
  {
    SameHistories(a, b, k);
  }

  /** No indicator looks ahead: the series of two histories agree as far as the histories do. */
  lemma {:induction false} SeriesDoNotLookAhead(a: seq<Bar>, b: seq<Bar>, p: Params, k: nat)
    requires Usable(p) && Agree(a, b, k)
    ensures SeriesAgree(SeriesOf(a, p), SeriesOf(b, p), k)
  {
    ClosesAgree(a, b, k);
    SmaSeriesAgree(Closes(a), Closes(b), p.maPeriod, k);
    SmaSeriesAgree(Closes(a), Closes(b), p.fastPeriod, k);
    SmaSeriesAgree(Closes(a), Closes(b), p.slowPeriod, k);
    BarSeriesAgree(a, b, p.adxPeriod, k);
  }

  lemma {:induction false} AgreeAt<T>(a: seq<T>, b: seq<T>, k: nat, i: nat)
    requires Agree(a, b, k) && i < k
    ensures a[i] == b[i] && a[..i + 1] == b[..i + 1]
  {
    assert a[i] == a[..k][i] == b[..k][i] == b[i];
    SameHistories(a, b, k);
    assert History(a, i) == History(b, i);
  }

  /** The entry rule on bar i depends on nothing after bar i. */
  lemma {:induction false} EntryDoesNotLookAhead(a: seq<real>, b: seq<real>, s: Series, t: Series, p: Params, k: nat, i: nat)
    requires Agree(a, b, k) && SeriesAgree(s, t, k) && Fits(|a|, s, p) && Fits(|b|, t, p) && i < k
    ensures EntryRule(a, s, p, i) <==> EntryRule(b, t, p, i)
  {
    if i >= 1 {
      forall j | 0 <= j <= i
        ensures a[j] == b[j] && s.mas[j] == t.mas[j] && s.slopes[j] == t.slopes[j]
        ensures s.fastMa != [] ==> t.fastMa != [] && s.fastMa[j] == t.fastMa[j]
      {
        AgreeAt(a, b, k, j);
        AgreeAt(s.mas, t.mas, k, j);
        AgreeAt(s.slopes, t.slopes, k, j);
        if s.fastMa != [] { AgreeAt(s.fastMa, t.fastMa, k, j); }
      }
      if p.entryMode.Donchian? && 0 < p.maPeriod <= i {
        assert a[i - p.maPeriod..i] == b[i - p.maPeriod..i];
      }
    }
  }

  lemma {:induction false} ExitDoesNotLookAhead(s: Series, t: Series, p: Params, k: nat, i: nat, bar: Bar, peak: real)
    requires SeriesAgree(s, t, k) && 1 <= i < k && Fits(|s.atr|, s, p) && Fits(|s.atr|, t, p)
    ensures EvaluateExit(bar, s, p, i, peak) == EvaluateExit(bar, t, p, i, peak)
  {
    AgreeAt(s.atr, t.atr, k, i);
    if !p.exitMode.Chandelier? {
      AgreeAt(s.fastMa, t.fastMa, k, i);
      AgreeAt(s.fastMa, t.fastMa, k, i - 1);
      AgreeAt(s.slowMa, t.slowMa, k, i);
      AgreeAt(s.slowMa, t.slowMa, k, i - 1);
    }
  }
}
