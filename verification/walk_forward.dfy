/** Four-fold nested walk-forward (research/walk_forward.py, research/pipeline.py). */
module WalkForward {
  import opened Models
  import opened Indicators
  import opened Strategy
  import opened Backtest
  import opened BacktestLaws
  import opened Statistics
  import opened Selection

  const INITIAL_CASH: real := 100000.0
  const FOLDS: nat := 4
  const MIN_OOS_TRADES_LOW_FREQ: nat := 1
  const LOW_FREQ_MA_THRESHOLD: nat := 100
  const INNER_VALIDATION_MIN_BARS: nat := 42

  datatype WindowMode = Anchored | Rolling

  /** Training [trainStart, trainEnd) with its validation tail from innerStart; testing [trainEnd, testEnd). */
  datatype Window = Window(trainStart: nat, innerStart: nat, trainEnd: nat, testEnd: nat)

  /** What every backtest of one walk-forward shares. */
  datatype Setting = Setting(grid: seq<Params>, costBps: real, mode: WindowMode, minTrades: nat, root: Root)

  ghost predicate AllUsable(ps: seq<Params>) { forall k :: 0 <= k < |ps| ==> Usable(ps[k]) }

  ghost predicate Ready(bars: seq<Bar>, g: Setting) {
    && Priced(bars) && g.costBps >= 0.0 && g.grid != []
    && AllUsable(g.grid)
  }

  /** Enough bars to warm up; with fewer the walk-forward has no folds. */
  predicate Enough(n: nat) { n / 2 >= 50 }

  function NatMax(a: nat, b: nat): nat { if a >= b then a else b }

  /** The fraction of the data a fold trains on: 50, 62.5, 75 and 87.5 percent. */
  function TrainEnd(n: nat, fold: nat): nat {
    if fold == 0 then 4 * n / 8 else if fold == 1 then 5 * n / 8 else if fold == 2 then 6 * n / 8 else 7 * n / 8
  }

  function WindowOf(n: nat, fold: nat, mode: WindowMode): Window
    requires Enough(n) && fold < FOLDS
  {
    var trainEnd := TrainEnd(n, fold);
    var trainStart := if mode.Rolling? then trainEnd - n / 2 else 0;
    var bars := NatMax(INNER_VALIDATION_MIN_BARS, (trainEnd - trainStart) / 5);
    var innerStart := NatMax(trainStart + (trainEnd - trainStart) / 2, trainEnd - bars);
    var testEnd := if trainEnd + n / 8 <= n then trainEnd + n / 8 else n;
    Window(trainStart, innerStart, trainEnd, testEnd)
  }

  /** Training precedes its own validation, which precedes the test; test windows follow one another. */
  lemma WindowsAreChronological(n: nat, fold: nat, mode: WindowMode)
    requires Enough(n) && fold < FOLDS
    ensures var w := WindowOf(n, fold, mode);
            && w.trainStart < w.innerStart < w.trainEnd < w.testEnd <= n
            && w.innerStart - w.trainStart >= (w.trainEnd - w.trainStart) / 2
            && (fold + 1 < FOLDS ==> w.testEnd <= WindowOf(n, fold + 1, mode).trainEnd)
  {
  }

  // ---- one backtest of the engine ----

  function RunOf(p: Params, start: nat, end: nat, costBps: real): Run {
    Run(p, costBps, true, start, end, INITIAL_CASH)
  }

  function ReportOf(bars: seq<Bar>, p: Params, start: nat, end: nat, costBps: real, root: Root): Report
    requires Runnable(bars, RunOf(p, start, end, costBps))
  {
    var b := Outcome(bars, RunOf(p, start, end, costBps));
    Report(p, b.trades, b.equity, StatsOf(b.trades, b.equity, root))
  }

  method RunEngine(bars: seq<Bar>, p: Params, start: nat, end: nat, costBps: real, root: Root) returns (r: Report)
    requires Runnable(bars, RunOf(p, start, end, costBps))
    ensures r == ReportOf(bars, p, start, end, costBps, root)
  {
    var trades, equity := RunBacktest(bars, RunOf(p, start, end, costBps));
    var stats := ComputeStats(trades, equity, root);
    return Report(p, trades, equity, stats);
  }

  function Reports(bars: seq<Bar>, ps: seq<Params>, start: nat, end: nat, costBps: real, root: Root): (r: seq<Report>)
    requires Priced(bars) && costBps >= 0.0 && end <= |bars| && AllUsable(ps)
    ensures |r| == |ps| && forall k :: 0 <= k < |ps| ==> r[k].params == ps[k]
  {
    seq(|ps|, k requires 0 <= k < |ps| => ReportOf(bars, ps[k], start, end, costBps, root))
  }

  method RunAll(bars: seq<Bar>, ps: seq<Params>, start: nat, end: nat, costBps: real, root: Root) returns (r: seq<Report>)
    requires Priced(bars) && costBps >= 0.0 && end <= |bars| && AllUsable(ps)
    ensures r == Reports(bars, ps, start, end, costBps, root)
  {
    r := [];
    for k := 0 to |ps|
      invariant |r| == k
      invariant forall i :: 0 <= i < k ==> r[i] == ReportOf(bars, ps[i], start, end, costBps, root)
    {
      var one := RunEngine(bars, ps[k], start, end, costBps, root);
      r := r + [one];
    }
  }

  function ParamsOf(reports: seq<Report>): (r: seq<Params>)
    ensures |r| == |reports| && forall k :: 0 <= k < |r| ==> r[k] == reports[k].params
  {
    seq(|reports|, k requires 0 <= k < |reports| => reports[k].params)
  }

  // ---- selection of one fold ----

  /** What the training region of a fold decides. */
  datatype Choice = Choice(params: Params, validation: Report, train: Report, candidates: nat, shortlisted: nat)

  function Candidates(bars: seq<Bar>, g: Setting, w: Window): seq<Report>
    requires Ready(bars, g) && w.innerStart <= |bars|
  {
    Reports(bars, g.grid, w.trainStart, w.innerStart, g.costBps, g.root)
  }

  lemma {:induction false} ShortlistIsUsable(bars: seq<Bar>, g: Setting, w: Window)
    requires Ready(bars, g) && w.innerStart <= |bars|
    ensures var short := Shortlist(Candidates(bars, g, w), SHORTLIST_SIZE);
            short != [] && forall k :: 0 <= k < |short| ==> Usable(short[k].params)
  {
    var all := Candidates(bars, g, w);
    ShortlistIsBest(all, SHORTLIST_SIZE);
    var short := Shortlist(all, SHORTLIST_SIZE);
    forall k | 0 <= k < |short| ensures Usable(short[k].params) {
      assert short[k] in short;
      var j :| 0 <= j < |all| && all[j] == short[k];
      assert all[j].params == g.grid[j];
    }
  }

  function Validated(bars: seq<Bar>, g: Setting, w: Window): (r: seq<Report>)
    requires Ready(bars, g) && w.innerStart <= w.trainEnd <= |bars|
    ensures r != []
    ensures forall k :: 0 <= k < |r| ==> Usable(r[k].params)
  {
    ShortlistIsUsable(bars, g, w);
    Reports(bars, ParamsOf(Shortlist(Candidates(bars, g, w), SHORTLIST_SIZE)), w.innerStart, w.trainEnd, g.costBps, g.root)
  }

  function Choose(bars: seq<Bar>, g: Setting, w: Window): (c: Choice)
    requires Ready(bars, g) && w.innerStart <= w.trainEnd <= |bars|
    ensures Usable(c.params)
  {
    var validated := Validated(bars, g, w);
    var best := validated[Best(validated)];
    Choice(best.params, best, ReportOf(bars, best.params, w.trainStart, w.trainEnd, g.costBps, g.root),
           |g.grid|, |validated|)
  }

  method SelectParams(bars: seq<Bar>, g: Setting, w: Window) returns (c: Choice)
    requires Ready(bars, g) && w.innerStart <= w.trainEnd <= |bars|
    ensures c == Choose(bars, g, w)
  {
    var candidates := RunAll(bars, g.grid, w.trainStart, w.innerStart, g.costBps, g.root);
    var short := Shortlist(candidates, SHORTLIST_SIZE);
    ShortlistIsUsable(bars, g, w);
    var validated := RunAll(bars, ParamsOf(short), w.innerStart, w.trainEnd, g.costBps, g.root);
    var k := FindBest(validated);
    var best := validated[k];
    var train := RunEngine(bars, best.params, w.trainStart, w.trainEnd, g.costBps, g.root);
    return Choice(best.params, best, train, |candidates|, |short|);
  }

  // ---- no look-ahead ----

  lemma {:induction false} ReportDoesNotLookAhead(a: seq<Bar>, b: seq<Bar>, p: Params, start: nat, end: nat, costBps: real, root: Root)
    requires Agree(a, b, end) && Runnable(a, RunOf(p, start, end, costBps)) && Runnable(b, RunOf(p, start, end, costBps))
    ensures ReportOf(a, p, start, end, costBps, root) == ReportOf(b, p, start, end, costBps, root)
  {
    BacktestDoesNotLookAhead(a, b, RunOf(p, start, end, costBps), end);
  }

  lemma {:induction false} ReportsDoNotLookAhead(a: seq<Bar>, b: seq<Bar>, ps: seq<Params>, start: nat, end: nat, costBps: real, root: Root)
    requires Priced(a) && Priced(b) && costBps >= 0.0 && Agree(a, b, end)
    requires AllUsable(ps)
    ensures Reports(a, ps, start, end, costBps, root) == Reports(b, ps, start, end, costBps, root)
  {
    var x, y := Reports(a, ps, start, end, costBps, root), Reports(b, ps, start, end, costBps, root);
    forall k | 0 <= k < |ps| ensures x[k] == y[k] {
      ReportDoesNotLookAhead(a, b, ps[k], start, end, costBps, root);
    }
  }

  lemma {:induction false} AgreeEarlier<T>(a: seq<T>, b: seq<T>, k: nat, i: nat)
    requires Agree(a, b, k) && i <= k
    ensures Agree(a, b, i)
  {
    assert a[..i] == a[..k][..i];
    assert b[..i] == b[..k][..i];
  }

  lemma {:induction false} ValidatedDoNotLookAhead(a: seq<Bar>, b: seq<Bar>, g: Setting, w: Window)
    requires Ready(a, g) && Ready(b, g) && w.innerStart <= w.trainEnd && Agree(a, b, w.trainEnd)
    ensures Candidates(a, g, w) == Candidates(b, g, w) && Validated(a, g, w) == Validated(b, g, w)
  {
    AgreeEarlier(a, b, w.trainEnd, w.innerStart);
    ReportsDoNotLookAhead(a, b, g.grid, w.trainStart, w.innerStart, g.costBps, g.root);
    ShortlistIsUsable(a, g, w);
    ReportsDoNotLookAhead(a, b, ParamsOf(Shortlist(Candidates(a, g, w), SHORTLIST_SIZE)), w.innerStart, w.trainEnd,
                          g.costBps, g.root);
  }

  /** The out-of-sample bars cannot influence the choice: two histories of one length that agree up to the end
      of a fold's training region give the same inner training results for the whole grid and choose the same
      parameters, with the same validation and training results. */
  lemma ChoiceIgnoresTheFuture(a: seq<Bar>, b: seq<Bar>, g: Setting, w: Window)
    requires Ready(a, g) && Ready(b, g) && w.innerStart <= w.trainEnd && Agree(a, b, w.trainEnd)
    ensures Choose(a, g, w) == Choose(b, g, w)
    ensures Candidates(a, g, w) == Candidates(b, g, w)
  {
    ValidatedDoNotLookAhead(a, b, g, w);
    var best := Validated(a, g, w)[Best(Validated(a, g, w))];
    ReportDoesNotLookAhead(a, b, best.params, w.trainStart, w.trainEnd, g.costBps, g.root);
  }

  /** The choice is made by validation: nothing on the shortlist ranks above it there. */
  lemma ChoiceIsBestValidated(bars: seq<Bar>, g: Setting, w: Window)
    requires Ready(bars, g) && w.innerStart <= w.trainEnd <= |bars|
    ensures var c := Choose(bars, g, w);
            && c.validation in Validated(bars, g, w)
            && c.params in g.grid
            && forall x :: x in Validated(bars, g, w) ==> !Outranks(x.stats, c.validation.stats)
  {
    var validated := Validated(bars, g, w);
    BestIsBest(validated);
    ValidatedAreFromGrid(bars, g, w);
    assert validated[Best(validated)] in validated;
  }

  lemma {:induction false} ValidatedAreFromGrid(bars: seq<Bar>, g: Setting, w: Window)
    requires Ready(bars, g) && w.innerStart <= w.trainEnd <= |bars|
    ensures forall k :: 0 <= k < |Validated(bars, g, w)| ==> Validated(bars, g, w)[k].params in g.grid
  {
    var all := Candidates(bars, g, w);
    var short := Shortlist(all, SHORTLIST_SIZE);
    ShortlistIsUsable(bars, g, w);
    ShortlistIsBest(all, SHORTLIST_SIZE);
    forall k | 0 <= k < |short| ensures short[k].params in g.grid {
      assert short[k] in short;
      var j :| 0 <= j < |all| && all[j] == short[k];
      assert all[j].params == g.grid[j];
    }
  }

  // ---- folds ----

  /** The reasons a fold can fail for, each appended at most once and in this order by the source. */
  datatype Failures = Failures(tooFew: bool, lost: bool, sharpe: bool, costErosion: bool, unfilled: bool)

  datatype Fold = Fold(window: Window, choice: Choice, oos: Report, free: Report, baseline: real, failures: Failures)

  predicate Passed(f: Fold) { f.failures == Failures(false, false, false, false, false) }

  /** A parameter set that trades rarely by design, or did in training, has to trade once out of sample. */
  predicate LowFrequency(c: Choice, trainEnd: nat) {
    || !c.params.exitMode.Chandelier?
    || c.params.maPeriod >= LOW_FREQ_MA_THRESHOLD
    || (trainEnd > 0 && c.train.stats.tradeCount as real / (trainEnd as real / 252.0) < 3.0)
  }

  function RequiredTrades(c: Choice, trainEnd: nat, g: Setting): nat {
    if LowFrequency(c, trainEnd) then MIN_OOS_TRADES_LOW_FREQ else g.minTrades
  }

  predicate AnyUnfilled(trades: seq<Trade>) {
    exists k :: 0 <= k < |trades| && trades[k].reason == ExitReason.StpLmtUnfilled
  }

  function FailuresOf(oos: Report, free: Report, least: nat): Failures {
    Failures(
      oos.stats.tradeCount < least,
      oos.stats.totalReturnPct <= 0.0,
      oos.stats.sharpe <= 0.0,
      free.stats.totalReturnPct > 0.0 && oos.stats.totalReturnPct <= 0.0,
      AnyUnfilled(oos.trades))
  }

  function GainPct(first: real, last: real): real
    requires first != 0.0
  {
    (last - first) / first * 100.0
  }

  /** A fold from its choice, its two out-of-sample runs and the closes at both ends of the test. */
  function Judge(w: Window, c: Choice, oos: Report, free: Report, first: real, last: real, g: Setting): Fold
    requires first != 0.0
  {
    Fold(w, c, oos, free, GainPct(first, last), FailuresOf(oos, free, RequiredTrades(c, w.trainEnd, g)))
  }

  /** The out-of-sample test of a choice, with and without costs. */
  function Tested(bars: seq<Bar>, g: Setting, w: Window, c: Choice): Fold
    requires Ready(bars, g) && Usable(c.params) && w.trainEnd < w.testEnd <= |bars|
  {
    var oos := ReportOf(bars, c.params, w.trainEnd, w.testEnd, g.costBps, g.root);
    var free := ReportOf(bars, c.params, w.trainEnd, w.testEnd, 0.0, g.root);
    Judge(w, c, oos, free, bars[w.trainEnd].close, bars[w.testEnd - 1].close, g)
  }

  function FoldOf(bars: seq<Bar>, g: Setting, fold: nat): Fold
    requires Ready(bars, g) && Enough(|bars|) && fold < FOLDS
  {
    WindowsAreChronological(|bars|, fold, g.mode);
    var w := WindowOf(|bars|, fold, g.mode);
    Tested(bars, g, w, Choose(bars, g, w))
  }

  function FoldsOf(bars: seq<Bar>, g: Setting): seq<Fold>
    requires Ready(bars, g)
  {
    if Enough(|bars|) then seq(FOLDS, i requires 0 <= i < FOLDS => FoldOf(bars, g, i)) else []
  }

  /** The fold loop of run_walk_forward. */
  method RunFolds(bars: seq<Bar>, g: Setting) returns (folds: seq<Fold>)
    requires Ready(bars, g)
    ensures folds == FoldsOf(bars, g)
  {
    folds := [];
    if !Enough(|bars|) { return; }
    for fold := 0 to FOLDS
      invariant |folds| == fold
      invariant forall i :: 0 <= i < fold ==> folds[i] == FoldOf(bars, g, i)
    {
      ghost var before := folds;
      var one := RunFold(bars, g, fold);
      folds := folds + [one];
      forall i | 0 <= i < fold + 1 ensures folds[i] == FoldOf(bars, g, i) {
        if i < fold { assert folds[i] == before[i]; }
      }
    }
    forall i | 0 <= i < FOLDS ensures folds[i] == FoldsOf(bars, g)[i] {
      assert folds[i] == FoldOf(bars, g, i);
    }
  }

  method RunFold(bars: seq<Bar>, g: Setting, fold: nat) returns (f: Fold)
    requires Ready(bars, g) && Enough(|bars|) && fold < FOLDS
    ensures f == FoldOf(bars, g, fold)
  {
    WindowsAreChronological(|bars|, fold, g.mode);
    var w := WindowOf(|bars|, fold, g.mode);
    var c := SelectParams(bars, g, w);
    f := TestChoice(bars, g, w, c);
  }

  method TestChoice(bars: seq<Bar>, g: Setting, w: Window, c: Choice) returns (f: Fold)
    requires Ready(bars, g) && Usable(c.params) && w.trainEnd < w.testEnd <= |bars|
    ensures f == Tested(bars, g, w, c)
  {
    var oos := RunEngine(bars, c.params, w.trainEnd, w.testEnd, g.costBps, g.root);
    var free := RunEngine(bars, c.params, w.trainEnd, w.testEnd, 0.0, g.root);
    f := Judge(w, c, oos, free, bars[w.trainEnd].close, bars[w.testEnd - 1].close, g);
  }

  const DEFAULT_PARAMS: Params := Params(Hybrid, Chandelier, 50, 0.01, 3.0, 20, 100, false, false, 20.0, 14)

  /** _production_params_from_training: the parameters of the last fold, or fixed defaults without folds. */
  function ProductionParams(folds: seq<Fold>): Params {
    if folds == [] then DEFAULT_PARAMS else folds[|folds| - 1].choice.params
  }

  /** Fold by fold: selection never reads past the training region. */
  lemma FoldIgnoresItsFuture(a: seq<Bar>, b: seq<Bar>, g: Setting, fold: nat)
    requires Ready(a, g) && Ready(b, g) && Enough(|a|) && fold < FOLDS
    requires Agree(a, b, WindowOf(|a|, fold, g.mode).trainEnd)
    ensures FoldOf(a, g, fold).choice == FoldOf(b, g, fold).choice
    ensures Candidates(a, g, WindowOf(|a|, fold, g.mode)) == Candidates(b, g, WindowOf(|a|, fold, g.mode))
  {
    WindowsAreChronological(|a|, fold, g.mode);
    ChoiceIgnoresTheFuture(a, b, g, WindowOf(|a|, fold, g.mode));
  }

  /** The production parameters do not depend on the last eighth of the development data, so no out-of-sample
      result of the last fold can promote them. */
  lemma ProductionIgnoresLastTest(a: seq<Bar>, b: seq<Bar>, g: Setting)
    requires Ready(a, g) && Ready(b, g) && Enough(|a|) && Agree(a, b, 7 * |a| / 8)
    ensures ProductionParams(FoldsOf(a, g)) == ProductionParams(FoldsOf(b, g))
  {
    FoldIgnoresItsFuture(a, b, g, 3);
  }

  lemma {:induction false} NoTradeIsUnfilled(bars: seq<Bar>, p: Params, start: nat, end: nat, costBps: real, root: Root)
    requires Runnable(bars, RunOf(p, start, end, costBps)) && 1 <= start < end
    ensures !AnyUnfilled(ReportOf(bars, p, start, end, costBps, root).trades)
  {
    var r := RunOf(p, start, end, costBps);
    BacktestAccounts(bars, r);
    NoneUnfilled(Outcome(bars, r).trades, bars, r);
  }

  lemma {:induction false} NoneUnfilled(trades: seq<Trade>, bars: seq<Bar>, r: Run)
    requires r.end <= |bars| && TradesSound(trades, bars, r, r.end)
    ensures !AnyUnfilled(trades)
  {
    forall k | 0 <= k < |trades| ensures trades[k].reason != ExitReason.StpLmtUnfilled {
      assert TradeSound(trades[k], bars, r, r.end);
    }
  }

  /** The unfilled flag of a fold never fires: the loop overwrites the mark before a trade is recorded. */
  lemma UnfilledNeverFires(bars: seq<Bar>, g: Setting, fold: nat)
    requires Ready(bars, g) && Enough(|bars|) && fold < FOLDS
    ensures !FoldOf(bars, g, fold).failures.unfilled
  {
    WindowsAreChronological(|bars|, fold, g.mode);
    var f := FoldOf(bars, g, fold);
    var w := WindowOf(|bars|, fold, g.mode);
    var c := Choose(bars, g, w);
    NoTradeIsUnfilled(bars, c.params, w.trainEnd, w.testEnd, g.costBps, g.root);
  }

  // ---- the verdict ----

  /** The identity of a parameter set when variants are counted. */
  datatype Variant = Variant(
    entryMode: EntryMode, maPeriod: nat, atrMultiple: real, buffer: real, exitMode: ExitMode, adxFilter: bool, adxThreshold: int)

  function Truncated(x: real): int { if x >= 0.0 then x.Floor else -(-x).Floor }

  function VariantOf(p: Params): Variant {
    Variant(p.entryMode, p.maPeriod, p.atrMultiple, p.buffer, p.exitMode, p.adxFilter, Truncated(p.adxThreshold))
  }

  function CountPassed(folds: seq<Fold>): nat {
    if folds == [] then 0 else CountPassed(folds[..|folds| - 1]) + if Passed(folds[|folds| - 1]) then 1 else 0
  }

  function CountPositive(folds: seq<Fold>): nat {
    if folds == [] then 0
    else CountPositive(folds[..|folds| - 1]) + if folds[|folds| - 1].free.stats.totalReturnPct > 0.0 then 1 else 0
  }

  function Variants(folds: seq<Fold>): set<Variant> {
    set k | 0 <= k < |folds| :: VariantOf(folds[k].choice.params)
  }

  /** The lowest return after costs; 0 without folds. */
  function WorstCostReturn(folds: seq<Fold>): real {
    if folds == [] then 0.0
    else if |folds| == 1 then folds[0].oos.stats.totalReturnPct
    else Min(WorstCostReturn(folds[..|folds| - 1]), folds[|folds| - 1].oos.stats.totalReturnPct)
  }

  predicate StructurallyRobust(folds: seq<Fold>) {
    && CountPassed(folds) >= 3 && CountPositive(folds) >= 3 && |Variants(folds)| <= 3
    && WorstCostReturn(folds) >= -25.0
    && forall k :: 0 <= k < |folds| ==> folds[k].oos.stats.maxDrawdownPct <= 25.0
  }

  lemma {:induction false} WorstIsALowerBound(folds: seq<Fold>)
    ensures forall k :: 0 <= k < |folds| ==> WorstCostReturn(folds) <= folds[k].oos.stats.totalReturnPct
  {
    if |folds| > 1 { WorstIsALowerBound(folds[..|folds| - 1]); }
  }

  lemma {:induction false} CountPassedBounds(folds: seq<Fold>)
    ensures CountPassed(folds) <= |folds|
    ensures CountPassed(folds) == |folds| ==> forall k :: 0 <= k < |folds| ==> Passed(folds[k])
  {
    if folds != [] { CountPassedBounds(folds[..|folds| - 1]); }
  }

  ghost predicate JudgedBy(f: Fold, g: Setting) {
    f.failures == FailuresOf(f.oos, f.free, RequiredTrades(f.choice, f.window.trainEnd, g))
  }

  lemma {:induction false} FoldIsJudged(bars: seq<Bar>, g: Setting, i: nat)
    requires Ready(bars, g) && Enough(|bars|) && i < FOLDS
    ensures JudgedBy(FoldOf(bars, g, i), g)
  {
  }

  lemma {:induction false} FoldsAreJudged(bars: seq<Bar>, g: Setting)
    requires Ready(bars, g) && Enough(|bars|)
    ensures |FoldsOf(bars, g)| == FOLDS
    ensures forall i :: 0 <= i < FOLDS ==> JudgedBy(FoldsOf(bars, g)[i], g)
  {
    var folds := FoldsOf(bars, g);
    forall i | 0 <= i < FOLDS ensures JudgedBy(folds[i], g) {
      FoldIsJudged(bars, g, i);
    }
  }

  /** A robust verdict: at most one of the four folds failed, no fold lost more than a quarter after costs or
      drew down more than a quarter, and every fold that passed traded, gained after costs and had a positive Sharpe. */
  ghost predicate Trustworthy(folds: seq<Fold>, g: Setting) {
    && (forall k :: 0 <= k < |folds| ==>
          folds[k].oos.stats.totalReturnPct >= -25.0 && folds[k].oos.stats.maxDrawdownPct <= 25.0)
    && (forall j, k :: 0 <= j < k < |folds| ==> Passed(folds[j]) || Passed(folds[k]))
    && (forall k :: 0 <= k < |folds| && Passed(folds[k]) ==>
          folds[k].oos.stats.totalReturnPct > 0.0 && folds[k].oos.stats.sharpe > 0.0
          && folds[k].oos.stats.tradeCount >= RequiredTrades(folds[k].choice, folds[k].window.trainEnd, g))
  }

  lemma {:induction false} RobustIsTrustworthy(folds: seq<Fold>, g: Setting)
    requires |folds| == FOLDS && StructurallyRobust(folds)
    requires forall k :: 0 <= k < |folds| ==> JudgedBy(folds[k], g)
    ensures Trustworthy(folds, g)
  {
    WorstIsALowerBound(folds);
    forall j, k | 0 <= j < k < |folds| ensures Passed(folds[j]) || Passed(folds[k]) {
      if !Passed(folds[j]) && !Passed(folds[k]) { TwoFailuresAreTooMany(folds, j, k); }
    }
    forall k | 0 <= k < |folds| && Passed(folds[k])
      ensures folds[k].oos.stats.totalReturnPct > 0.0 && folds[k].oos.stats.sharpe > 0.0
      ensures folds[k].oos.stats.tradeCount >= RequiredTrades(folds[k].choice, folds[k].window.trainEnd, g)
    {
      assert JudgedBy(folds[k], g);
      PassingMeans(folds[k].oos, folds[k].free, RequiredTrades(folds[k].choice, folds[k].window.trainEnd, g));
    }
  }

  lemma EligibleIsTrustworthy(bars: seq<Bar>, g: Setting)
    requires Ready(bars, g) && Enough(|bars|) && StructurallyRobust(FoldsOf(bars, g))
    ensures Trustworthy(FoldsOf(bars, g), g)
  {
    FoldsAreJudged(bars, g);
    RobustIsTrustworthy(FoldsOf(bars, g), g);
  }

  lemma PassingMeans(oos: Report, free: Report, least: nat)
    requires FailuresOf(oos, free, least) == Failures(false, false, false, false, false)
    ensures oos.stats.totalReturnPct > 0.0 && oos.stats.sharpe > 0.0 && oos.stats.tradeCount >= least
  {
  }

  lemma {:induction false} TwoFailuresAreTooMany(folds: seq<Fold>, j: nat, k: nat)
    requires j < k < |folds| && !Passed(folds[j]) && !Passed(folds[k])
    ensures CountPassed(folds) <= |folds| - 2
  {
    var n := |folds| - 1;
    if k < n {
      TwoFailuresAreTooMany(folds[..n], j, k);
    } else {
      OneFailure(folds[..n], j);
    }
  }

  lemma {:induction false} OneFailure(folds: seq<Fold>, j: nat)
    requires j < |folds| && !Passed(folds[j])
    ensures CountPassed(folds) <= |folds| - 1
  {
    var n := |folds| - 1;
    CountPassedBounds(folds[..n]);
    if j < n { OneFailure(folds[..n], j); }
  }
}
