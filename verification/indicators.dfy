/** Technical indicators (shared/indicators.py).

    The value of an indicator at a bar is defined here on the history that ends with that bar. The methods
    below run over whole arrays, forward, as the source does; each promises that every element it produces is
    the value of the history up to that element. That no element looks ahead is the content of those promises. */
module Indicators {
  import opened Models
  import opened Arithmetic

  datatype Bar = Bar(open: real, high: real, low: real, close: real)

  function Sum(s: seq<real>): real { if s == [] then 0.0 else Sum(s[..|s| - 1]) + s[|s| - 1] }

  lemma {:induction false} SumSplits(a: seq<real>, b: seq<real>)
    ensures Sum(a + b) == Sum(a) + Sum(b)
    decreases |b|
  {
    if b == [] {
      assert a + b == a;
    } else {
      SumSplits(a, b[..|b| - 1]);
      assert (a + b)[..|a + b| - 1] == a + b[..|b| - 1];
    }
  }

  function Closes(bars: seq<Bar>): (r: seq<real>)
    ensures |r| == |bars|
    ensures forall i :: 0 <= i < |bars| ==> r[i] == bars[i].close
  {
    seq(|bars|, i requires 0 <= i < |bars| => bars[i].close)
  }

  // ---- values of a history ----

  /** Everything up to and including element i. */
  function History<T>(s: seq<T>, i: nat): seq<T>
    requires i < |s|
  {
    s[..i + 1]
  }

  function Average(total: real, count: nat): real
    requires count > 0
  {
    total / count as real
  }

  /** Mean of the last `period` values; 0 while there are fewer. */
  function SmaOf(history: seq<real>, period: nat): real
    requires period > 0
  {
    if |history| < period then 0.0 else Average(Sum(history[|history| - period..]), period)
  }

  /** One step of Wilder smoothing. */
  function Wilder(previous: real, value: real, period: nat): real
    requires period > 0
  {
    (previous * (period - 1) as real + value) / period as real
  }

  /** `part` in percent of `whole`; 0 when there is no positive whole. */
  function Percent(part: real, whole: real): real { if whole > 0.0 then part / whole * 100.0 else 0.0 }

  /** Wilder smoothing: the mean of the first `period` values, then the recurrence. */
  function RmaOf(history: seq<real>, period: nat): real
    requires period > 0
  {
    var n := |history|;
    if n < period then 0.0
    else if n == period then Sum(history) / period as real
    else Wilder(RmaOf(history[..n - 1], period), history[n - 1], period)
  }

  /** True range of a bar given the close before it. */
  function TrueRange(previousClose: real, b: Bar): real {
    Max(Max(b.high - b.low, Abs(b.high - previousClose)), Abs(b.low - previousClose))
  }

  function PlusMove(a: Bar, b: Bar): real {
    var up, down := b.high - a.high, a.low - b.low;
    if up > down && up > 0.0 then up else 0.0
  }

  function MinusMove(a: Bar, b: Bar): real {
    var up, down := b.high - a.high, a.low - b.low;
    if down > up && down > 0.0 then down else 0.0
  }

  /** What a pass measures between a bar and the next one. */
  datatype Movement = Range | Up | Down

  function Move(m: Movement, a: Bar, b: Bar): real {
    match m
    case Range => TrueRange(a.close, b)
    case Up => PlusMove(a, b)
    case Down => MinusMove(a, b)
  }

  /** One value for every bar, computed from it and the bar before; 0 for the first. */
  function Pairwise(bars: seq<Bar>, m: Movement): (r: seq<real>)
    ensures |r| == |bars|
    ensures bars != [] ==> r[0] == 0.0
    ensures forall i :: 0 < i < |bars| ==> r[i] == Move(m, bars[i - 1], bars[i])
  {
    var n := |bars|;
    if n == 0 then []
    else Pairwise(bars[..n - 1], m) + [if n == 1 then 0.0 else Move(m, bars[n - 2], bars[n - 1])]
  }

  /** Wilder smoothing of a pairwise series from its second element on. */
  function SmoothedOf(history: seq<Bar>, m: Movement, period: nat): real
    requires period > 0
  {
    if history == [] then 0.0 else RmaOf(Pairwise(history, m)[1..], period)
  }

  function AtrOf(history: seq<Bar>, period: nat): real
    requires period > 0
  {
    SmoothedOf(history, Range, period)
  }

  function PlusDiOf(history: seq<Bar>, period: nat): real
    requires period > 0
  {
    Percent(SmoothedOf(history, Up, period), SmoothedOf(history, Range, period))
  }

  function MinusDiOf(history: seq<Bar>, period: nat): real
    requires period > 0
  {
    Percent(SmoothedOf(history, Down, period), SmoothedOf(history, Range, period))
  }

  /** |+DI - -DI| relative to their sum, in percent. */
  function DirectionalIndex(plus: real, minus: real): real { Percent(Abs(plus - minus), plus + minus) }

  function DxOf(history: seq<Bar>, period: nat): real
    requires period > 0
  {
    DirectionalIndex(PlusDiOf(history, period), MinusDiOf(history, period))
  }

  function DxSeries(bars: seq<Bar>, period: nat): (r: seq<real>)
    requires period > 0
    ensures |r| == |bars|
  {
    if bars == [] then [] else DxSeries(bars[..|bars| - 1], period) + [DxOf(bars, period)]
  }

  function AdxOf(history: seq<Bar>, period: nat): real
    requires period > 0
  {
    if |history| < 2 * period then 0.0 else RmaOf(DxSeries(history, period)[period..], period)
  }

  // ---- prefixes ----

  lemma {:induction false} PairwisePrefix(bars: seq<Bar>, m: Movement, k: nat)
    requires 0 < k <= |bars|
    ensures Pairwise(bars[..k], m)[1..] == Pairwise(bars, m)[1..][..k - 1]
  {
    var whole, part := Pairwise(bars, m), Pairwise(bars[..k], m);
    forall i | 0 < i < k ensures part[i] == whole[i] {
      assert whole[i] == Move(m, bars[i - 1], bars[i]);
    }
    assert part == whole[..k];
  }

  lemma TakeTwice<T>(s: seq<T>, n: nat, k: nat)
    requires k <= n <= |s|
    ensures s[..n][..k] == s[..k]
  {
  }

  lemma {:induction false} DxLast(bars: seq<Bar>, period: nat)
    requires 0 < period && bars != []
    ensures DxSeries(bars, period)[..|bars| - 1] == DxSeries(bars[..|bars| - 1], period)
  {
  }

  lemma {:induction false} DxPrefix(bars: seq<Bar>, period: nat, k: nat)
    requires 0 < period && k <= |bars|
    ensures DxSeries(bars[..k], period) == DxSeries(bars, period)[..k]
  {
    if k == |bars| {
      assert bars[..k] == bars;
    } else {
      var n := |bars| - 1;
      DxLast(bars, period);
      DxPrefix(bars[..n], period, k);
      TakeTwice(bars, n, k);
      TakeTwice(DxSeries(bars, period), n, k);
    }
  }

  lemma {:induction false} DxAt(bars: seq<Bar>, period: nat, i: nat)
    requires 0 < period && i < |bars|
    ensures DxSeries(bars, period)[i] == DxOf(History(bars, i), period)
  {
    DxPrefix(bars, period, i + 1);
    assert DxSeries(bars[..i + 1], period)[i] == DxOf(History(bars, i), period);
  }

  /** Before there are `period` values to smooth, everything derived from them is 0. */
  lemma {:induction false} SmoothedTooShort(history: seq<Bar>, m: Movement, period: nat)
    requires 0 < period && |history| <= period
    ensures SmoothedOf(history, m, period) == 0.0
  {
  }

  // ---- the array passes ----

  method Total(values: seq<real>) returns (s: real)
    ensures s == Sum(values)
  {
    s := 0.0;
    for i := 0 to |values|
      invariant s == Sum(values[..i])
    {
      assert values[..i + 1][..i] == values[..i];
      s := s + values[i];
    }
    assert values[..|values|] == values;
  }

  /** rma. */
  method Rma(values: seq<real>, period: nat) returns (out: seq<real>)
    requires period > 0
    ensures |out| == |values|
    ensures forall i :: 0 <= i < |values| ==> out[i] == RmaOf(History(values, i), period)
  {
    var n := |values|;
    var a := new real[n](_ => 0.0);
    if n >= period {
      var first := Total(values[..period]);
      a[period - 1] := first / period as real;
      for i := period to n
        invariant forall k :: 0 <= k < i ==> a[k] == RmaOf(History(values, k), period)
        invariant forall k :: i <= k < n ==> a[k] == 0.0
      {
        assert values[..i + 1][..i] == values[..i];
        a[i] := Wilder(a[i - 1], values[i], period);
      }
    }
    return a[..];
  }

  /** sma: the sum rolls forward instead of being taken afresh. */
  method Sma(values: seq<real>, period: nat) returns (out: seq<real>)
    requires period > 0
    ensures |out| == |values|
    ensures forall i :: 0 <= i < |values| ==> out[i] == SmaOf(History(values, i), period)
  {
    var n := |values|;
    var a := new real[n](_ => 0.0);
    if n >= period {
      var s := Total(values[..period]);
      a[period - 1] := Average(s, period);
      for i := period to n
        invariant s == Sum(values[i - period..i])
        invariant forall k :: 0 <= k < i ==> a[k] == SmaOf(History(values, k), period)
        invariant forall k :: i <= k < n ==> a[k] == 0.0
      {
        RollForward(values, i, period);
        s := s + (values[i] - values[i - period]);
        a[i] := Average(s, period);
        assert values[..i + 1][|values[..i + 1]| - period..] == values[i + 1 - period..i + 1];
      }
    }
    return a[..];
  }

  lemma {:induction false} RollForward(values: seq<real>, i: nat, period: nat)
    requires 0 < period <= i < |values|
    ensures Sum(values[i + 1 - period..i + 1]) == Sum(values[i - period..i]) + (values[i] - values[i - period])
  {
    assert values[i - period..i] == [values[i - period]] + values[i + 1 - period..i];
    SumSplits([values[i - period]], values[i + 1 - period..i]);
    assert values[i + 1 - period..i + 1][..period - 1] == values[i + 1 - period..i];
    assert Sum([values[i - period]]) == Sum([]) + values[i - period];
  }

  /** The pairwise pass that fills a list from index 1. */
  method PairwisePass(bars: seq<Bar>, m: Movement) returns (out: seq<real>)
    ensures out == Pairwise(bars, m)
  {
    var a := new real[|bars|](_ => 0.0);
    var i := 1;
    while i < |bars|
      invariant 1 <= i
      invariant forall k :: 0 < k < i && k < |bars| ==> a[k] == Move(m, bars[k - 1], bars[k])
      invariant bars != [] ==> a[0] == 0.0
    {
      a[i] := Move(m, bars[i - 1], bars[i]);
      i := i + 1;
    }
    forall k | 0 <= k < |bars| ensures a[k] == Pairwise(bars, m)[k] {
      if k > 0 { assert Pairwise(bars, m)[k] == Move(m, bars[k - 1], bars[k]); }
    }
    return a[..];
  }

  lemma {:induction false} SmoothedAt(bars: seq<Bar>, m: Movement, period: nat, k: nat)
    requires period > 0 && k + 1 < |bars|
    ensures SmoothedOf(History(bars, k + 1), m, period) == RmaOf(History(Pairwise(bars, m)[1..], k), period)
  {
    PairwisePrefix(bars, m, k + 2);
  }

  /** Smoothing of a pairwise series, aligned with the bars again. */
  method SmoothedPass(bars: seq<Bar>, m: Movement, period: nat) returns (out: seq<real>)
    requires period > 0
    ensures |out| == |bars|
    ensures forall i :: 0 <= i < |bars| ==> out[i] == SmoothedOf(History(bars, i), m, period)
  {
    var values := PairwisePass(bars, m);
    if bars == [] { return []; }
    var smoothed := Rma(values[1..], period);
    forall k | 0 <= k < |smoothed| ensures smoothed[k] == SmoothedOf(History(bars, k + 1), m, period) {
      SmoothedAt(bars, m, period, k);
    }
    return [0.0] + smoothed;
  }

  /** atr22. */
  method Atr(bars: seq<Bar>, period: nat) returns (out: seq<real>)
    requires period > 0
    ensures |out| == |bars|
    ensures forall i :: 0 <= i < |bars| ==> out[i] == AtrOf(History(bars, i), period)
  {
    if |bars| < period + 1 {
      forall i | 0 <= i < |bars| ensures AtrOf(History(bars, i), period) == 0.0 {
        SmoothedTooShort(History(bars, i), Range, period);
      }
      return seq(|bars|, _ => 0.0);
    }
    out := SmoothedPass(bars, Range, period);
  }

  /** The three series of adx_di. With fewer than two periods of bars all of them are 0. */
  method AdxDi(bars: seq<Bar>, period: nat) returns (adx: seq<real>, plus: seq<real>, minus: seq<real>)
    requires period > 0
    ensures |adx| == |plus| == |minus| == |bars|
    ensures forall i :: 0 <= i < |bars| ==> adx[i] == AdxOf(History(bars, i), period)
    ensures forall i :: 0 <= i < |bars| ==>
              plus[i] == if |bars| >= 2 * period then PlusDiOf(History(bars, i), period) else 0.0
    ensures forall i :: 0 <= i < |bars| ==>
              minus[i] == if |bars| >= 2 * period then MinusDiOf(History(bars, i), period) else 0.0
  {
    var n := |bars|;
    var none := seq(n, _ => 0.0);
    if n < 2 * period { return none, none, none; }
    var dx;
    plus, minus, dx := Directional(bars, period);
    adx := SmoothDx(dx, period);
    forall i | 0 <= i < n ensures adx[i] == AdxOf(History(bars, i), period) {
      AdxFromSmoothedDx(bars, period, i, adx[i]);
    }
  }

  /** The last pass: DX smoothed from index `period` on, valid from 2 * period - 1. */
  method SmoothDx(dx: seq<real>, period: nat) returns (adx: seq<real>)
    requires 0 < period && 2 * period <= |dx|
    ensures |adx| == |dx|
    ensures forall i :: 0 <= i < |dx| ==>
              adx[i] == if i < 2 * period - 1 then 0.0 else RmaOf(dx[period..][..i + 1 - period], period)
  {
    var smoothed := Rma(dx[period..], period);
    var a := new real[|dx|](_ => 0.0);
    for i := 2 * period - 1 to |dx|
      invariant forall k :: 2 * period - 1 <= k < i ==> a[k] == smoothed[k - period]
      invariant forall k :: 0 <= k < |dx| && !(2 * period - 1 <= k < i) ==> a[k] == 0.0
    {
      a[i] := smoothed[i - period];
    }
    adx := a[..];
    forall i | 2 * period - 1 <= i < |dx| ensures adx[i] == RmaOf(dx[period..][..i + 1 - period], period) {
      assert History(dx[period..], i - period) == dx[period..][..i + 1 - period];
    }
  }

  lemma {:induction false} AdxFromSmoothedDx(bars: seq<Bar>, period: nat, i: nat, value: real)
    requires 0 < period && i < |bars|
    requires value == if i < 2 * period - 1 then 0.0
                      else RmaOf(DxSeries(bars, period)[period..][..i + 1 - period], period)
    ensures value == AdxOf(History(bars, i), period)
  {
    DxPrefix(bars, period, i + 1);
    if i >= 2 * period - 1 {
      assert DxSeries(bars, period)[period..][..i + 1 - period] == DxSeries(bars[..i + 1], period)[period..];
    }
  }

  method Directional(bars: seq<Bar>, period: nat) returns (plus: seq<real>, minus: seq<real>, dx: seq<real>)
    requires period > 0
    ensures |plus| == |minus| == |bars|
    ensures forall i :: 0 <= i < |bars| ==> plus[i] == PlusDiOf(History(bars, i), period)
    ensures forall i :: 0 <= i < |bars| ==> minus[i] == MinusDiOf(History(bars, i), period)
    ensures dx == DxSeries(bars, period)
  {
    var range := SmoothedPass(bars, Range, period);
    var up := SmoothedPass(bars, Up, period);
    var down := SmoothedPass(bars, Down, period);
    plus, minus, dx := DirectionalLoop(range, up, down);
    forall i | 0 <= i < |bars|
      ensures plus[i] == PlusDiOf(History(bars, i), period) && minus[i] == MinusDiOf(History(bars, i), period)
      ensures dx[i] == DxSeries(bars, period)[i]
    {
      DxAt(bars, period, i);
      DirectionalValues(History(bars, i), period, range[i], up[i], down[i]);
    }
  }

  lemma {:induction false} DirectionalValues(history: seq<Bar>, period: nat, range: real, up: real, down: real)
    requires period > 0 && range == SmoothedOf(history, Range, period)
    requires up == SmoothedOf(history, Up, period) && down == SmoothedOf(history, Down, period)
    ensures PlusDiOf(history, period) == Percent(up, range) && MinusDiOf(history, period) == Percent(down, range)
    ensures DxOf(history, period) == DirectionalIndex(Percent(up, range), Percent(down, range))
  {
  }

  /** The DX loop over the three smoothed series. */
  method DirectionalLoop(range: seq<real>, up: seq<real>, down: seq<real>)
    returns (plus: seq<real>, minus: seq<real>, dx: seq<real>)
    requires |range| == |up| == |down|
    ensures |plus| == |minus| == |dx| == |range|
    ensures forall k :: 0 <= k < |range| ==> plus[k] == Percent(up[k], range[k])
    ensures forall k :: 0 <= k < |range| ==> minus[k] == Percent(down[k], range[k])
    ensures forall k :: 0 <= k < |range| ==> dx[k] == DirectionalIndex(plus[k], minus[k])
  {
    plus, minus, dx := [], [], [];
    for i := 0 to |range|
      invariant |plus| == |minus| == |dx| == i
      invariant forall k :: 0 <= k < i ==> plus[k] == Percent(up[k], range[k])
      invariant forall k :: 0 <= k < i ==> minus[k] == Percent(down[k], range[k])
      invariant forall k :: 0 <= k < i ==> dx[k] == DirectionalIndex(plus[k], minus[k])
    {
      var p, m, d := DirectionalAt(range[i], up[i], down[i]);
      plus, minus, dx := plus + [p], minus + [m], dx + [d];
    }
  }

  /** The body of the DX loop. */
  method DirectionalAt(range: real, up: real, down: real) returns (plus: real, minus: real, dx: real)
    ensures plus == Percent(up, range) && minus == Percent(down, range)
    ensures dx == DirectionalIndex(plus, minus)
  {
    plus, minus, dx := 0.0, 0.0, 0.0;
    if range > 0.0 {
      plus, minus := up / range * 100.0, down / range * 100.0;
      var both := plus + minus;
      if both > 0.0 { dx := Abs(plus - minus) / both * 100.0; }
    }
  }

  // ---- bounds ----

  predicate Proper(b: Bar) { b.low <= b.close <= b.high }

  ghost predicate AllProper(bars: seq<Bar>) { forall i :: 0 <= i < |bars| ==> Proper(bars[i]) }

  ghost predicate Dominated(a: seq<real>, b: seq<real>, c: seq<real>) {
    && |a| == |b| == |c|
    && forall i :: 0 <= i < |a| ==> 0.0 <= a[i] && 0.0 <= b[i] && a[i] + b[i] <= c[i]
  }

  /** Directional movement never exceeds the true range of the bar. */
  lemma MovesWithinRange(a: Bar, b: Bar)
    requires Proper(a) && Proper(b)
    ensures 0.0 <= PlusMove(a, b) && 0.0 <= MinusMove(a, b)
    ensures PlusMove(a, b) + MinusMove(a, b) <= TrueRange(a.close, b)
  {
  }

  lemma {:induction false} SumDominated(a: seq<real>, b: seq<real>, c: seq<real>)
    requires Dominated(a, b, c)
    ensures 0.0 <= Sum(a) && 0.0 <= Sum(b) && Sum(a) + Sum(b) <= Sum(c)
  {
    if a != [] {
      var n := |a| - 1;
      SumDominated(a[..n], b[..n], c[..n]);
    }
  }

  lemma MeanDominated(a: real, b: real, c: real, p: real)
    requires 0.0 <= a && 0.0 <= b && a + b <= c && p > 0.0
    ensures 0.0 <= a / p && 0.0 <= b / p && a / p + b / p <= c / p
  {
    assert a / p + b / p == (a + b) / p;
    assert c / p - (a + b) / p == (c - (a + b)) / p >= 0.0;
  }

  lemma WilderDominated(x: real, y: real, z: real, a: real, b: real, c: real, period: nat)
    requires period > 0 && 0.0 <= x && 0.0 <= y && x + y <= z && 0.0 <= a && 0.0 <= b && a + b <= c
    ensures 0.0 <= Wilder(x, a, period) && 0.0 <= Wilder(y, b, period)
    ensures Wilder(x, a, period) + Wilder(y, b, period) <= Wilder(z, c, period)
  {
    var w := (period - 1) as real;
    assert x * w >= 0.0 && y * w >= 0.0 && (z - x - y) * w >= 0.0;
    assert (z - x - y) * w == z * w - (x * w + y * w);
    MeanDominated(x * w + a, y * w + b, z * w + c, period as real);
  }

  /** The Wilder recurrence keeps a pointwise bound. */
  lemma {:induction false} RmaDominated(a: seq<real>, b: seq<real>, c: seq<real>, period: nat)
    requires Dominated(a, b, c) && period > 0
    ensures 0.0 <= RmaOf(a, period) && 0.0 <= RmaOf(b, period)
    ensures RmaOf(a, period) + RmaOf(b, period) <= RmaOf(c, period)
    decreases |a|
  {
    var n := |a|;
    if n == period {
      SumDominated(a, b, c);
      MeanDominated(Sum(a), Sum(b), Sum(c), period as real);
    } else if n > period {
      RmaDominated(a[..n - 1], b[..n - 1], c[..n - 1], period);
      WilderDominated(RmaOf(a[..n - 1], period), RmaOf(b[..n - 1], period), RmaOf(c[..n - 1], period),
                      a[n - 1], b[n - 1], c[n - 1], period);
    }
  }

  lemma MeanInPercent(x: real, p: real)
    requires p > 0.0 && 0.0 <= x <= 100.0 * p
    ensures 0.0 <= x / p <= 100.0
  {
    MeanDominated(x, 100.0 * p - x, 100.0 * p, p);
    assert 100.0 * p / p == 100.0;
  }

  /** Smoothing values in [0, 100] stays in [0, 100]. */
  lemma {:induction false} RmaOfPercentages(a: seq<real>, period: nat)
    requires period > 0 && forall i :: 0 <= i < |a| ==> 0.0 <= a[i] <= 100.0
    ensures 0.0 <= RmaOf(a, period) <= 100.0
    decreases |a|
  {
    var n := |a|;
    if n == period {
      SumOfPercentages(a);
      MeanInPercent(Sum(a), period as real);
    } else if n > period {
      RmaOfPercentages(a[..n - 1], period);
      WilderInPercent(RmaOf(a[..n - 1], period), a[n - 1], period);
    }
  }

  lemma WilderInPercent(x: real, a: real, period: nat)
    requires period > 0 && 0.0 <= x <= 100.0 && 0.0 <= a <= 100.0
    ensures 0.0 <= Wilder(x, a, period) <= 100.0
  {
    var w := (period - 1) as real;
    assert w >= 0.0;
    ProductIsNonNegative(x, w);
    ProductIsNonNegative(100.0 - x, w);
    assert (100.0 - x) * w == 100.0 * w - x * w;
    MeanInPercent(x * w + a, period as real);
  }

  lemma {:induction false} SumOfPercentages(a: seq<real>)
    requires forall i :: 0 <= i < |a| ==> 0.0 <= a[i] <= 100.0
    ensures 0.0 <= Sum(a) <= 100.0 * |a| as real
  {
    if a != [] { SumOfPercentages(a[..|a| - 1]); }
  }

  lemma {:induction false} SmoothedMovesWithinRange(history: seq<Bar>, period: nat)
    requires AllProper(history) && period > 0
    ensures 0.0 <= SmoothedOf(history, Up, period) && 0.0 <= SmoothedOf(history, Down, period)
    ensures SmoothedOf(history, Up, period) + SmoothedOf(history, Down, period)
            <= SmoothedOf(history, Range, period)
  {
    if history != [] {
      var a, b, c := Pairwise(history, Up)[1..], Pairwise(history, Down)[1..], Pairwise(history, Range)[1..];
      forall i | 0 <= i < |a| ensures 0.0 <= a[i] && 0.0 <= b[i] && a[i] + b[i] <= c[i] {
        MovesWithinRange(history[i], history[i + 1]);
        assert a[i] == Move(Up, history[i], history[i + 1]) && b[i] == Move(Down, history[i], history[i + 1]);
        assert c[i] == Move(Range, history[i], history[i + 1]);
      }
      RmaDominated(a, b, c, period);
    }
  }

  /** Two parts of one whole share at most 100 percent. */
  lemma PercentShares(a: real, b: real, whole: real)
    requires 0.0 <= a && 0.0 <= b && a + b <= whole
    ensures 0.0 <= Percent(a, whole) && 0.0 <= Percent(b, whole) && Percent(a, whole) + Percent(b, whole) <= 100.0
  {
    if whole > 0.0 { MeanDominated(a, b, whole, whole); }
  }

  lemma DifferenceInPercent(p: real, m: real)
    requires 0.0 <= p && 0.0 <= m
    ensures 0.0 <= DirectionalIndex(p, m) <= 100.0
  {
    PercentShares(Abs(p - m), 0.0, p + m);
  }

  /** +DI and -DI are percentages that share 100. */
  lemma {:induction false} DirectionBounds(history: seq<Bar>, period: nat)
    requires AllProper(history) && period > 0
    ensures 0.0 <= PlusDiOf(history, period) && 0.0 <= MinusDiOf(history, period)
    ensures PlusDiOf(history, period) + MinusDiOf(history, period) <= 100.0
  {
    SmoothedMovesWithinRange(history, period);
    PercentShares(SmoothedOf(history, Up, period), SmoothedOf(history, Down, period),
                  SmoothedOf(history, Range, period));
  }

  lemma {:induction false} DxBounds(history: seq<Bar>, period: nat)
    requires AllProper(history) && period > 0
    ensures 0.0 <= DxOf(history, period) <= 100.0
  {
    DirectionBounds(history, period);
    var p, m := PlusDiOf(history, period), MinusDiOf(history, period);
    DifferenceInPercent(p, m);
  }

  /** Through all three smoothing passes: +DI, -DI and ADX are percentages at every bar, and the two
      directions never add up to more than 100. */
  lemma {:induction false} AdxBounds(history: seq<Bar>, period: nat)
    requires AllProper(history) && period > 0
    ensures 0.0 <= AdxOf(history, period) <= 100.0
    ensures 0.0 <= PlusDiOf(history, period) <= 100.0 && 0.0 <= MinusDiOf(history, period) <= 100.0
    ensures PlusDiOf(history, period) + MinusDiOf(history, period) <= 100.0
  {
    DirectionBounds(history, period);
    if |history| >= 2 * period {
      var dx := DxSeries(history, period);
      forall i | 0 <= i < |history| ensures 0.0 <= dx[i] <= 100.0 {
        DxAt(history, period, i);
        DxBounds(history[..i + 1], period);
      }
      RmaOfPercentages(dx[period..], period);
    }
  }

  // ---- slope of the moving average ----

  /** Sum of (k - xbar) * (ys[k] - ybar). */
  function CoMoment(ys: seq<real>, xbar: real, ybar: real): real {
    if ys == [] then 0.0
    else CoMoment(ys[..|ys| - 1], xbar, ybar) + Times((|ys| - 1) as real - xbar, ys[|ys| - 1] - ybar)
  }

  /** Sum of (k - xbar)^2 for k < n. */
  function Spread(n: nat, xbar: real): real {
    if n == 0 then 0.0 else Spread(n - 1, xbar) + Times((n - 1) as real - xbar, (n - 1) as real - xbar)
  }

  /** Least-squares slope of ys over 0, 1, 2, ... */
  function Regression(ys: seq<real>): real
    requires ys != []
  {
    var xbar := (|ys| - 1) as real / 2.0;
    var spread := Spread(|ys|, xbar);
    if spread != 0.0 then CoMoment(ys, xbar, Sum(ys) / |ys| as real) / spread else 0.0
  }

  /** The moving average over each of the last `lookback` bars. */
  function RecentAverages(history: seq<real>, period: nat, lookback: nat): (r: seq<real>)
    requires period > 0 && lookback <= |history|
    ensures |r| == lookback
    ensures forall k :: 0 <= k < lookback ==> r[k] == SmaOf(History(history, |history| - lookback + k), period)
  {
    seq(lookback, k requires 0 <= k < lookback => SmaOf(History(history, |history| - lookback + k), period))
  }

  function SlopeOf(history: seq<real>, period: nat, lookback: nat): real
    requires period > 0 && lookback > 0
  {
    if |history| < lookback then 0.0 else Regression(RecentAverages(history, period, lookback))
  }

  method Slope(ys: seq<real>) returns (r: real)
    requires ys != []
    ensures r == Regression(ys)
  {
    var n := |ys|;
    var xbar := (n - 1) as real / 2.0;
    var total := Total(ys);
    var ybar := total / n as real;
    var num, den := 0.0, 0.0;
    for k := 0 to n
      invariant num == CoMoment(ys[..k], xbar, ybar)
      invariant den == Spread(k, xbar)
    {
      assert ys[..k + 1][..k] == ys[..k];
      num := num + Times(k as real - xbar, ys[k] - ybar);
      den := den + Times(k as real - xbar, k as real - xbar);
    }
    assert ys[..n] == ys;
    r := if den != 0.0 then num / den else 0.0;
  }

  /** ma_slope. */
  method MaSlope(closes: seq<real>, period: nat, lookback: nat) returns (out: seq<real>)
    requires period > 0 && lookback > 0
    ensures |out| == |closes|
    ensures forall i :: 0 <= i < |closes| ==> out[i] == SlopeOf(History(closes, i), period, lookback)
  {
    var n := |closes|;
    var averages := Sma(closes, period);
    var a := new real[n](_ => 0.0);
    var i := lookback - 1;
    while i < n
      invariant lookback - 1 <= i
      invariant forall k :: 0 <= k < i && k < n ==> a[k] == SlopeOf(History(closes, k), period, lookback)
      invariant forall k :: i <= k < n ==> a[k] == 0.0
    {
      var ys := averages[i - lookback + 1..i + 1];
      AveragesAreRecent(closes, averages, period, lookback, i);
      a[i] := Slope(ys);
      i := i + 1;
    }
    return a[..];
  }

  lemma {:induction false} AveragesAreRecent(closes: seq<real>, averages: seq<real>, period: nat, lookback: nat, i: nat)
    requires period > 0 && 0 < lookback <= i + 1 <= |closes| == |averages|
    requires forall k :: 0 <= k < |closes| ==> averages[k] == SmaOf(History(closes, k), period)
    ensures averages[i - lookback + 1..i + 1] == RecentAverages(History(closes, i), period, lookback)
  {
    var ys, recent := averages[i - lookback + 1..i + 1], RecentAverages(History(closes, i), period, lookback);
    forall k | 0 <= k < lookback ensures ys[k] == recent[k] {
      var j := i - lookback + 1 + k;
      assert History(History(closes, i), j) == History(closes, j);
    }
  }

  lemma {:induction false} SpreadIsPositive(n: nat, xbar: real)
    ensures Spread(n, xbar) >= 0.0
    ensures n >= 2 ==> Spread(n, xbar) > 0.0
  {
    if n > 0 {
      SpreadIsPositive(n - 1, xbar);
      var d := (n - 1) as real - xbar;
      assert d * d >= 0.0;
      if n == 2 { assert Spread(1, xbar) == (0.0 - xbar) * (0.0 - xbar); }
    }
  }

  ghost predicate OnLine(ys: seq<real>, start: real, step: real) {
    forall k :: 0 <= k < |ys| ==> ys[k] == start + step * k as real
  }

  lemma {:induction false} LineSums(ys: seq<real>, start: real, step: real)
    requires OnLine(ys, start, step)
    ensures Sum(ys) == |ys| as real * start + step * (|ys| as real * (|ys| as real - 1.0) / 2.0)
  {
    if ys != [] {
      var n := |ys| as real - 1.0;
      LineSums(ys[..|ys| - 1], start, step);
      LineStep(n, start, step);
    }
  }

  lemma LineStep(n: real, start: real, step: real)
    ensures n * start + step * (n * (n - 1.0) / 2.0) + (start + step * n)
            == (n + 1.0) * start + step * ((n + 1.0) * n / 2.0)
  {
    assert n * (n - 1.0) / 2.0 + n == (n + 1.0) * n / 2.0;
    assert step * (n * (n - 1.0) / 2.0) + step * n == step * (n * (n - 1.0) / 2.0 + n);
  }

  lemma {:induction false} LineCoMoment(ys: seq<real>, start: real, step: real, xbar: real)
    requires OnLine(ys, start, step)
    ensures CoMoment(ys, xbar, start + step * xbar) == step * Spread(|ys|, xbar)
  {
    if ys != [] {
      var n := |ys| - 1;
      LineCoMoment(ys[..n], start, step, xbar);
      var d := n as real - xbar;
      assert ys[n] - (start + step * xbar) == step * d by { assert step * n as real - step * xbar == step * d; }
      assert d * (step * d) == step * (d * d);
      assert step * Spread(n, xbar) + step * (d * d) == step * (Spread(n, xbar) + d * d);
    }
  }

  /** On a straight line the regression returns the slope of the line. */
  lemma {:induction false} SlopeOfLine(ys: seq<real>, start: real, step: real)
    requires |ys| >= 2 && OnLine(ys, start, step)
    ensures Regression(ys) == step
  {
    var n := |ys| as real;
    var xbar := (|ys| - 1) as real / 2.0;
    LineSums(ys, start, step);
    MeanOfLine(n, start, step);
    assert Sum(ys) / n == start + step * xbar;
    LineCoMoment(ys, start, step, xbar);
    SpreadIsPositive(|ys|, xbar);
    Cancels(step, Spread(|ys|, xbar));
  }

  lemma MeanOfLine(n: real, start: real, step: real)
    requires n > 0.0
    ensures (n * start + step * (n * (n - 1.0) / 2.0)) / n == start + step * ((n - 1.0) / 2.0)
  {
    assert step * (n * (n - 1.0) / 2.0) == n * (step * ((n - 1.0) / 2.0));
    assert n * start + n * (step * ((n - 1.0) / 2.0)) == n * (start + step * ((n - 1.0) / 2.0));
  }

  // ---- the chandelier stop ----

  /** The highest high of the bars from `entry` up to, not including, `end`. */
  function PeakSince(bars: seq<Bar>, entry: nat, end: nat): real
    requires entry < end <= |bars|
  {
    if end == entry + 1 then bars[entry].high else Max(PeakSince(bars, entry, end - 1), bars[end - 1].high)
  }

  lemma {:induction false} PeakIsMaximum(bars: seq<Bar>, entry: nat, end: nat)
    requires entry < end <= |bars|
    ensures forall k :: entry <= k < end ==> bars[k].high <= PeakSince(bars, entry, end)
    ensures exists k :: entry <= k < end && bars[k].high == PeakSince(bars, entry, end)
  {
    if end == entry + 1 {
      assert bars[entry].high == PeakSince(bars, entry, end);
    } else {
      PeakIsMaximum(bars, entry, end - 1);
      if PeakSince(bars, entry, end) == bars[end - 1].high {
      } else {
        var k :| entry <= k < end - 1 && bars[k].high == PeakSince(bars, entry, end - 1);
        assert bars[k].high == PeakSince(bars, entry, end);
      }
    }
  }

  function StopLevel(peak: real, multiple: real, atr: real): real { peak - multiple * atr }

  /** The bars that set the peak in force on bar i: the entry bar, then everything before i. */
  function PeakEnd(entry: nat, i: nat): nat { if i == entry then entry + 1 else i }

  /** The stop in force on bar i of a position entered on bar `entry`. */
  function ChandelierStop(bars: seq<Bar>, entry: nat, i: nat, multiple: real, period: nat): real
    requires entry <= i < |bars| && period > 0
  {
    StopLevel(PeakSince(bars, entry, PeakEnd(entry, i)), multiple, AtrOf(History(bars, i), period))
  }

  /** The loop over the bars, given the ATR series. */
  method StopsFrom(bars: seq<Bar>, entry: nat, multiple: real, atr: seq<real>) returns (stops: seq<real>)
    requires entry < |bars| == |atr|
    ensures |stops| == |bars|
    ensures forall i :: 0 <= i < entry ==> stops[i] == 0.0
    ensures forall i :: entry <= i < |bars| ==>
              stops[i] == StopLevel(PeakSince(bars, entry, PeakEnd(entry, i)), multiple, atr[i])
  {
    var a := new real[|bars|](_ => 0.0);
    var peak := bars[entry].high;
    a[entry] := StopLevel(peak, multiple, atr[entry]);
    for i := entry + 1 to |bars|
      invariant peak == PeakSince(bars, entry, PeakEnd(entry, i - 1))
      invariant forall k :: 0 <= k < entry || i <= k < |bars| ==> a[k] == 0.0
      invariant forall k :: entry <= k < i ==>
                  a[k] == StopLevel(PeakSince(bars, entry, PeakEnd(entry, k)), multiple, atr[k])
    {
      peak := Max(peak, bars[i - 1].high);
      a[i] := StopLevel(peak, multiple, atr[i]);
    }
    return a[..];
  }

  /** chandelier_stop_entry_peak. */
  method ChandelierStops(bars: seq<Bar>, entry: nat, multiple: real, period: nat) returns (first: real, stops: seq<real>)
    requires period > 0
    ensures |stops| == |bars|
    ensures forall i :: 0 <= i < |bars| && i < entry ==> stops[i] == 0.0
    ensures forall i :: entry <= i < |bars| ==> stops[i] == ChandelierStop(bars, entry, i, multiple, period)
    ensures first == if entry < |bars| then stops[entry] else 0.0
  {
    var atr := Atr(bars, period);
    if entry >= |bars| { return 0.0, seq(|bars|, _ => 0.0); }
    stops := StopsFrom(bars, entry, multiple, atr);
    return stops[entry], stops;
  }

  datatype ExitReason = NoReason | GapOpen | StopHit | MaCross | StpLmtFill | StpLmtUnfilled | EndOfWindow

  /** exit_simulate: gap through the stop fills at the open, otherwise at the stop. */
  function ExitSimulate(b: Bar, stop: real): (bool, real, ExitReason) {
    if b.low <= stop then
      if b.open < stop then (true, b.open, GapOpen) else (true, stop, StopHit)
    else (false, 0.0, NoReason)
  }
}
