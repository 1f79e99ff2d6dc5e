/** Pairwise correlation of daily returns (compute_pair_correlations in production/portfolio_risk.py). */
module Correlation {
  import opened Models
  import opened Arithmetic
  import opened Indicators

  const CORR_WINDOW: nat := 252
  const MIN_COMMON_OBS: nat := 200

  /** One daily close; a history lists them by ascending day. */
  datatype Close = Close(day: int, price: real)

  predicate Known(history: seq<Close>, day: int) { exists k :: 0 <= k < |history| && history[k].day == day }

  function PriceOn(history: seq<Close>, day: int): real {
    if history == [] then 0.0
    else if history[|history| - 1].day == day then history[|history| - 1].price
    else PriceOn(history[..|history| - 1], day)
  }

  /** Both closes of every day the two histories share, in order. */
  function Shared(a: seq<Close>, b: seq<Close>): seq<(real, real)> {
    if a == [] then []
    else
      var last := a[|a| - 1];
      Shared(a[..|a| - 1], b) + if Known(b, last.day) then [(last.price, PriceOn(b, last.day))] else []
  }

  /** Returns from one shared day to the next, where both earlier closes are positive. */
  function PairReturns(closes: seq<(real, real)>): seq<(real, real)> {
    if |closes| < 2 then []
    else
      var n := |closes|;
      var p, q := closes[n - 2], closes[n - 1];
      PairReturns(closes[..n - 1]) + if p.0 > 0.0 && p.1 > 0.0 then [(q.0 / p.0 - 1.0, q.1 / p.1 - 1.0)] else []
  }

  function Firsts(s: seq<(real, real)>): (r: seq<real>)
    ensures |r| == |s| && forall k :: 0 <= k < |s| ==> r[k] == s[k].0
  {
    seq(|s|, k requires 0 <= k < |s| => s[k].0)
  }

  function Seconds(s: seq<(real, real)>): (r: seq<real>)
    ensures |r| == |s| && forall k :: 0 <= k < |s| ==> r[k] == s[k].1
  {
    seq(|s|, k requires 0 <= k < |s| => s[k].1)
  }

  function Mean(xs: seq<real>): real
    requires xs != []
  {
    Sum(xs) / |xs| as real
  }

  /** Sum of products of the deviations from two given means. */
  function CoDeviation(xs: seq<real>, ys: seq<real>, mx: real, my: real): real
    requires |xs| == |ys|
  {
    if xs == [] then 0.0
    else
      var n := |xs| - 1;
      CoDeviation(xs[..n], ys[..n], mx, my) + Times(xs[n] - mx, ys[n] - my)
  }

  function Covariance(xs: seq<real>, ys: seq<real>): real
    requires |xs| == |ys| >= 2
  {
    CoDeviation(xs, ys, Mean(xs), Mean(ys)) / (|xs| - 1) as real
  }

  function Variance(xs: seq<real>): real
    requires |xs| >= 2
  {
    Covariance(xs, xs)
  }

  /** The stored correlation, if there are enough observations and both series move. */
  function CorrelationOf(a: seq<Close>, b: seq<Close>, root: real -> real): Option<real> {
    var rs := PairReturns(Shared(a, b));
    if |rs| < MIN_COMMON_OBS then None
    else
      var va, vb := Variance(Firsts(rs)), Variance(Seconds(rs));
      if va > 0.0 && vb > 0.0 && root(Times(va, vb)) != 0.0
      then Some(Covariance(Firsts(rs), Seconds(rs)) / root(Times(va, vb))) else None
  }

  /** The daily closes of every symbol and the square root. */
  datatype Market = Market(closes: string -> seq<Close>, root: real -> real)

  /** The last 252 closes; none for a symbol with fewer. */
  function Recent(market: Market, symbol: string): seq<Close> {
    var closes := market.closes(symbol);
    if |closes| < CORR_WINDOW then [] else closes[|closes| - CORR_WINDOW..]
  }

  /** Two symbols are correlated over their recent closes; one with too short a history correlates with nothing. */
  function PairCorrelation(market: Market, a: string, b: string): Option<real> {
    if Recent(market, a) == [] || Recent(market, b) == [] then None
    else CorrelationOf(Recent(market, a), Recent(market, b), market.root)
  }

  /** The three accumulating sums. */
  method Moments(xs: seq<real>, ys: seq<real>) returns (cov: real, va: real, vb: real)
    requires |xs| == |ys| >= 2
    ensures cov == Covariance(xs, ys) && va == Variance(xs) && vb == Variance(ys)
  {
    var m := |xs|;
    var sx := Total(xs);
    var sy := Total(ys);
    var mx, my := sx / m as real, sy / m as real;
    cov, va, vb := 0.0, 0.0, 0.0;
    for k := 0 to m
      invariant cov == CoDeviation(xs[..k], ys[..k], mx, my)
      invariant va == CoDeviation(xs[..k], xs[..k], mx, mx) && vb == CoDeviation(ys[..k], ys[..k], my, my)
    {
      assert xs[..k + 1][..k] == xs[..k] && ys[..k + 1][..k] == ys[..k];
      cov := cov + Times(xs[k] - mx, ys[k] - my);
      va := va + Times(xs[k] - mx, xs[k] - mx);
      vb := vb + Times(ys[k] - my, ys[k] - my);
    }
    assert xs[..m] == xs && ys[..m] == ys;
    var d := (m - 1) as real;
    return cov / d, va / d, vb / d;
  }

  method Correlate(a: seq<Close>, b: seq<Close>, root: real -> real) returns (c: Option<real>)
    ensures c == CorrelationOf(a, b, root)
  {
    var rs := PairReturns(Shared(a, b));
    if |rs| < MIN_COMMON_OBS { return None; }
    var cov, va, vb := Moments(Firsts(rs), Seconds(rs));
    if va > 0.0 && vb > 0.0 {
      var scale := root(Times(va, vb));
      if scale != 0.0 { return Some(cov / scale); }
    }
    return None;
  }

  /** The pairs a nested loop has visited when it is about to compare symbols i and j. */
  ghost predicate Visited(symbols: seq<string>, i: nat, j: nat, a: string, b: string) {
    exists k, l :: 0 <= k < l < |symbols| && (k < i || (k == i && l < j)) && symbols[k] == a && symbols[l] == b
  }

  /** `a` occurs in the list and `b` somewhere after it. */
  ghost predicate Before(symbols: seq<string>, a: string, b: string) {
    exists k, l :: 0 <= k < l < |symbols| && symbols[k] == a && symbols[l] == b
  }

  type Table = map<(string, string), real>

  ghost predicate TableOf(corr: Table, market: Market, symbols: seq<string>, i: nat, j: nat) {
    && (forall a, b :: (a, b) in corr <==> Visited(symbols, i, j, a, b) && PairCorrelation(market, a, b).Some?)
    && (forall a, b :: (a, b) in corr ==> Some(corr[(a, b)]) == PairCorrelation(market, a, b))
  }

  /** compute_pair_correlations: one entry for every ordered pair of symbols whose correlation exists. */
  method PairCorrelations(market: Market, symbols: seq<string>) returns (corr: Table)
    ensures forall a, b :: (a, b) in corr <==> Before(symbols, a, b) && PairCorrelation(market, a, b).Some?
    ensures forall a, b :: (a, b) in corr ==> Some(corr[(a, b)]) == PairCorrelation(market, a, b)
  {
    corr := map[];
    for i := 0 to |symbols|
      invariant TableOf(corr, market, symbols, i, i + 1)
    {
      for j := i + 1 to |symbols|
        invariant TableOf(corr, market, symbols, i, j)
      {
        var c := CorrelateRecent(market, symbols[i], symbols[j]);
        NextVisited(symbols, i, j);
        if c.Some? { corr := corr[(symbols[i], symbols[j]) := c.value]; }
      }
      NextRow(symbols, i);
    }
    forall a, b ensures Visited(symbols, |symbols|, |symbols| + 1, a, b) <==> Before(symbols, a, b) {
    }
  }

  method CorrelateRecent(market: Market, a: string, b: string) returns (c: Option<real>)
    ensures c == PairCorrelation(market, a, b)
  {
    var x, y := Recent(market, a), Recent(market, b);
    if x == [] || y == [] { return None; }
    c := Correlate(x, y, market.root);
  }

  lemma NextVisited(symbols: seq<string>, i: nat, j: nat)
    requires i < j < |symbols|
    ensures forall a, b :: Visited(symbols, i, j + 1, a, b) <==>
              Visited(symbols, i, j, a, b) || (a == symbols[i] && b == symbols[j])
  {
    assert Visited(symbols, i, j + 1, symbols[i], symbols[j]);
    forall a, b | Visited(symbols, i, j + 1, a, b)
      ensures Visited(symbols, i, j, a, b) || (a == symbols[i] && b == symbols[j])
    {
      var k, l :| 0 <= k < l < |symbols| && (k < i || (k == i && l < j + 1)) && symbols[k] == a && symbols[l] == b;
      if k < i || l < j { assert Visited(symbols, i, j, a, b); }
    }
  }

  lemma NextRow(symbols: seq<string>, i: nat)
    requires i < |symbols|
    ensures forall a, b :: Visited(symbols, i + 1, i + 2, a, b) <==> Visited(symbols, i, |symbols|, a, b)
  {
  }

  // ---- Cauchy-Schwarz over the loops ----

  /** c - 2 t b + t^2 a. */
  function QuadraticAt(a: real, b: real, c: real, t: real): real { c - 2.0 * t * b + t * t * a }

  /** The sum of (y - t x)^2 over deviations is a quadratic in t, and never negative. */
  lemma {:induction false} Quadratic(xs: seq<real>, ys: seq<real>, mx: real, my: real, t: real)
    requires |xs| == |ys|
    ensures QuadraticAt(CoDeviation(xs, xs, mx, mx), CoDeviation(xs, ys, mx, my), CoDeviation(ys, ys, my, my), t) >= 0.0
  {
    if xs != [] {
      var n := |xs| - 1;
      Quadratic(xs[..n], ys[..n], mx, my, t);
      SquareTerm(xs[n] - mx, ys[n] - my, t, CoDeviation(xs[..n], xs[..n], mx, mx),
                 CoDeviation(xs[..n], ys[..n], mx, my), CoDeviation(ys[..n], ys[..n], my, my));
    }
  }

  lemma SquareTerm(x: real, y: real, t: real, a: real, b: real, c: real)
    requires QuadraticAt(a, b, c, t) >= 0.0
    ensures QuadraticAt(a + Times(x, x), b + Times(x, y), c + Times(y, y), t) >= 0.0
  {
    var d := y - t * x;
    assert d * d >= 0.0;
    assert d * d == y * y - 2.0 * t * (x * y) + t * t * (x * x);
    assert 2.0 * t * (b + x * y) == 2.0 * t * b + 2.0 * t * (x * y);
    assert t * t * (a + x * x) == t * t * a + t * t * (x * x);
  }

  lemma Square(x: real)
    ensures Times(x, x) >= 0.0
    ensures Times(x, x) == 0.0 ==> x == 0.0
  {
    if x != 0.0 { assert x == Times(x, x) / x; }
  }

  lemma {:induction false} SquaresAddUp(xs: seq<real>, mx: real)
    ensures CoDeviation(xs, xs, mx, mx) >= 0.0
  {
    if xs != [] {
      SquaresAddUp(xs[..|xs| - 1], mx);
      Square(xs[|xs| - 1] - mx);
    }
  }

  lemma {:induction false} StillSeriesVanishes(xs: seq<real>, ys: seq<real>, mx: real, my: real)
    requires |xs| == |ys| && CoDeviation(xs, xs, mx, mx) == 0.0
    ensures CoDeviation(xs, ys, mx, my) == 0.0
  {
    if xs != [] {
      var n := |xs| - 1;
      SquaresAddUp(xs[..n], mx);
      Square(xs[n] - mx);
      StillSeriesVanishes(xs[..n], ys[..n], mx, my);
      assert Times(0.0, ys[n] - my) == 0.0;
    }
  }

  lemma Discriminant(a: real, b: real, c: real)
    requires a > 0.0 && QuadraticAt(a, b, c, b / a) >= 0.0
    ensures Times(b, b) <= Times(a, c)
  {
    var t := b / a;
    assert t * a == b;
    assert t * t * a == t * b;
    assert c - t * b >= 0.0;
    assert (c - t * b) * a >= 0.0;
    assert (c - t * b) * a == c * a - t * a * b;
  }

  /** Cauchy-Schwarz for the accumulated sums of any two series. */
  lemma {:induction false} CoDeviationBound(xs: seq<real>, ys: seq<real>, mx: real, my: real)
    requires |xs| == |ys|
    ensures Times(CoDeviation(xs, ys, mx, my), CoDeviation(xs, ys, mx, my))
            <= Times(CoDeviation(xs, xs, mx, mx), CoDeviation(ys, ys, my, my))
  {
    var a, b, c := CoDeviation(xs, xs, mx, mx), CoDeviation(xs, ys, mx, my), CoDeviation(ys, ys, my, my);
    SquaresAddUp(xs, mx);
    if a == 0.0 {
      StillSeriesVanishes(xs, ys, mx, my);
      NothingBounds(c);
    } else {
      Quadratic(xs, ys, mx, my, b / a);
      Discriminant(a, b, c);
    }
  }

  lemma NothingBounds(c: real)
    ensures Times(0.0, 0.0) <= Times(0.0, c)
  {
  }

  lemma Scaled(b: real, a: real, c: real, d: real)
    requires d > 0.0 && Times(b, b) <= Times(a, c)
    ensures b / d * (b / d) <= a / d * (c / d)
  {
    var u := 1.0 / d;
    assert b / d == b * u && a / d == a * u && c / d == c * u;
    Regroup(b, b, u);
    Regroup(a, c, u);
    assert u * u >= 0.0;
    assert (a * c - b * b) * (u * u) >= 0.0;
  }

  /** The covariance the loops compute never exceeds the variances: cov^2 <= va * vb. */
  lemma CovarianceIsBounded(xs: seq<real>, ys: seq<real>)
    requires |xs| == |ys| >= 2
    ensures Covariance(xs, ys) * Covariance(xs, ys) <= Variance(xs) * Variance(ys)
  {
    CoDeviationBound(xs, ys, Mean(xs), Mean(ys));
    Scaled(CoDeviation(xs, ys, Mean(xs), Mean(ys)), CoDeviation(xs, xs, Mean(xs), Mean(xs)),
           CoDeviation(ys, ys, Mean(ys), Mean(ys)), (|xs| - 1) as real);
  }

  /** `root` is a square root. */
  ghost predicate IsRoot(root: real -> real) { forall x :: x >= 0.0 ==> root(x) >= 0.0 && root(x) * root(x) == x }

  lemma RatioWithinOne(x: real, s: real)
    requires s > 0.0 && x * x <= s * s
    ensures -1.0 <= x / s <= 1.0
  {
    var q := x / s;
    assert q * s == x;
    SquareOfProduct(q, s, x);
    ProductIsPositive(s, s);
    AtMostOne(Times(q, q), Times(s, s));
    WithinOne(q);
  }

  lemma SquareOfProduct(q: real, s: real, x: real)
    requires q * s == x
    ensures Times(q, q) * Times(s, s) == x * x
  {
    calc {
      Times(q, q) * Times(s, s);
    ==
      q * q * (s * s);
    ==  { Regroup(q, q, s); }
      q * s * (q * s);
    ==
      x * (q * s);
    ==
      x * x;
    }
  }

  lemma AtMostOne(z: real, p: real)
    requires p > 0.0 && z * p <= p
    ensures z <= 1.0
  {
    assert (1.0 - z) * p == p - z * p;
    Quotient(1.0 - z, p);
  }

  lemma WithinOne(q: real)
    requires q * q <= 1.0
    ensures -1.0 <= q <= 1.0
  {
  }

  /** Every stored correlation lies in [-1, 1]. */
  lemma CorrelationIsBounded(a: seq<Close>, b: seq<Close>, root: real -> real)
    requires IsRoot(root) && CorrelationOf(a, b, root).Some?
    ensures -1.0 <= CorrelationOf(a, b, root).value <= 1.0
  {
    var rs := PairReturns(Shared(a, b));
    var xs, ys := Firsts(rs), Seconds(rs);
    CovarianceIsBounded(xs, ys);
    RootOfProduct(Covariance(xs, ys), Variance(xs), Variance(ys), root);
  }

  lemma RootOfProduct(cov: real, va: real, vb: real, root: real -> real)
    requires IsRoot(root) && va > 0.0 && vb > 0.0 && cov * cov <= va * vb && root(Times(va, vb)) != 0.0
    ensures -1.0 <= cov / root(Times(va, vb)) <= 1.0
  {
    assert Times(va, vb) >= 0.0;
    RatioWithinOne(cov, root(Times(va, vb)));
  }

  /** Two series with the same returns correlate perfectly, whatever their price levels. */
  lemma SameReturnsCorrelatePerfectly(a: seq<Close>, b: seq<Close>, root: real -> real)
    requires IsRoot(root) && CorrelationOf(a, b, root).Some?
    requires Firsts(PairReturns(Shared(a, b))) == Seconds(PairReturns(Shared(a, b)))
    ensures CorrelationOf(a, b, root) == Some(1.0)
  {
    var v := Variance(Firsts(PairReturns(Shared(a, b))));
    assert Times(v, v) >= 0.0;
    SameSquares(root(Times(v, v)), v);
    assert v / v == 1.0;
  }

  lemma SameSquares(s: real, v: real)
    requires s >= 0.0 && v > 0.0 && s * s == v * v
    ensures s == v
  {
    assert (s - v) * (s + v) == s * s - v * v;
    assert s - v == (s - v) * (s + v) / (s + v);
  }
}
