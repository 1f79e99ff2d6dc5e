/** Ranking and shortlisting of candidate parameter sets (research/walk_forward.py). */
module Selection {
  import opened Models
  import opened Indicators
  import opened Strategy
  import opened Backtest
  import opened Statistics

  const MIN_VARIANTS_FLOOR: nat := 5
  const SHORTLIST_SIZE: nat := 32

  /** The result of one backtest. */
  datatype Report = Report(params: Params, trades: seq<Trade>, equity: seq<real>, stats: Stats)

  // ---- the adaptive trade-count threshold ----

  function InsertCount(x: nat, s: seq<nat>): seq<nat> {
    if s == [] || x <= s[0] then [x] + s else [s[0]] + InsertCount(x, s[1..])
  }

  function SortCounts(s: seq<nat>): seq<nat> {
    if s == [] then [] else InsertCount(s[0], SortCounts(s[1..]))
  }

  predicate Ascending(s: seq<nat>) { forall i, j :: 0 <= i < j < |s| ==> s[i] <= s[j] }

  lemma {:induction false} InsertCountAdds(x: nat, s: seq<nat>)
    ensures multiset(InsertCount(x, s)) == multiset(s) + multiset{x}
    ensures forall k :: 0 <= k < |InsertCount(x, s)| ==> InsertCount(x, s)[k] == x || InsertCount(x, s)[k] in s
  {
    if s == [] || x <= s[0] {
      assert multiset([x] + s) == multiset([x]) + multiset(s);
    } else {
      InsertCountAdds(x, s[1..]);
      assert s == [s[0]] + s[1..];
    }
  }

  lemma {:induction false} InsertCountKeeps(x: nat, s: seq<nat>)
    requires Ascending(s)
    ensures Ascending(InsertCount(x, s))
  {
    if s != [] && x > s[0] {
      InsertCountKeeps(x, s[1..]);
      InsertCountAdds(x, s[1..]);
    }
  }

  lemma {:induction false} SortCountsSorts(s: seq<nat>)
    ensures Ascending(SortCounts(s)) && multiset(SortCounts(s)) == multiset(s) && |SortCounts(s)| == |s|
  {
    if s != [] {
      SortCountsSorts(s[1..]);
      InsertCountKeeps(s[0], SortCounts(s[1..]));
      InsertCountAdds(s[0], SortCounts(s[1..]));
      assert s == [s[0]] + s[1..];
      assert |multiset(SortCounts(s))| == |multiset(s)|;
    }
  }

  /** _min_variants_threshold: the lower quartile of the trade counts, but at least 5. */
  function MinVariants(counts: seq<nat>): nat {
    if counts == [] then MIN_VARIANTS_FLOOR
    else
      SortCountsSorts(counts);
      var p25 := SortCounts(counts)[|counts| / 4];
      if MIN_VARIANTS_FLOOR >= p25 then MIN_VARIANTS_FLOOR else p25
  }

  function Below(counts: seq<nat>, x: nat): nat {
    if counts == [] then 0 else Below(counts[..|counts| - 1], x) + if counts[|counts| - 1] < x then 1 else 0
  }

  lemma {:induction false} BelowSplits(a: seq<nat>, b: seq<nat>, x: nat)
    ensures Below(a + b, x) == Below(a, x) + Below(b, x)
    decreases |b|
  {
    if b == [] {
      assert a + b == a;
    } else {
      BelowSplits(a, b[..|b| - 1], x);
      assert (a + b)[..|a + b| - 1] == a + b[..|b| - 1];
    }
  }

  lemma {:induction false} BelowOne(y: nat, x: nat)
    ensures Below([y], x) == if y < x then 1 else 0
  {
    assert [y][..0] == [];
  }

  lemma {:induction false} InsertKeepsBelow(y: nat, s: seq<nat>, x: nat)
    ensures Below(InsertCount(y, s), x) == Below(s, x) + if y < x then 1 else 0
  {
    BelowOne(y, x);
    if s == [] || y <= s[0] {
      BelowSplits([y], s, x);
    } else {
      InsertKeepsBelow(y, s[1..], x);
      BelowSplits([s[0]], InsertCount(y, s[1..]), x);
      BelowSplits([s[0]], s[1..], x);
      assert s == [s[0]] + s[1..];
    }
  }

  lemma {:induction false} SortKeepsBelow(s: seq<nat>, x: nat)
    ensures Below(SortCounts(s), x) == Below(s, x)
  {
    if s != [] {
      SortKeepsBelow(s[1..], x);
      InsertKeepsBelow(s[0], SortCounts(s[1..]), x);
      BelowOne(s[0], x);
      BelowSplits([s[0]], s[1..], x);
      assert s == [s[0]] + s[1..];
    }
  }

  /** In a sorted list fewer than k + 1 elements are below the element at k. */
  lemma {:induction false} BelowSorted(s: seq<nat>, k: nat, x: nat)
    requires Ascending(s) && k <= |s| && (k < |s| ==> x <= s[k])
    ensures Below(s, x) <= k
  {
    if s != [] {
      var n := |s| - 1;
      if k <= n {
        BelowSorted(s[..n], if k < n then k else n, x);
      } else {
        BelowSorted(s[..n], n, x);
      }
    }
  }

  /** At most a quarter of the candidates trades too little to be kept, unless the floor of 5 decides. */
  lemma {:induction false} ThresholdDropsAQuarter(counts: seq<nat>)
    requires counts != []
    ensures MinVariants(counts) >= MIN_VARIANTS_FLOOR
    ensures MinVariants(counts) > MIN_VARIANTS_FLOOR ==>
              MinVariants(counts) in counts && Below(counts, MinVariants(counts)) <= |counts| / 4
  {
    SortCountsSorts(counts);
    var sorted := SortCounts(counts);
    var p25 := sorted[|counts| / 4];
    assert p25 in multiset(sorted);
    SortKeepsBelow(counts, p25);
    BelowSorted(sorted, |counts| / 4, p25);
  }

  // ---- shortlist ----

  /** a sorts strictly before b: Kelly, then return, then smaller drawdown, then more trades. */
  predicate Better(a: Stats, b: Stats) {
    if a.kelly != b.kelly then a.kelly > b.kelly
    else if a.totalReturnPct != b.totalReturnPct then a.totalReturnPct > b.totalReturnPct
    else if a.maxDrawdownPct != b.maxDrawdownPct then a.maxDrawdownPct < b.maxDrawdownPct
    else a.tradeCount > b.tradeCount
  }

  function InsertReport(x: Report, s: seq<Report>): seq<Report> {
    if s == [] || !Better(s[0].stats, x.stats) then [x] + s else [s[0]] + InsertReport(x, s[1..])
  }

  /** A stable sort: equals keep their order. */
  function Ranked(s: seq<Report>): seq<Report> {
    if s == [] then [] else InsertReport(s[0], Ranked(s[1..]))
  }

  ghost predicate InOrder(s: seq<Report>) {
    forall i, j :: 0 <= i < j < |s| ==> !Better(s[j].stats, s[i].stats)
  }

  lemma BetterIsTransitive(a: Stats, b: Stats, c: Stats)
    requires !Better(a, b) && !Better(b, c)
    ensures !Better(a, c)
  {
  }

  lemma {:induction false} FirstStaysInOrder(x: Report, s: seq<Report>)
    requires InOrder(s) && forall k :: 0 <= k < |s| ==> !Better(s[k].stats, x.stats)
    ensures InOrder([x] + s)
  {
  }

  lemma {:induction false} InsertReportKeeps(x: Report, s: seq<Report>)
    requires InOrder(s)
    ensures InOrder(InsertReport(x, s)) && multiset(InsertReport(x, s)) == multiset(s) + multiset{x}
  {
    if s == [] || !Better(s[0].stats, x.stats) {
      assert multiset([x] + s) == multiset([x]) + multiset(s);
      forall k | 0 <= k < |s| ensures !Better(s[k].stats, x.stats) {
        if k > 0 { BetterIsTransitive(s[k].stats, s[0].stats, x.stats); }
      }
      FirstStaysInOrder(x, s);
    } else {
      var rest := InsertReport(x, s[1..]);
      InsertReportKeeps(x, s[1..]);
      forall k | 0 <= k < |rest| ensures !Better(rest[k].stats, s[0].stats) {
        assert rest[k] in multiset(rest);
        assert rest[k] == x || rest[k] in s[1..];
      }
      FirstStaysInOrder(s[0], rest);
      assert s == [s[0]] + s[1..];
      assert multiset([s[0]] + rest) == multiset{s[0]} + multiset(rest);
    }
  }

  lemma {:induction false} RankedIsSorted(s: seq<Report>)
    ensures InOrder(Ranked(s)) && multiset(Ranked(s)) == multiset(s) && |Ranked(s)| == |s|
  {
    if s != [] {
      RankedIsSorted(s[1..]);
      InsertReportKeeps(s[0], Ranked(s[1..]));
      assert s == [s[0]] + s[1..];
      assert |multiset(Ranked(s))| == |multiset(s)|;
    }
  }

  predicate Tied(a: Stats, b: Stats) { !Better(a, b) && !Better(b, a) }

  /** The reports that rank the same as `c`, in list order. */
  function Ties(s: seq<Report>, c: Stats): seq<Report> {
    if s == [] then [] else (if Tied(s[0].stats, c) then [s[0]] else []) + Ties(s[1..], c)
  }

  lemma {:induction false} InsertKeepsTies(x: Report, s: seq<Report>, c: Stats)
    ensures Ties(InsertReport(x, s), c) == (if Tied(x.stats, c) then [x] else []) + Ties(s, c)
  {
    if s == [] || !Better(s[0].stats, x.stats) {
      assert ([x] + s)[1..] == s;
    } else {
      InsertKeepsTies(x, s[1..], c);
      assert ([s[0]] + InsertReport(x, s[1..]))[1..] == InsertReport(x, s[1..]);
    }
  }

  /** The sort is stable: candidates that rank the same stay in grid order. */
  lemma {:induction false} RankedIsStable(s: seq<Report>, c: Stats)
    ensures Ties(Ranked(s), c) == Ties(s, c)
  {
    if s != [] {
      RankedIsStable(s[1..], c);
      InsertKeepsTies(s[0], Ranked(s[1..]), c);
    }
  }

  function Counts(s: seq<Report>): (r: seq<nat>)
    ensures |r| == |s| && forall i :: 0 <= i < |s| ==> r[i] == s[i].stats.tradeCount
  {
    seq(|s|, i requires 0 <= i < |s| => s[i].stats.tradeCount)
  }

  predicate Viable(x: Report, least: nat) { x.stats.kelly > 0.0 && x.stats.tradeCount >= least }

  function Keep(s: seq<Report>, least: nat): seq<Report> {
    if s == [] then []
    else Keep(s[..|s| - 1], least) + if Viable(s[|s| - 1], least) then [s[|s| - 1]] else []
  }

  /** What is ranked: the viable candidates, or all of them when none is viable. */
  function Pool(candidates: seq<Report>): seq<Report> {
    var valid := Keep(candidates, MinVariants(Counts(candidates)));
    if valid != [] then valid else candidates
  }

  /** _train_shortlist. */
  function Shortlist(candidates: seq<Report>, limit: nat): (r: seq<Report>)
    ensures candidates != [] ==> r != []
  {
    if candidates == [] then []
    else
      var pool := Pool(candidates);
      RankedIsSorted(pool);
      var m := if limit < |pool| then limit else |pool|;
      Ranked(pool)[..if m < 1 then 1 else m]
  }

  lemma {:induction false} KeepKeepsViable(s: seq<Report>, least: nat)
    ensures forall x :: x in Keep(s, least) <==> x in s && Viable(x, least)
  {
    if s != [] {
      var n := |s| - 1;
      KeepKeepsViable(s[..n], least);
      assert s == s[..n] + [s[n]];
    }
  }

  /** The shortlist holds the best of the pool: nothing left out ranks above anything kept; and when any
      candidate is viable, only viable ones are kept. */
  lemma {:induction false} ShortlistIsBest(candidates: seq<Report>, limit: nat)
    requires candidates != [] && limit > 0
    ensures var short := Shortlist(candidates, limit);
            var least := MinVariants(Counts(candidates));
            && (forall x :: x in short ==> x in candidates)
            && ((exists x :: x in candidates && Viable(x, least)) ==> forall x :: x in short ==> Viable(x, least))
            && (forall j :: |short| <= j < |Ranked(Pool(candidates))| ==>
                  forall i :: 0 <= i < |short| ==> !Better(Ranked(Pool(candidates))[j].stats, short[i].stats))
            && multiset(Ranked(Pool(candidates))) == multiset(Pool(candidates))
  {
    var least := MinVariants(Counts(candidates));
    KeepKeepsViable(candidates, least);
    var pool := Pool(candidates);
    RankedIsSorted(pool);
    var short := Shortlist(candidates, limit);
    forall x | x in short ensures x in pool {
      assert x in Ranked(pool);
      assert x in multiset(Ranked(pool));
    }
  }

  // ---- the winner of the inner validation ----

  predicate Profitable(s: Stats) { s.tradeCount > 0 && s.totalReturnPct > 0.0 }

  /** _validation_rank(a) > _validation_rank(b), as tuples compare. */
  predicate Outranks(a: Stats, b: Stats) {
    if Profitable(a) != Profitable(b) then Profitable(a)
    else if a.sharpe != b.sharpe then a.sharpe > b.sharpe
    else if a.totalReturnPct != b.totalReturnPct then a.totalReturnPct > b.totalReturnPct
    else if a.maxDrawdownPct != b.maxDrawdownPct then a.maxDrawdownPct < b.maxDrawdownPct
    else a.tradeCount > b.tradeCount
  }

  /** max(candidates, key=_validation_rank): the first of the highest. */
  function Best(candidates: seq<Report>): (k: nat)
    requires candidates != []
    ensures k < |candidates|
  {
    var n := |candidates| - 1;
    if n == 0 then 0
    else
      var k := Best(candidates[..n]);
      if Outranks(candidates[n].stats, candidates[k].stats) then n else k
  }

  method FindBest(candidates: seq<Report>) returns (k: nat)
    requires candidates != []
    ensures k == Best(candidates)
  {
    k := 0;
    assert candidates[..1] == [candidates[0]];
    for i := 1 to |candidates|
      invariant k == Best(candidates[..i])
    {
      assert candidates[..i + 1][..i] == candidates[..i];
      if Outranks(candidates[i].stats, candidates[k].stats) { k := i; }
    }
    assert candidates[..|candidates|] == candidates;
  }

  /** Nothing outranks the winner, and every earlier candidate is strictly outranked by it. */
  lemma {:induction false} BestIsBest(candidates: seq<Report>)
    requires candidates != []
    ensures var k := Best(candidates);
            && (forall i :: 0 <= i < |candidates| ==> !Outranks(candidates[i].stats, candidates[k].stats))
            && (forall i :: 0 <= i < k ==> Outranks(candidates[k].stats, candidates[i].stats))
  {
    var n := |candidates| - 1;
    if n > 0 {
      BestIsBest(candidates[..n]);
    }
  }
}
