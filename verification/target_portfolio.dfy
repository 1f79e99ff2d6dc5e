/** Target portfolio construction (build_target_portfolio in production/target_portfolio.py). */
module TargetPortfolios {
  import opened Models
  import opened PortfolioRisk
  import opened Correlation

  datatype Intent = Intent(symbol: string, side: Side, target: real, entryPrice: Option<real>, stopPrice: Option<real>)

  /** What the security master and the recent bars say about a symbol. */
  datatype Metadata = Metadata(sector: string, currency: string, beta: real, leverage: real, medianVolume: Option<real>)

  type Master = string -> Metadata

  function PlanFor(i: Intent, master: Master): PositionPlan {
    var m := master(i.symbol);
    PositionPlan(i.symbol, Max(0.0, i.target), i.stopPrice, i.entryPrice, DEFAULT_GROUP, true,
                 m.sector, m.currency, m.beta, m.leverage, m.medianVolume, false)
  }

  /** Dictionary assignment by symbol: a new symbol goes last, a known one is replaced in place. */
  function Put(s: seq<PositionPlan>, p: PositionPlan): seq<PositionPlan> {
    if s == [] then [p]
    else if s[0].symbol == p.symbol then [p] + s[1..]
    else [s[0]] + Put(s[1..], p)
  }

  ghost predicate DistinctSymbols(positions: seq<PositionPlan>) {
    forall i, j :: 0 <= i < j < |positions| ==> positions[i].symbol != positions[j].symbol
  }

  ghost predicate Has(s: seq<PositionPlan>, symbol: string) { exists k :: 0 <= k < |s| && s[k].symbol == symbol }

  function Existing(plans: seq<PositionPlan>): seq<PositionPlan> {
    if plans == [] then [] else Put(Existing(plans[..|plans| - 1]), plans[|plans| - 1])
  }

  function Proposed(intents: seq<Intent>, master: Master): seq<PositionPlan> {
    if intents == [] then []
    else Put(Proposed(intents[..|intents| - 1], master), PlanFor(intents[|intents| - 1], master))
  }

  predicate Mentions(intents: seq<Intent>, symbol: string) { exists k :: 0 <= k < |intents| && intents[k].symbol == symbol }

  /** The positions no intent speaks about. */
  function Untouched(plans: seq<PositionPlan>, intents: seq<Intent>): seq<PositionPlan> {
    if plans == [] then []
    else
      var p := plans[|plans| - 1];
      Untouched(plans[..|plans| - 1], intents) + if Mentions(intents, p.symbol) then [] else [p]
  }

  /** The portfolio under review: untouched holdings, then every new target. */
  function Reviewed(held: seq<PositionPlan>, intents: seq<Intent>, master: Master): seq<PositionPlan> {
    Untouched(Existing(held), intents) + Proposed(intents, master)
  }

  /** The fraction a symbol has now; 0 if it is not held. */
  function Current(held: seq<PositionPlan>, symbol: string): real { FractionOf(Existing(held), symbol) }

  /** What the intent gets when the review fails: only a sale that does not increase the position goes through. */
  function Fallback(i: Intent, current: real): real {
    if i.side.Sell? && i.target <= current then Max(0.0, i.target) else current
  }

  /** The intent that counts for a symbol: the last one. */
  function LastIntent(intents: seq<Intent>, symbol: string): (r: Option<Intent>)
    ensures r.Some? <==> Mentions(intents, symbol)
    ensures r.Some? ==> r.value in intents && r.value.symbol == symbol
  {
    if intents == [] then None
    else
      var n := |intents| - 1;
      var before := LastIntent(intents[..n], symbol);
      if intents[n].symbol == symbol then Some(intents[n])
      else
        assert Mentions(intents, symbol) ==> Mentions(intents[..n], symbol) by {
          if Mentions(intents, symbol) {
            var k :| 0 <= k < |intents| && intents[k].symbol == symbol;
            assert intents[..n][k].symbol == symbol;
          }
        }
        before
  }

  /** What a failed review leaves of a holding no intent speaks about. */
  function Kept(s: seq<PositionPlan>, symbol: string): real {
    if s == [] then 0.0 else if s[0].symbol == symbol then Decided(s[0], false) else Kept(s[1..], symbol)
  }

  /** The final fraction of every reviewed symbol after a failed review. */
  function AfterFailure(held: seq<PositionPlan>, intents: seq<Intent>, symbol: string): real {
    var i := LastIntent(intents, symbol);
    if i.Some? then Fallback(i.value, Current(held, symbol)) else Kept(Existing(held), symbol)
  }

  // ---- dictionaries by symbol ----

  lemma {:induction false} PutKeeps(s: seq<PositionPlan>, p: PositionPlan)
    requires DistinctSymbols(s)
    ensures var r := Put(s, p);
            && DistinctSymbols(r)
            && (forall symbol :: Has(r, symbol) <==> Has(s, symbol) || symbol == p.symbol)
            && (forall k :: 0 <= k < |r| ==> r[k] == p || (r[k] in s && r[k].symbol != p.symbol))
            && p in r
  {
    if s != [] && s[0].symbol != p.symbol {
      var rest := s[1..];
      PutKeeps(rest, p);
      var r, tail := Put(s, p), Put(rest, p);
      assert r == [s[0]] + tail;
      forall symbol ensures Has(r, symbol) <==> Has(s, symbol) || symbol == p.symbol {
        HasSplits(s[0], rest, symbol);
        HasSplits(s[0], tail, symbol);
        assert s == [s[0]] + rest;
      }
      forall k | 0 <= k < |tail| ensures tail[k].symbol != s[0].symbol {
        assert tail[k] == p || tail[k] in rest;
      }
    } else if s != [] {
      var rest := s[1..];
      forall symbol ensures Has(Put(s, p), symbol) <==> Has(s, symbol) || symbol == p.symbol {
        HasSplits(s[0], rest, symbol);
        HasSplits(p, rest, symbol);
        assert s == [s[0]] + rest;
      }
    } else {
      forall symbol ensures Has([p], symbol) <==> symbol == p.symbol {
        if symbol == p.symbol { assert [p][0].symbol == symbol; }
      }
    }
  }

  lemma {:induction false} HasSplits(p: PositionPlan, rest: seq<PositionPlan>, symbol: string)
    ensures Has([p] + rest, symbol) <==> p.symbol == symbol || Has(rest, symbol)
  {
    var s := [p] + rest;
    if p.symbol == symbol { assert s[0].symbol == symbol; }
    if Has(rest, symbol) {
      var k :| 0 <= k < |rest| && rest[k].symbol == symbol;
      assert s[k + 1].symbol == symbol;
    }
    if Has(s, symbol) {
      var k :| 0 <= k < |s| && s[k].symbol == symbol;
      if k > 0 { assert rest[k - 1].symbol == symbol; }
    }
  }

  lemma {:induction false} ExistingIsDistinct(plans: seq<PositionPlan>)
    ensures DistinctSymbols(Existing(plans))
    ensures forall k :: 0 <= k < |Existing(plans)| ==> Existing(plans)[k] in plans
  {
    if plans != [] {
      var n := |plans| - 1;
      ExistingIsDistinct(plans[..n]);
      PutKeeps(Existing(plans[..n]), plans[n]);
    }
  }

  lemma {:induction false} ProposedIsDistinct(intents: seq<Intent>, master: Master)
    ensures DistinctSymbols(Proposed(intents, master))
    ensures forall symbol :: Has(Proposed(intents, master), symbol) <==> Mentions(intents, symbol)
    ensures forall k :: 0 <= k < |Proposed(intents, master)| ==>
              Proposed(intents, master)[k].proposed && Proposed(intents, master)[k].fraction >= 0.0
  {
    if intents != [] {
      var n := |intents| - 1;
      ProposedIsDistinct(intents[..n], master);
      PutKeeps(Proposed(intents[..n], master), PlanFor(intents[n], master));
      forall symbol ensures Mentions(intents, symbol) <==> Mentions(intents[..n], symbol) || symbol == intents[n].symbol {
        if Mentions(intents[..n], symbol) {
          var k :| 0 <= k < n && intents[..n][k].symbol == symbol;
          assert intents[k].symbol == symbol;
        }
        if Mentions(intents, symbol) {
          var k :| 0 <= k < |intents| && intents[k].symbol == symbol;
          if k < n { assert intents[..n][k].symbol == symbol; }
        }
      }
    }
  }

  lemma {:induction false} UntouchedKeeps(plans: seq<PositionPlan>, intents: seq<Intent>)
    requires DistinctSymbols(plans)
    ensures DistinctSymbols(Untouched(plans, intents))
    ensures forall k :: 0 <= k < |Untouched(plans, intents)| ==>
              Untouched(plans, intents)[k] in plans && !Mentions(intents, Untouched(plans, intents)[k].symbol)
  {
    if plans != [] {
      UntouchedKeeps(plans[..|plans| - 1], intents);
    }
  }

  lemma {:induction false} ReviewedIsDistinct(held: seq<PositionPlan>, intents: seq<Intent>, master: Master)
    ensures DistinctSymbols(Reviewed(held, intents, master))
  {
    ExistingIsDistinct(held);
    UntouchedKeeps(Existing(held), intents);
    ProposedIsDistinct(intents, master);
    var a, b := Untouched(Existing(held), intents), Proposed(intents, master);
    forall i, j | 0 <= i < |a| && 0 <= j < |b| ensures a[i].symbol != b[j].symbol {
      assert Has(b, b[j].symbol);
    }
  }

  lemma {:induction false} LastOfDistinct(s: seq<PositionPlan>, k: nat)
    requires DistinctSymbols(s) && k < |s|
    ensures LastPlan(s, s[k].symbol) == Some(s[k])
  {
    if k < |s| - 1 { LastOfDistinct(s[..|s| - 1], k); }
  }

  lemma {:induction false} FractionInside(s: seq<PositionPlan>, p: PositionPlan)
    requires DistinctSymbols(s) && p in s
    ensures FractionOf(s, p.symbol) == p.fraction && Kept(s, p.symbol) == Decided(p, false)
  {
    if s[0] != p {
      var k :| 0 <= k < |s| && s[k] == p;
      assert s[1..][k - 1] == p;
      FractionInside(s[1..], p);
    }
  }

  // ---- the builder ----

  method Prepare(held: seq<PositionPlan>, intents: seq<Intent>, master: Master) returns (all: seq<PositionPlan>)
    ensures all == Reviewed(held, intents, master)
  {
    var existing: seq<PositionPlan> := [];
    for k := 0 to |held|
      invariant existing == Existing(held[..k])
    {
      assert held[..k + 1][..k] == held[..k];
      existing := Put(existing, held[k]);
    }
    assert held[..|held|] == held;
    var proposed: seq<PositionPlan> := [];
    for k := 0 to |intents|
      invariant proposed == Proposed(intents[..k], master)
    {
      assert intents[..k + 1][..k] == intents[..k];
      proposed := Put(proposed, PlanFor(intents[k], master));
    }
    assert intents[..|intents|] == intents;
    all := Untouched(existing, intents) + proposed;
  }

  /** build_target_portfolio. */
  method BuildTargetPortfolio(held: seq<PositionPlan>, intents: seq<Intent>, master: Master, equity: real,
                              account: Option<Account>, policy: Policy, market: Market)
    returns (passed: bool, final: map<string, real>)
    // a pass: every cap holds for the reviewed portfolio, and the final fractions are its fractions
    ensures passed <==> Reviewed(held, intents, master) == [] || Within(Reviewed(held, intents, master), equity, account, policy, market)
    ensures passed ==> forall k :: 0 <= k < |Reviewed(held, intents, master)| ==>
              var p := Reviewed(held, intents, master)[k]; p.symbol in final && final[p.symbol] == p.fraction
    // either way: exactly the reviewed symbols have a final fraction
    ensures forall symbol :: symbol in final <==> Has(Reviewed(held, intents, master), symbol)
    // a failure: reductions survive, everything else falls back, and only a short position can be raised
    ensures !passed ==> forall symbol :: symbol in final ==> final[symbol] == AfterFailure(held, intents, symbol)
    ensures !passed ==> forall symbol :: symbol in final ==>
              (final[symbol] > Current(held, symbol) <==> ShortIsCovered(held, intents, symbol))
  {
    var all := Prepare(held, intents, master);
    ReviewedIsDistinct(held, intents, master);
    if all == [] { return true, map[]; }
    passed, final := ApplyDecision(all, equity, account, policy, market);
    forall k | 0 <= k < |all| ensures LastPlan(all, all[k].symbol) == Some(all[k]) {
      LastOfDistinct(all, k);
    }
    assert forall symbol :: symbol in final <==> Has(all, symbol);
    if !passed {
      DecisionKeepsHoldings(held, intents, master, final);
      final := FallBack(held, intents, final);
      forall symbol | symbol in final
        ensures final[symbol] > Current(held, symbol) <==> ShortIsCovered(held, intents, symbol)
      {
        FailureRaisesShorts(held, intents, symbol);
      }
    }
  }

  /** The one way a failed review raises a fraction: a negative holding ends at 0 because its last intent is a sale
      to a target at or below it, or because the holding itself was marked as proposed and no intent names it. */
  predicate ShortIsCovered(held: seq<PositionPlan>, intents: seq<Intent>, symbol: string) {
    var i := LastIntent(intents, symbol);
    && Current(held, symbol) < 0.0
    && if i.Some? then i.value.side.Sell? && i.value.target <= Current(held, symbol)
       else Kept(Existing(held), symbol) == 0.0
  }

  lemma {:induction false} KeptIsAllOrNothing(s: seq<PositionPlan>, symbol: string)
    ensures Kept(s, symbol) == FractionOf(s, symbol) || Kept(s, symbol) == 0.0
  {
    if s != [] { KeptIsAllOrNothing(s[1..], symbol); }
  }

  lemma FailureRaisesShorts(held: seq<PositionPlan>, intents: seq<Intent>, symbol: string)
    ensures AfterFailure(held, intents, symbol) > Current(held, symbol) <==> ShortIsCovered(held, intents, symbol)
  {
    KeptIsAllOrNothing(Existing(held), symbol);
  }

  /** Without short holdings a failed review never adds risk. */
  lemma FailureNeverAddsRisk(held: seq<PositionPlan>, intents: seq<Intent>, symbol: string)
    requires forall k :: 0 <= k < |held| ==> held[k].fraction >= 0.0
    ensures AfterFailure(held, intents, symbol) <= Current(held, symbol)
  {
    ExistingIsDistinct(held);
    FractionIsNonNegative(Existing(held), symbol);
    FailureRaisesShorts(held, intents, symbol);
  }

  lemma {:induction false} FractionIsNonNegative(s: seq<PositionPlan>, symbol: string)
    requires forall k :: 0 <= k < |s| ==> s[k].fraction >= 0.0
    ensures FractionOf(s, symbol) >= 0.0
  {
    if s != [] { FractionIsNonNegative(s[1..], symbol); }
  }

  /** After a failed review only untouched holdings keep a fraction. */
  lemma {:induction false} DecisionKeepsHoldings(
      held: seq<PositionPlan>, intents: seq<Intent>, master: Master, decided: map<string, real>)
    requires forall symbol :: symbol in decided <==> Has(Reviewed(held, intents, master), symbol)
    requires forall k :: 0 <= k < |Reviewed(held, intents, master)| ==>
               var p := Reviewed(held, intents, master)[k]; p.symbol in decided && decided[p.symbol] == Decided(p, false)
    ensures forall symbol :: symbol in decided && !Mentions(intents, symbol) ==>
              decided[symbol] == Kept(Existing(held), symbol)
    ensures forall symbol :: Mentions(intents, symbol) ==> symbol in decided
  {
    ExistingIsDistinct(held);
    UntouchedKeeps(Existing(held), intents);
    ProposedIsDistinct(intents, master);
    var kept, targets := Untouched(Existing(held), intents), Proposed(intents, master);
    var all := Reviewed(held, intents, master);
    forall symbol | symbol in decided
      ensures Mentions(intents, symbol) || decided[symbol] == Kept(Existing(held), symbol)
    {
      var k :| 0 <= k < |all| && all[k].symbol == symbol;
      if k < |kept| {
        FractionInside(Existing(held), kept[k]);
      } else {
        assert Has(targets, targets[k - |kept|].symbol);
      }
    }
    forall symbol | Mentions(intents, symbol) ensures symbol in decided {
      var j :| 0 <= j < |targets| && targets[j].symbol == symbol;
      assert all[|kept| + j] == targets[j];
    }
  }

  /** The loop over the intents after a failed review. */
  method FallBack(held: seq<PositionPlan>, intents: seq<Intent>, decided: map<string, real>) returns (final: map<string, real>)
    requires forall symbol :: Mentions(intents, symbol) ==> symbol in decided
    requires forall symbol :: symbol in decided && !Mentions(intents, symbol) ==>
               decided[symbol] == Kept(Existing(held), symbol)
    ensures final.Keys == decided.Keys
    ensures forall symbol :: symbol in final ==> final[symbol] == AfterFailure(held, intents, symbol)
  {
    final := decided;
    for n := 0 to |intents|
      invariant final.Keys == decided.Keys
      invariant forall symbol :: symbol in final ==>
                  var i := LastIntent(intents[..n], symbol);
                  final[symbol] == if i.Some? then Fallback(i.value, Current(held, symbol)) else decided[symbol]
    {
      assert intents[..n + 1][..n] == intents[..n];
      var i := intents[n];
      assert Mentions(intents, i.symbol);
      var current := Current(held, i.symbol);
      var fraction := current;
      if i.side.Sell? && i.target <= current { fraction := Max(0.0, i.target); }
      final := final[i.symbol := fraction];
    }
    assert intents[..|intents|] == intents;
  }
}
