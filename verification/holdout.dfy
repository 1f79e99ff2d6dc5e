/** The single-use research holdout (seal, open and consume in shared/db.py). */
module Holdouts {
  import opened Models

  datatype HoldoutStatus = Sealed | Opened | Consumed | Contaminated

  /** The data a holdout covers; one interval belongs to one holdout. */
  datatype Interval = Interval(symbol: string, dataVersion: string, start: string, end: string)

  datatype Measured = Measured(passed: bool, reasons: seq<string>)

  datatype Holdout = Holdout(
    interval: Interval, status: HoldoutStatus, candidate: string, exposures: nat, result: Option<Measured>)

  type Table = map<string, Holdout>

  datatype OpenOutcome = FirstUse | Cached(result: Option<Measured>) | Refused | NotSealed

  datatype Action =
    | Seal(id: string, interval: Interval, candidate: string)
    | Open(id: string, candidate: string)
    | Consume(id: string, candidate: string, result: Measured)

  predicate IntervalTaken(t: Table, interval: Interval) { exists id :: id in t && t[id].interval == interval }

  /** seal_research_holdout; None when the interval is already sealed under another id. */
  function SealOf(t: Table, id: string, interval: Interval, candidate: string): Option<Table> {
    if id in t then
      Some(if t[id].candidate != candidate then t[id := t[id].(status := Contaminated)] else t)
    else if IntervalTaken(t, interval) then None
    else Some(t[id := Holdout(interval, Sealed, candidate, 0, None)])
  }

  function OpenOf(t: Table, id: string, candidate: string): (Table, OpenOutcome) {
    if id !in t then (t, NotSealed)
    else
      var row := t[id];
      if row.status.Sealed? && row.candidate == candidate then
        (t[id := row.(status := Opened, exposures := row.exposures + 1)], FirstUse)
      else if row.status.Consumed? && row.candidate == candidate then (t, Cached(row.result))
      else (t[id := row.(status := Contaminated, exposures := row.exposures + 1)], Refused)
  }

  /** consume_research_holdout; None when it is refused. */
  function ConsumeOf(t: Table, id: string, candidate: string, result: Measured): Option<Table> {
    if id in t && t[id].status.Opened? && t[id].candidate == candidate
    then Some(t[id := t[id].(status := HoldoutStatus.Consumed, result := Some(result))]) else None
  }

  function Apply(t: Table, a: Action): Table {
    match a
    case Seal(id, interval, candidate) =>
      var r := SealOf(t, id, interval, candidate); if r.Some? then r.value else t
    case Open(id, candidate) => OpenOf(t, id, candidate).0
    case Consume(id, candidate, result) =>
      var r := ConsumeOf(t, id, candidate, result); if r.Some? then r.value else t
  }

  function Exec(run: seq<Action>): Table {
    if run == [] then map[] else Apply(Exec(run[..|run| - 1]), run[|run| - 1])
  }

  class HoldoutStore {
    var table: Table
    ghost var history: seq<Action>

    ghost predicate Valid()
      reads this
    {
      table == Exec(history)
    }

    constructor ()
      ensures Valid() && history == []
    {
      table, history := map[], [];
    }

    ghost method Record(a: Action)
      modifies this`history
      ensures history == old(history) + [a] && Exec(history) == Apply(Exec(old(history)), a)
    {
      assert (history + [a])[..|history|] == history;
      history := history + [a];
    }

    method SealHoldout(id: string, interval: Interval, candidate: string) returns (row: Option<Holdout>)
      requires Valid()
      modifies this
      ensures Valid() && history == old(history) + [Seal(id, interval, candidate)]
      ensures row.None? <==> old(SealOf(table, id, interval, candidate)).None?
      ensures row.None? ==> table == old(table)
      ensures row.Some? ==> id in table && row.value == table[id]
    {
      Record(Seal(id, interval, candidate));
      if id !in table {
        if IntervalTaken(table, interval) { return None; }
        table := table[id := Holdout(interval, Sealed, candidate, 0, None)];
      } else if table[id].candidate != candidate {
        table := table[id := table[id].(status := Contaminated)];
      }
      return Some(table[id]);
    }

    method OpenHoldout(id: string, candidate: string) returns (outcome: OpenOutcome)
      requires Valid()
      modifies this
      ensures Valid() && history == old(history) + [Open(id, candidate)]
      ensures outcome == OpenOf(old(table), id, candidate).1
    {
      Record(Open(id, candidate));
      if id !in table { return NotSealed; }
      var row := table[id];
      var same := row.candidate == candidate;
      if row.status.Sealed? && same {
        table := table[id := row.(status := Opened, exposures := row.exposures + 1)];
        return FirstUse;
      }
      if row.status.Consumed? && same { return Cached(row.result); }
      table := table[id := row.(status := Contaminated, exposures := row.exposures + 1)];
      return Refused;
    }

    method ConsumeHoldout(id: string, candidate: string, result: Measured) returns (ok: bool)
      requires Valid()
      modifies this
      ensures Valid() && history == old(history) + [Consume(id, candidate, result)]
      ensures ok <==> old(id in table && table[id].status.Opened? && table[id].candidate == candidate)
      ensures ok ==> id in table && table[id] == old(table)[id].(status := HoldoutStatus.Consumed, result := Some(result))
      ensures !ok ==> table == old(table)
    {
      Record(Consume(id, candidate, result));
      if id !in table || !table[id].status.Opened? || table[id].candidate != candidate { return false; }
      table := table[id := table[id].(status := HoldoutStatus.Consumed, result := Some(result))];
      return true;
    }

    /** The last step of research_symbol: open once, measure, consume; a repeat gets the cached result. */
    method Evaluate(id: string, candidate: string, measure: () -> Measured) returns (r: Option<Measured>, cached: bool)
      requires Valid() && id in table
      modifies this
      ensures Valid() && old(history) <= history
      ensures cached ==> table == old(table) && r == old(table)[id].result
      ensures r.Some? && !cached ==>
                && old(table)[id].status.Sealed? && old(table)[id].candidate == candidate
                && id in table && table[id].status.Consumed? && table[id].result == r && table[id].candidate == candidate
      ensures r.None? && !cached ==> id in table && table[id].status.Contaminated?
    {
      var outcome := OpenHoldout(id, candidate);
      match outcome {
        case FirstUse =>
          var measured := measure();
          var _ := ConsumeHoldout(id, candidate, measured);
          return Some(measured), false;
        case Cached(result) => return result, true;
        case Refused => return None, false;
        case NotSealed => assert false;
      }
    }
  }

  // ---- over every run ----

  /** How often a holdout was opened for a first evaluation. */
  function FirstUses(run: seq<Action>, id: string): nat {
    if run == [] then 0
    else
      var before, a := run[..|run| - 1], run[|run| - 1];
      FirstUses(before, id)
      + if a.Open? && a.id == id && OpenOf(Exec(before), id, a.candidate).1.FirstUse? then 1 else 0
  }

  /** What the status of a holdout says about its past. */
  ghost predicate Accountable(t: Table, id: string, uses: nat) {
    if id !in t then uses == 0
    else
      var row := t[id];
      match row.status
      case Sealed => uses == 0 && row.exposures == 0 && row.result.None?
      case Opened => uses == 1 && row.exposures == 1 && row.result.None?
      case Consumed => uses == 1 && row.exposures == 1 && row.result.Some?
      case Contaminated => uses <= 1
  }

  lemma {:induction false} RunIsAccountable(run: seq<Action>, id: string)
    ensures Accountable(Exec(run), id, FirstUses(run, id))
  {
    if run != [] { RunIsAccountable(run[..|run| - 1], id); }
  }

  /** Over every run a holdout is opened for evaluation at most once, and one that still counts as consumed was
      exposed exactly once and holds a result. */
  lemma SingleUse(run: seq<Action>, id: string)
    ensures FirstUses(run, id) <= 1
    ensures id in Exec(run) && Exec(run)[id].status.Consumed? ==>
              FirstUses(run, id) == 1 && Exec(run)[id].exposures == 1 && Exec(run)[id].result.Some?
  {
    RunIsAccountable(run, id);
  }

  ghost predicate RowForward(a: Holdout, b: Holdout) {
    && b.candidate == a.candidate && b.interval == a.interval
    && a.exposures <= b.exposures
    && (a.result.Some? ==> b.result == a.result)
    && (a.status.Contaminated? ==> b.status.Contaminated?)
    && (b.status.Sealed? ==> a.status.Sealed?)
    && (a.status.Consumed? ==> b.status.Consumed? || b.status.Contaminated?)
  }

  ghost predicate TableForward(a: Table, b: Table) { forall id :: id in a ==> id in b && RowForward(a[id], b[id]) }

  ghost predicate ResultsSettled(t: Table) {
    forall id :: id in t && (t[id].status.Sealed? || t[id].status.Opened?) ==> t[id].result.None?
  }

  lemma {:induction false} StepIsForward(t: Table, a: Action)
    requires ResultsSettled(t)
    ensures TableForward(t, Apply(t, a)) && ResultsSettled(Apply(t, a))
  {
  }

  lemma {:induction false} RunIsForward(run: seq<Action>, more: seq<Action>)
    ensures TableForward(Exec(run), Exec(run + more)) && ResultsSettled(Exec(run + more))
    decreases |run| + |more|, |more|
  {
    if more == [] {
      assert run + more == run;
      if run != [] {
        RunIsForward(run[..|run| - 1], []);
        assert run[..|run| - 1] + [] == run[..|run| - 1];
        StepIsForward(Exec(run[..|run| - 1]), run[|run| - 1]);
      }
    } else {
      var before := more[..|more| - 1];
      RunIsForward(run, before);
      assert (run + more)[..|run + more| - 1] == run + before;
      StepIsForward(Exec(run + before), more[|more| - 1]);
    }
  }

  /** CONTAMINATED is absorbing, the sealed candidate and interval never change, and a measured result is final,
      so every cached answer is the first consumed result. */
  lemma LaterRunsKeepTheEvidence(run: seq<Action>, more: seq<Action>, id: string, candidate: string)
    requires id in Exec(run)
    ensures id in Exec(run + more) && RowForward(Exec(run)[id], Exec(run + more)[id])
    ensures var outcome := OpenOf(Exec(run + more), id, candidate).1;
            outcome.Cached? && Exec(run)[id].result.Some? ==>
              outcome.result == Exec(run)[id].result && candidate == Exec(run)[id].candidate
  {
    RunIsForward(run, more);
  }

  ghost predicate IntervalsUnique(t: Table) {
    forall a, b :: a in t && b in t && t[a].interval == t[b].interval ==> a == b
  }

  lemma {:induction false} StepKeepsIntervals(t: Table, a: Action)
    requires IntervalsUnique(t)
    ensures IntervalsUnique(Apply(t, a))
  {
  }

  /** The same data is never sealed twice under different names. */
  lemma {:induction false} OneHoldoutPerInterval(run: seq<Action>)
    ensures IntervalsUnique(Exec(run))
  {
    if run != [] {
      OneHoldoutPerInterval(run[..|run| - 1]);
      StepKeepsIntervals(Exec(run[..|run| - 1]), run[|run| - 1]);
    }
  }

  /** Two evaluations of one interval, by whatever candidates and under whatever ids, give at most one first use. */
  lemma {:induction false} OneEvaluationPerInterval(run: seq<Action>, a: string, b: string)
    requires a in Exec(run) && b in Exec(run) && Exec(run)[a].interval == Exec(run)[b].interval
    ensures a == b && FirstUses(run, a) <= 1
  {
    OneHoldoutPerInterval(run);
    SingleUse(run, a);
  }
}
