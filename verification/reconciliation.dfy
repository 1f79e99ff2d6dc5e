/** Reconciliation of broker and local state (Reconciliation in execution/broker.py): any doubt fails closed. */
module Reconciliations {
  import opened Models
  import opened IntentState
  import opened BrokerStatus
  import opened CanaryBudget
  import opened Consumption
  import opened Protocol
  import opened Safety
  import opened Store

  /** The broker's read side, by order id: the status word it reports, None for an order it does not know. */
  type StatusQuery = string -> Option<string>

  predicate StartsWithPaper(id: string) { "paper_" <= id }

  /** The broker's word supports the local status; a local SUBMITTING may already be SUBMITTED there. */
  predicate Supports(word: string, local: IntentStatus) {
    var status := NormalizeBrokerStatus(word);
    status.Some? && !status.value.Unknown? && (status.value == local || (local.Submitting? && status.value.Submitted?))
  }

  /** The row raises no mismatch against the broker. */
  predicate Consistent(r: Intent, broker: Option<StatusQuery>) {
    if broker.None? then !(r.status.Submitting? || r.status.Submitted? || r.status.Unknown?)
    else if r.brokerOrderId == "" then r.status.Pending?
    else
      var answer := broker.value(r.brokerOrderId);
      answer.Some? && Supports(answer.value, r.status)
  }

  /** What reconciliation writes to a row: UNKNOWN wherever the broker gives no usable answer. */
  function Reconciled(o: Order, broker: Option<StatusQuery>): Order {
    if broker.None? then o
    else if o.row.brokerOrderId == "" then
      if o.row.status.Pending? then o else SetOrderStatus(o, Unknown, "")
    else
      var answer := broker.value(o.row.brokerOrderId);
      if answer.None? then SetOrderStatus(o, Unknown, "")
      else if NormalizeBrokerStatus(answer.value) in {None, Some(Unknown)}
      then SetOrderStatus(o, Unknown, o.row.brokerOrderId)
      else o
  }

  /** PAPER rows are checked against the execution store alone. */
  predicate PaperConsistent(r: Intent) {
    !r.status.Unknown? && (r.status.Submitting? || r.status.Submitted? ==> StartsWithPaper(r.brokerOrderId))
  }

  function PaperReconciled(o: Order): Order {
    if PaperConsistent(o.row) then o else SetOrderStatus(o, Unknown, "")
  }

  ghost predicate AllConsistent(orders: seq<Order>, planId: string, broker: Option<StatusQuery>) {
    forall i :: 0 <= i < |orders| && Listed(orders[i], planId) ==> Consistent(orders[i].row, broker)
  }

  ghost predicate AllPaperConsistent(orders: seq<Order>, planId: string) {
    forall i :: 0 <= i < |orders| && Listed(orders[i], planId) ==> PaperConsistent(orders[i].row)
  }

  lemma NextConsistent(rows: seq<Order>, i: nat, planId: string, broker: Option<StatusQuery>)
    requires i < |rows|
    ensures AllConsistent(rows[..i + 1], planId, broker) <==>
            AllConsistent(rows[..i], planId, broker) && (Listed(rows[i], planId) ==> Consistent(rows[i].row, broker))
  {
    assert rows[..i + 1] == rows[..i] + [rows[i]];
  }

  /** A row that raises no mismatch is not written to. */
  lemma ConsistentStays(o: Order, broker: Option<StatusQuery>)
    requires Consistent(o.row, broker)
    ensures Reconciled(o, broker) == o
  {
  }

  /** A row the broker gave no usable answer for is UNKNOWN afterwards unless it is final, and a second
      reconciliation against any broker finds it inconsistent again until something else moves it. */
  lemma NoAnswerStaysInconsistent(o: Order, first: Option<StatusQuery>, second: Option<StatusQuery>)
    requires !Terminal(o.row.status) && Reconciled(o, first) != o
    ensures Reconciled(o, first).row.status.Unknown?
    ensures !Consistent(Reconciled(o, first).row, second)
  {
    if second.Some? && o.row.brokerOrderId != "" {
      var answer := second.value(o.row.brokerOrderId);
      assert answer.Some? ==> !Supports(answer.value, Unknown);
    }
  }

  class Reconciliation {
    const store: ExecutionStore

    constructor (store: ExecutionStore)
      ensures this.store == store
    {
      this.store := store;
    }

    method ReconcileOne(i: nat, broker: Option<StatusQuery>) returns (consistent: bool)
      requires store.Valid() && i < |store.orders|
      modifies store
      ensures store.Valid() && old(store.history) <= store.history
      ensures store.View() == old(store.View()).(orders := store.orders)
      ensures store.orders == old(store.orders)[i := Reconciled(old(store.orders)[i], broker)]
      ensures consistent <==> Consistent(old(store.orders)[i].row, broker)
    {
      var row := store.orders[i].row;
      if broker.None? { return !(row.status.Submitting? || row.status.Submitted? || row.status.Unknown?); }
      if row.brokerOrderId == "" {
        if row.status.Pending? { return true; }
        store.MarkUnknown(i, "");
        return false;
      }
      var answer := broker.value(row.brokerOrderId);
      if answer.None? {
        store.MarkUnknown(i, "");
        return false;
      }
      var status := NormalizeBrokerStatus(answer.value);
      if status.None? || status.value.Unknown? {
        store.MarkUnknown(i, row.brokerOrderId);
        return false;
      }
      return status.value == row.status || (row.status.Submitting? && status.value.Submitted?);
    }

    /** reconcile_plan: ok exactly when every intent of the plan is supported by the broker, and then nothing
        is written; otherwise the account is MISMATCH and all its canaries are closed. */
    method ReconcilePlan(planId: string, broker: Option<StatusQuery>) returns (ok: bool)
      requires store.Valid()
      modifies store
      ensures store.Valid() && old(store.history) <= store.history
      ensures ok <==> if IsPaper(old(store.plans), planId) then AllPaperConsistent(old(store.orders), planId)
                      else AllConsistent(old(store.orders), planId, broker)
      ensures ok ==> store.View() == old(store.View())
      ensures store.calls == old(store.calls) && store.progress == old(store.progress)
      ensures !ok && !IsPaper(old(store.plans), planId) ==>
                && OwnerOf(store.plans, planId) in store.sync
                && store.sync[OwnerOf(store.plans, planId)] == Mismatch
      // no LIVE order of the account goes out until a canary is opened again
      ensures !ok ==> NoneActive(store.canaries, OwnerOf(store.plans, planId))
      ensures !ok && !HoldsReservation(store.View(), OwnerOf(store.plans, planId)) ==>
                ShutOff(store.View(), OwnerOf(store.plans, planId))
    {
      var account := OwnerOf(store.plans, planId);
      if IsPaper(store.plans, planId) {
        ok := ReconcilePaper(planId);
        if !ok { store.CloseLiveCanaries(Some(account), None, ReconciliationMismatch); }
        return;
      }
      ok := ReconcileRows(planId, broker);
      if !ok { FailClosed(account); }
    }

    /** A mismatch: the account is out of sync and loses its canaries. */
    method FailClosed(account: string)
      requires store.Valid()
      modifies store
      ensures store.Valid() && old(store.history) <= store.history
      ensures store.View() == old(store.View()).(sync := old(store.sync)[account := Mismatch], canaries := store.canaries)
      ensures NoneActive(store.canaries, account)
    {
      store.SetAccountSync(account, Mismatch);
      store.CloseLiveCanaries(Some(account), None, ReconciliationMismatch);
    }

    method ReconcileRows(planId: string, broker: Option<StatusQuery>) returns (ok: bool)
      requires store.Valid()
      modifies store
      ensures store.Valid() && old(store.history) <= store.history
      ensures store.View() == old(store.View()).(orders := store.orders)
      ensures ok <==> AllConsistent(old(store.orders), planId, broker)
      ensures RowsReconciled(store.orders, old(store.orders), |store.orders|, planId, broker)
      ensures ok ==> store.orders == old(store.orders)
    {
      ok := true;
      var rows := store.orders;
      for i := 0 to |rows|
        invariant store.Valid() && old(store.history) <= store.history
        invariant store.View() == old(store.View()).(orders := store.orders)
        invariant RowsReconciled(store.orders, rows, i, planId, broker)
        invariant ok <==> AllConsistent(rows[..i], planId, broker)
      {
        NextConsistent(rows, i, planId, broker);
        var consistent := ReconcileNext(rows, i, planId, broker);
        ok := ok && consistent;
      }
      assert rows[..|rows|] == rows;
      if ok { NothingReconciled(store.orders, rows, planId, broker); }
    }

    /** The loop body: a row of another plan is passed over. */
    method ReconcileNext(rows: seq<Order>, i: nat, planId: string, broker: Option<StatusQuery>) returns (consistent: bool)
      requires store.Valid() && i < |rows| && RowsReconciled(store.orders, rows, i, planId, broker)
      modifies store
      ensures store.Valid() && old(store.history) <= store.history
      ensures store.View() == old(store.View()).(orders := store.orders)
      ensures RowsReconciled(store.orders, rows, i + 1, planId, broker)
      ensures consistent <==> (Listed(rows[i], planId) ==> Consistent(rows[i].row, broker))
    {
      consistent := true;
      if Listed(rows[i], planId) { consistent := ReconcileOne(i, broker); }
    }

    /** The PAPER variant never asks a broker. */
    method ReconcilePaper(planId: string) returns (ok: bool)
      requires store.Valid()
      modifies store
      ensures store.Valid() && old(store.history) <= store.history
      ensures store.View() == old(store.View()).(orders := store.orders)
      ensures ok <==> AllPaperConsistent(old(store.orders), planId)
      ensures PaperRowsReconciled(store.orders, old(store.orders), |store.orders|, planId)
      ensures ok ==> store.orders == old(store.orders)
    {
      ok := true;
      var rows := store.orders;
      for i := 0 to |rows|
        invariant store.Valid() && old(store.history) <= store.history
        invariant store.View() == old(store.View()).(orders := store.orders)
        invariant PaperRowsReconciled(store.orders, rows, i, planId)
        invariant ok <==> forall k :: 0 <= k < i && Listed(rows[k], planId) ==> PaperConsistent(rows[k].row)
      {
        var consistent := ReconcilePaperNext(rows, i, planId);
        ok := ok && consistent;
      }
      if ok { assert store.orders == rows; }
    }

    method ReconcilePaperNext(rows: seq<Order>, i: nat, planId: string) returns (consistent: bool)
      requires store.Valid() && i < |rows| && PaperRowsReconciled(store.orders, rows, i, planId)
      modifies store
      ensures store.Valid() && old(store.history) <= store.history
      ensures store.View() == old(store.View()).(orders := store.orders)
      ensures PaperRowsReconciled(store.orders, rows, i + 1, planId)
      ensures consistent <==> (Listed(rows[i], planId) ==> PaperConsistent(rows[i].row))
    {
      consistent := true;
      if Listed(rows[i], planId) { consistent := ReconcilePaperOne(i); }
    }

    method ReconcilePaperOne(i: nat) returns (consistent: bool)
      requires store.Valid() && i < |store.orders|
      modifies store
      ensures store.Valid() && old(store.history) <= store.history
      ensures store.View() == old(store.View()).(orders := store.orders)
      ensures store.orders == old(store.orders)[i := PaperReconciled(old(store.orders)[i])]
      ensures consistent <==> PaperConsistent(old(store.orders)[i].row)
    {
      var row := store.orders[i].row;
      if row.status.Unknown? { return false; }
      if (row.status.Submitting? || row.status.Submitted?) && !StartsWithPaper(row.brokerOrderId) {
        store.MarkUnknown(i, "");
        return false;
      }
      return true;
    }
  }

  /** The first `i` rows are reconciled, the others untouched. */
  ghost predicate RowsReconciled(orders: seq<Order>, rows: seq<Order>, i: nat, planId: string, broker: Option<StatusQuery>) {
    && |orders| == |rows|
    && (forall k :: 0 <= k < |rows| ==>
          orders[k] == if k < i && Listed(rows[k], planId) then Reconciled(rows[k], broker) else rows[k])
  }

  ghost predicate PaperRowsReconciled(orders: seq<Order>, rows: seq<Order>, i: nat, planId: string) {
    && |orders| == |rows|
    && (forall k :: 0 <= k < |rows| ==>
          orders[k] == if k < i && Listed(rows[k], planId) then PaperReconciled(rows[k]) else rows[k])
  }

  lemma {:induction false} NothingReconciled(orders: seq<Order>, rows: seq<Order>, planId: string, broker: Option<StatusQuery>)
    requires RowsReconciled(orders, rows, |rows|, planId, broker) && AllConsistent(rows, planId, broker)
    ensures orders == rows
  {
    forall k | 0 <= k < |rows| ensures orders[k] == rows[k] {
      if Listed(rows[k], planId) { ConsistentStays(rows[k], broker); }
    }
  }

  predicate IsPaper(plans: map<string, PlanRow>, planId: string) {
    planId in plans && plans[planId].plan.mode.Paper?
  }

  /** The account a plan trades for; a plan the table does not know is charged to the default account. */
  function OwnerOf(plans: map<string, PlanRow>, planId: string): string {
    if planId in plans then plans[planId].plan.account else "default"
  }
}
