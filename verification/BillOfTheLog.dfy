/** A call's bill is a function of its partition's log alone. */
module BillOfTheLog {
  import opened LedgerTables
  import opened ExactlyOnce
  import opened LedgerSums
  import opened Delivery
  import opened DeliverySafety
  import opened DeliveryLaws
  import opened Readiness

  /** Events are keyed by call: the usage of a call is reported on one partition. */
  ghost predicate UsageStays(logs: map<Partition, seq<Event>>, call: string, p: Partition) {
    forall q, i :: 0 <= i < |Log(logs, q)| && Log(logs, q)[i].call == call && Log(logs, q)[i].kind.UsageRecorded? ==> q == p
  }

  ghost predicate Elsewhere(xs: seq<Consumed>, call: string, p: Partition) {
    forall k :: 0 <= k < |xs| && xs[k].event.call == call && xs[k].event.kind.UsageRecorded? ==> xs[k].partition == p
  }

  lemma {:induction false} CostConcat(xs: seq<UsageRow>, ys: seq<UsageRow>, call: string)
    ensures CostOf(xs + ys, call) == CostOf(xs, call) + CostOf(ys, call)
  {
    if ys == [] {
      assert xs + ys == xs;
    } else {
      assert (xs + ys)[..|xs + ys| - 1] == xs + ys[..|ys| - 1];
      CostConcat(xs, ys[..|ys| - 1], call);
    }
  }

  lemma {:induction false} OthersCostNothing(rows: seq<UsageRow>, call: string)
    requires forall k :: 0 <= k < |rows| ==> rows[k].call != call
    ensures CostOf(rows, call) == 0.0
  {
    if rows != [] {
      OthersCostNothing(rows[..|rows| - 1], call);
    }
  }

  /** The rows one event adds. */
  function RowsOf(c: Config, e: Event): seq<UsageRow> {
    if e.kind.UsageRecorded? then UsageRows(c, e, e.kind.provider, e.kind.model, e.kind.measurements) else []
  }

  lemma {:induction false} AllUsageSnoc(c: Config, xs: seq<Consumed>, x: Consumed)
    ensures AllUsage(c, xs + [x]) == AllUsage(c, xs) + RowsOf(c, x.event)
  {
    assert (xs + [x])[..|xs|] == xs;
    hide UsageRows;
  }

  /** Only the deliveries of the call's partition cost it anything. */
  lemma {:induction false} CostsComeFromOnePartition(c: Config, xs: seq<Consumed>, call: string, p: Partition)
    requires Elsewhere(xs, call, p)
    ensures CostOf(AllUsage(c, xs), call) == CostOf(AllUsage(c, On(xs, p)), call)
  {
    if xs != [] {
      var front, x := xs[..|xs| - 1], xs[|xs| - 1];
      assert front + [x] == xs;
      CostsComeFromOnePartition(c, front, call, p);
      OneMoreCosts(c, front, x, call, p);
    }
  }

  lemma {:induction false} OneMoreCosts(c: Config, front: seq<Consumed>, x: Consumed, call: string, p: Partition)
    requires x.event.call == call && x.event.kind.UsageRecorded? ==> x.partition == p
    requires CostOf(AllUsage(c, front), call) == CostOf(AllUsage(c, On(front, p)), call)
    ensures CostOf(AllUsage(c, front + [x]), call) == CostOf(AllUsage(c, On(front + [x], p)), call)
  {
    RowsBelong(c, x.event);
    hide *;
    AllUsageSnoc(c, front, x);
    CostConcat(AllUsage(c, front), RowsOf(c, x.event), call);
    OnSnoc(front, x, p);
    if x.partition == p {
      AllUsageSnoc(c, On(front, p), x);
      CostConcat(AllUsage(c, On(front, p)), RowsOf(c, x.event), call);
    } else {
      OthersCostNothing(RowsOf(c, x.event), call);
      assert On(front, p) + [] == On(front, p);
    }
  }

  lemma {:induction false} RowsBelong(c: Config, e: Event)
    ensures forall k :: 0 <= k < |RowsOf(c, e)| ==> RowsOf(c, e)[k].call == e.call
    ensures !e.kind.UsageRecorded? ==> RowsOf(c, e) == []
  {
    hide Cost;
  }

  lemma {:induction false} FirstsStayToo(logs: map<Partition, seq<Event>>, xs: seq<Consumed>, call: string, p: Partition)
    requires Genuine(logs, xs) && UsageStays(logs, call, p)
    ensures Elsewhere(Firsts(xs), call, p)
  {
    forall k | 0 <= k < |Firsts(xs)| && Firsts(xs)[k].event.call == call && Firsts(xs)[k].event.kind.UsageRecorded?
      ensures Firsts(xs)[k].partition == p
    {
      FirstsAreDelivered(xs, k);
      var j :| 0 <= j < |xs| && xs[j] == Firsts(xs)[k];
      GenuineAt(logs, xs, j);
    }
  }

  /**
   * Whatever crashed, was replayed or read by whom: a call's bill is its platform fee plus the price of the first
   * record of each key in its partition's log, up to the watermark.
   */
  lemma {:induction false} BillIsAFunctionOfTheLog(
    c: Config, batchSize: nat, workers: nat, run: seq<Action>, call: string, p: Partition)
    requires var w := Run(c, batchSize, workers, run);
      && Orderly(w.logs) && KeysStay(w.logs) && UsageStays(w.logs, call, p) && call in w.db.tables.billing
    ensures var w := Run(c, batchSize, workers, run);
      var b := w.db.tables.billing[call];
      && b.providerCost == CostOf(AllUsage(c, Firsts(Prefix(w.logs, p, Next(w.db.watermarks, p)))), call)
      && b.total == b.platformFee + b.providerCost
  {
    var w := Run(c, batchSize, workers, run);
    RunKeepsInv(c, batchSize, workers, run);
    EveryBillBalances(c, w.projected);
    TablesHoldTheFirsts(c, w);
    FirstsStayToo(w.logs, w.projected, call, p);
    FirstsFollowTheLog(w.logs, w.projected, p);
    CostsComeFromOnePartition(c, Firsts(w.projected), call, p);
    hide Run;
    hide CostOf;
    hide AllUsage;
    hide Firsts;
    hide ProjectAll;
  }
}
