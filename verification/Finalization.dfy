/** One world from log to final record: what a finalized bill is known to hold. */
module Finalization {
  import opened Options
  import opened LedgerTables
  import opened LedgerSums
  import opened Delivery
  import opened Readiness
  import opened ReadinessWatch
  import opened Cents
  import opened FinalBilling
  import opened BillingWorkflow

  /** The world after the first `k` actions of a run. */
  function At(c: Config, batchSize: nat, workers: nat, run: seq<Action>, k: nat): World
    requires k <= |run|
  {
    Delivery.Run(c, batchSize, workers, run[..k])
  }

  lemma {:induction false} ActKeepsRows(c: Config, batchSize: nat, w: World, a: Action)
    ensures w.db.tables.usage <= Act(c, batchSize, w, a).db.tables.usage
  {
    if a.Project? && a.worker < |w.workers| {
      ProjectGrows(c, w.db.tables, w.workers[a.worker].held);
    }
    hide ProjectAll;
    hide FetchAll;
    hide CommitOffsets;
    hide Advance;
  }

  /** No action of any worker removes a usage row. */
  lemma {:induction false} RowsAreKept(c: Config, batchSize: nat, workers: nat, run: seq<Action>, k: nat, n: nat)
    requires k <= n <= |run|
    ensures At(c, batchSize, workers, run, k).db.tables.usage <= At(c, batchSize, workers, run, n).db.tables.usage
    decreases n
  {
    hide Act;
    if k < n {
      RowsAreKept(c, batchSize, workers, run, k, n - 1);
      assert run[..n][..n - 1] == run[..n - 1];
      ActKeepsRows(c, batchSize, At(c, batchSize, workers, run, n - 1), run[n - 1]);
    }
  }

  lemma {:induction false} CallsRowsAreBilled(rows: seq<UsageRow>, call: string, r: UsageRow)
    requires r in rows && r.call == call
    ensures r in UsageFor(rows, call)
  {
    var front, last := rows[..|rows| - 1], rows[|rows| - 1];
    if r != last {
      assert r in front;
      CallsRowsAreBilled(front, call, r);
    }
  }

  /** The usage event at offset `o` of the barrier's partition was published for the call, before its barrier. */
  ghost predicate BeforeBarrier(w: World, call: string, o: nat) {
    && call in w.db.tables.manifests && o < w.db.tables.manifests[call].offset
    && o < |Log(w.logs, w.db.tables.manifests[call].partition)|
    && var e := Log(w.logs, w.db.tables.manifests[call].partition)[o];
    e.call == call && e.kind.UsageRecorded?
  }

  /** Every measurement of every such event is among the rows the bill was made of. */
  ghost predicate BillsTheUsage(c: Config, w: World, call: string, billed: seq<UsageRow>) {
    forall o, j :: BeforeBarrier(w, call, o) && IsMeasurement(w, call, o, j) ==> RowAt(c, w, call, o, j) in billed
  }

  ghost predicate IsMeasurement(w: World, call: string, o: nat, j: nat)
    requires BeforeBarrier(w, call, o)
  {
    j < |Log(w.logs, w.db.tables.manifests[call].partition)[o].kind.measurements|
  }

  ghost function RowAt(c: Config, w: World, call: string, o: nat, j: nat): UsageRow
    requires BeforeBarrier(w, call, o) && IsMeasurement(w, call, o, j)
  {
    var e := Log(w.logs, w.db.tables.manifests[call].partition)[o];
    UsageRows(c, e, e.kind.provider, e.kind.model, e.kind.measurements)[j]
  }

  /** What a ready look vouches for is still billed at any later time. */
  lemma {:induction false} ReadyLookIsBilled(
    c: Config, batchSize: nat, workers: nat, run: seq<Action>, look: nat, read: nat, call: string, required: set<string>)
    requires look <= read <= |run|
    requires Orderly(At(c, batchSize, workers, run, look).logs)
    requires Ready(Load(At(c, batchSize, workers, run, look).db, call, required))
    ensures call in At(c, batchSize, workers, run, look).db.tables.manifests
    ensures BillsTheUsage(c, At(c, batchSize, workers, run, look), call,
                          UsageFor(At(c, batchSize, workers, run, read).db.tables.usage, call))
  {
    var w, w' := At(c, batchSize, workers, run, look), At(c, batchSize, workers, run, read);
    AlwaysCaughtUp(c, batchSize, workers, run[..look], call, required);
    RowsAreKept(c, batchSize, workers, run, look, read);
    hide Delivery.Run;
    hide Orderly;
    hide Present;
    hide Measured;
    hide UsageFor;
    forall o, j | BeforeBarrier(w, call, o) && IsMeasurement(w, call, o, j)
      ensures RowAt(c, w, call, o, j) in UsageFor(w'.db.tables.usage, call)
    {
      BillIsComplete(c, batchSize, workers, run[..look], call, o, j);
      assert RowAt(c, w, call, o, j) in w.db.tables.usage;
      assert RowAt(c, w, call, o, j) in w'.db.tables.usage;
      CallsRowsAreBilled(w'.db.tables.usage, call, RowAt(c, w, call, o, j));
    }
  }

  /**
   * Finalization over one world. The workflow looks at the ledger at the moments `looks` of a run and its last
   * activity reads it at a later one. If the record says finalized, and the policy for missing usage does not, then
   * its total is made of rows that hold every measurement of every usage event published before the barrier.
   */
  method FinalizeCall(
    c: Config, batchSize: nat, workers: nat, run: seq<Action>, looks: seq<nat>, read: nat,
    input: Input, required: set<string>, script: seq<Await>, activities: BillingActivities)
    returns (workflow: BillingFinalizationWorkflow)
    requires read <= |run| && forall k :: 0 <= k < |looks| ==> looks[k] <= read
    requires forall k :: 0 <= k < |looks| ==> Orderly(At(c, batchSize, workers, run, looks[k]).logs)
    requires input.missingUsagePolicy != Finalized
    modifies activities
    ensures workflow.written == Some(Finalized) ==>
      exists k :: 0 <= k < |looks|
        && Bills(c, At(c, batchSize, workers, run, looks[k]), At(c, batchSize, workers, run, read), input.call,
                 activities)
  {
    hide *;
    var reports := seq(|looks|, k requires 0 <= k < |looks| && looks[k] <= |run| =>
      Load(At(c, batchSize, workers, run, looks[k]).db, input.call, required));
    workflow := new BillingFinalizationWorkflow(input, reports, script, true);
    var t := At(c, batchSize, workers, run, read).db.tables;
    workflow.Run(activities, t);
    if workflow.written == Some(Finalized) {
      assert workflow.looked != [] && Ready(workflow.looked[|workflow.looked| - 1]);
      var k := |workflow.looked| - 1;
      LookedAt(workflow.looked, reports, k);
      KnownReport(reports, k);
      ReadyLookIsBilled(c, batchSize, workers, run, looks[k], read, input.call, required);
      RecordIsWritten(old(activities.records), t, input.call);
      ItBills(c, At(c, batchSize, workers, run, looks[k]), At(c, batchSize, workers, run, read), input.call,
              activities);
    }
  }

  /** The final record of the call is finalized and its total is made of rows that hold the usage before the barrier. */
  ghost predicate Bills(
    c: Config, look: World, read: World, call: string, activities: BillingActivities)
    reads activities
  {
    var t := read.db.tables;
    && call in look.db.tables.manifests
    && call in activities.records.finals && activities.records.finals[call].status == "FINALIZED"
    && activities.records.finals[call].total
         == Billed(PlatformFee(DurationOf(t, call)), UsageFor(t.usage, call))
    && BillsTheUsage(c, look, call, UsageFor(t.usage, call))
  }

  lemma {:induction false} LookedAt(looked: seq<Report>, reports: seq<Report>, k: nat)
    requires Are(looked, reports) && k < |looked|
    ensures looked[k] == ReportAt(reports, k)
  {
    hide ReportAt;
  }

  lemma {:induction false} KnownReport(reports: seq<Report>, k: nat)
    requires Ready(ReportAt(reports, k))
    ensures k < |reports| && ReportAt(reports, k) == reports[k]
  {
  }

  lemma {:induction false} RecordIsWritten(rs: Records, t: Tables, call: string)
    requires call in t.calls
    ensures var rs' := FinalizeOn(rs, t, call, Name(Finalized)).0;
      && call in rs'.finals && rs'.finals[call].status == "FINALIZED"
      && rs'.finals[call].total == Billed(PlatformFee(DurationOf(t, call)), UsageFor(t.usage, call))
  {
    hide DurationOf;
    hide PlatformFee;
    hide UsageFor;
    hide CostsOf;
    hide ToCents;
  }

  lemma {:induction false} ItBills(
    c: Config, look: World, read: World, call: string, activities: BillingActivities)
    requires call in look.db.tables.manifests && BillsTheUsage(c, look, call, UsageFor(read.db.tables.usage, call))
    requires var finals := activities.records.finals;
      && call in finals && finals[call].status == "FINALIZED"
      && finals[call].total
           == Billed(PlatformFee(DurationOf(read.db.tables, call)), UsageFor(read.db.tables.usage, call))
    ensures Bills(c, look, read, call, activities)
  {
    hide Billed;
    hide BillsTheUsage;
  }
}
