/** The usage a call's barriers expect, and what a report of readiness says of it. */
module ReadinessExpectations {
  import opened LedgerTables
  import opened ExactlyOnce
  import opened Delivery
  import opened DeliverySafety
  import opened Readiness

  /** The event is a barrier of the call that names the turn and expects the type of it. */
  ghost predicate Expects(e: Event, call: string, turn: string, usageType: string) {
    && e.kind.FinalizationBarrier? && e.call == call && turn != []
    && exists k, j :: 0 <= k < |e.kind.expected| && Names(e.kind.expected[k], turn, usageType, j)
  }

  ghost predicate Names(expected: ExpectedTurn, turn: string, usageType: string, j: int) {
    expected.turn == turn && 0 <= j < |expected.usage| && expected.usage[j] == usageType
  }

  lemma {:induction false} BarrierExpects(e: Event, call: string, turn: string, usageType: string)
    requires e.kind.FinalizationBarrier?
    ensures (call, turn, usageType) in Expectations(e.call, e.kind.expected) <==> Expects(e, call, turn, usageType)
  {
    var expected := e.kind.expected;
    if (call, turn, usageType) in Expectations(e.call, expected) {
      var k, j :| 0 <= k < |expected| && expected[k].turn != [] && 0 <= j < |expected[k].usage|
        && (e.call, expected[k].turn, expected[k].usage[j]) == (call, turn, usageType);
      assert Names(expected[k], turn, usageType, j);
    }
  }

  lemma {:induction false} ApplyExpects(c: Config, t: Tables, x: Consumed, call: string, turn: string, usageType: string)
    requires Apply(c, t, x).Some?
    ensures (call, turn, usageType) in Apply(c, t, x).value.expectations <==>
      (call, turn, usageType) in t.expectations || Expects(x.event, call, turn, usageType)
  {
    var e := x.event;
    var t1 := Opened(c, t, e);
    OpenedLeavesRows(c, t, e);
    hide Opened;
    hide Refused;
    if e.kind.UsageRecorded? {
      RecordAllKeepsKeys(c, t1, e, e.kind.provider, e.kind.model, e.kind.measurements);
    } else if e.kind.FinalizationBarrier? {
      BarrierExpects(e, call, turn, usageType);
    }
    hide RecordAll;
    hide Expectations;
    hide UpdateCallBilling;
  }

  /** The table holds what the events applied expect, and nothing else. */
  lemma {:induction false} ExpectationsAreTheBarriers(
    c: Config, xs: seq<Consumed>, call: string, turn: string, usageType: string)
    requires ApplyAll(c, NoRows(), xs).Some?
    ensures (call, turn, usageType) in ApplyAll(c, NoRows(), xs).value.expectations <==>
      exists k :: 0 <= k < |xs| && Expects(xs[k].event, call, turn, usageType)
  {
    hide Apply;
    hide Expects;
    if xs != [] {
      var front, x := xs[..|xs| - 1], xs[|xs| - 1];
      ExpectationsAreTheBarriers(c, front, call, turn, usageType);
      ApplyExpects(c, ApplyAll(c, NoRows(), front).value, x, call, turn, usageType);
      assert forall k :: 0 <= k < |front| ==> xs[k] == front[k];
    }
  }

  /** A barrier of the call that expects this was published, and its partition is projected up to it. */
  ghost predicate PublishedAndExpected(w: World, call: string, turn: string, usageType: string) {
    exists p, o :: IsProjectedExpectation(w, p, o, call, turn, usageType)
  }

  ghost predicate IsProjectedExpectation(w: World, p: Partition, o: int, call: string, turn: string, usageType: string) {
    0 <= o < Next(w.db.watermarks, p) && o < |Log(w.logs, p)| && Expects(Log(w.logs, p)[o], call, turn, usageType)
  }

  lemma {:induction false} FirstsExpectIt(w: World, k: nat, call: string, turn: string, usageType: string)
    requires Genuine(w.logs, w.projected) && w.db.watermarks == Advance(map[], w.projected)
    requires k < |Firsts(w.projected)| && Expects(Firsts(w.projected)[k].event, call, turn, usageType)
    ensures PublishedAndExpected(w, call, turn, usageType)
  {
    FirstsAreDelivered(w.projected, k);
    var x := Firsts(w.projected)[k];
    var i :| 0 <= i < |w.projected| && w.projected[i] == x;
    DeliveredIsBelow(w.projected, i);
    hide Expects;
    assert IsProjectedExpectation(w, x.partition, x.offset, call, turn, usageType);
  }

  lemma {:induction false} DeliveredIsBelow(xs: seq<Consumed>, i: nat)
    requires i < |xs|
    ensures xs[i].offset < Next(Advance(map[], xs), xs[i].partition)
  {
    if i < |xs| - 1 {
      DeliveredIsBelow(xs[..|xs| - 1], i);
    }
  }

  lemma {:induction false} ItIsAmongTheFirsts(
    w: World, p: Partition, o: nat, call: string, turn: string, usageType: string) returns (k: nat)
    requires Genuine(w.logs, w.projected) && Gapless(map[], w.projected) && Orderly(w.logs)
    requires w.db.watermarks == Advance(map[], w.projected) && IsProjectedExpectation(w, p, o, call, turn, usageType)
    ensures k < |Firsts(w.projected)| && Expects(Firsts(w.projected)[k].event, call, turn, usageType)
  {
    BelowWatermark(w.logs, w.projected, p, o);
    var x := Consumed(Log(w.logs, p)[o], p, o);
    k := KeyAmongFirsts(w.projected, x);
    FirstsAreDelivered(w.projected, k);
    SameEvent(w.logs, w.projected, Firsts(w.projected)[k], x);
    hide Expects;
    hide Firsts;
  }

  /**
   * In every reachable world: a call's usage is expected exactly when a barrier that was published, at or below the
   * watermark of its partition, names the turn and the type.
   */
  lemma {:induction false} ExpectedIffPublished(
    c: Config, batchSize: nat, workers: nat, run: seq<Action>, call: string, turn: string, usageType: string)
    requires Orderly(Run(c, batchSize, workers, run).logs)
    ensures var w := Run(c, batchSize, workers, run);
      (call, turn, usageType) in w.db.tables.expectations <==> PublishedAndExpected(w, call, turn, usageType)
  {
    var w := Run(c, batchSize, workers, run);
    RunKeepsInv(c, batchSize, workers, run);
    RepeatsLeaveNoTrace(c, w.projected);
    ExpectationsAreTheBarriers(c, Firsts(w.projected), call, turn, usageType);
    hide Run;
    hide Expects;
    hide Orderly;
    hide Genuine;
    hide Gapless;
    hide Firsts;
    hide ApplyAll;
    hide ProjectAll;
    if (call, turn, usageType) in w.db.tables.expectations {
      var k :| 0 <= k < |Firsts(w.projected)| && Expects(Firsts(w.projected)[k].event, call, turn, usageType);
      FirstsExpectIt(w, k, call, turn, usageType);
    } else if PublishedAndExpected(w, call, turn, usageType) {
      var p, o :| IsProjectedExpectation(w, p, o, call, turn, usageType);
      var k := ItIsAmongTheFirsts(w, p, o, call, turn, usageType);
    }
  }

  /** A call with a manifest is expected to have all that the manifest's barrier names. */
  lemma {:induction false} ManifestIsExpected(
    c: Config, batchSize: nat, workers: nat, run: seq<Action>, call: string, k: nat, j: nat)
    requires var w := Run(c, batchSize, workers, run);
      && Orderly(w.logs) && call in w.db.tables.manifests
      && var m := w.db.tables.manifests[call];
         && m.offset < |Log(w.logs, m.partition)| && Log(w.logs, m.partition)[m.offset].kind.FinalizationBarrier?
         && var expected := Log(w.logs, m.partition)[m.offset].kind.expected;
            k < |expected| && expected[k].turn != [] && j < |expected[k].usage|
    ensures var w := Run(c, batchSize, workers, run);
      var m := w.db.tables.manifests[call];
      var expected := Log(w.logs, m.partition)[m.offset].kind.expected;
      (call, expected[k].turn, expected[k].usage[j]) in w.db.tables.expectations
  {
    var w := Run(c, batchSize, workers, run);
    var m := w.db.tables.manifests[call];
    var e := Log(w.logs, m.partition)[m.offset];
    var turn, usageType := e.kind.expected[k].turn, e.kind.expected[k].usage[j];
    ManifestsAreBelowTheWatermark(c, batchSize, workers, run, call);
    ExpectedIffPublished(c, batchSize, workers, run, call, turn, usageType);
    hide Run;
    hide Orderly;
    assert Names(e.kind.expected[k], turn, usageType, j);
    assert IsProjectedExpectation(w, m.partition, m.offset, call, turn, usageType);
  }

  /** A ready report vouches for a row of everything the barrier names: of that call, turn and type. */
  lemma {:induction false} ReadyVouchesForTheBarrier(
    c: Config, batchSize: nat, workers: nat, run: seq<Action>, call: string, required: set<string>, k: nat, j: nat)
    requires var w := Run(c, batchSize, workers, run);
      && Orderly(w.logs) && call in w.db.tables.manifests && Ready(Load(w.db, call, required))
      && var m := w.db.tables.manifests[call];
         && m.offset < |Log(w.logs, m.partition)| && Log(w.logs, m.partition)[m.offset].kind.FinalizationBarrier?
         && var expected := Log(w.logs, m.partition)[m.offset].kind.expected;
            k < |expected| && expected[k].turn != [] && j < |expected[k].usage|
    ensures var w := Run(c, batchSize, workers, run);
      var m := w.db.tables.manifests[call];
      var expected := Log(w.logs, m.partition)[m.offset].kind.expected;
      exists r :: 0 <= r < |w.db.tables.usageEvents| && var row := w.db.tables.usageEvents[r];
        row.call == call && row.turn == expected[k].turn && row.usageType == expected[k].usage[j]
  {
    ManifestIsExpected(c, batchSize, workers, run, call, k, j);
    ReadyMeans(c, batchSize, workers, run, call, required);
    hide Run;
    hide Orderly;
    hide Load;
    hide Columns;
    hide StrayMinute;
  }
}
