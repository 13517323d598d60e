/** When a call's bill is complete: the readiness check, and what a manifest guarantees. */
module Readiness {
  import opened Options
  import opened LedgerTables
  import opened ExactlyOnce
  import opened LedgerSums
  import opened Delivery
  import opened DeliverySafety

  datatype Report = Report(
    manifestPresent: bool, watermark: Option<nat>, caughtUp: bool, present: set<string>, missing: set<string>,
    missingExpectations: set<(string, string)>)

  /** The query's own table of column names; unlike the projection's it does not look at the stage. */
  function Renamed(usageType: string): string {
    match usageType
    case "audio_minute" => "stt_audio_seconds"
    case "input_token" => "llm_input_tokens"
    case "cached_input_token" => "llm_input_tokens"
    case "output_token" => "llm_output_tokens"
    case "output_audio_token" => "tts_audio_seconds"
    case "input_text_token" => "tts_characters"
    case _ => usageType
  }

  /** The two tables agree on everything but audio minutes outside speech-to-text. */
  lemma {:induction false} RenamedAlike(usageType: string, stage: string)
    ensures usageType != "audio_minute" || stage == "stt" ==> Renamed(usageType) == Normalized(usageType, stage)
    ensures usageType == "audio_minute" ==> Renamed(usageType) == "stt_audio_seconds"
  {
  }

  predicate Measured(rows: seq<UsageEventRow>, call: string, turn: string, usageType: string) {
    exists k :: 0 <= k < |rows| && rows[k].call == call && rows[k].turn == turn && rows[k].usageType == usageType
  }

  function Present(t: Tables, call: string): set<string> {
    (set k | 0 <= k < |t.usageEvents| && t.usageEvents[k].call == call :: t.usageEvents[k].usageType)
    + (set k | 0 <= k < |t.usage| && t.usage[k].call == call :: Renamed(t.usage[k].usageType))
  }

  function Load(db: Database, call: string, required: set<string>): Report {
    var t := db.tables;
    var watermark :=
      if call in t.manifests && t.manifests[call].partition in db.watermarks
      then Some(db.watermarks[t.manifests[call].partition]) else None;
    var present := Present(t, call);
    Report(
      call in t.manifests, watermark,
      watermark.Some? && watermark.value >= t.manifests[call].offset,
      present, required - present,
      set x | x in t.expectations && x.0 == call && !Measured(t.usageEvents, x.0, x.1, x.2) :: (x.1, x.2))
  }

  predicate Ready(r: Report) {
    r.manifestPresent && r.caughtUp && r.missing == {} && r.missingExpectations == {}
  }

  // --------------------------------------------------------------- manifests

  /** Every manifest is a delivered barrier of its call. */
  ghost predicate Delivered(t: Tables, xs: seq<Consumed>) {
    forall call :: call in t.manifests ==>
      exists k :: 0 <= k < |xs| && IsBarrier(t.manifests[call], call, xs[k])
  }

  predicate IsBarrier(m: Manifest, call: string, x: Consumed) {
    x.event.kind.FinalizationBarrier? && x.event.call == call && m == Manifest(x.event.id, x.partition, x.offset)
  }

  lemma {:induction false} ApplyManifests(c: Config, t: Tables, x: Consumed)
    requires Apply(c, t, x).Some?
    ensures Apply(c, t, x).value.manifests ==
      if x.event.kind.FinalizationBarrier? then t.manifests[x.event.call := Manifest(x.event.id, x.partition, x.offset)]
      else t.manifests
  {
    var e := x.event;
    var t1 := Opened(c, t, e);
    OpenedLeavesRows(c, t, e);
    hide Opened;
    hide Refused;
    if e.kind.UsageRecorded? {
      RecordAllKeepsKeys(c, t1, e, e.kind.provider, e.kind.model, e.kind.measurements);
      hide RecordAll;
    }
  }

  lemma {:induction false} ManifestsAreDelivered(c: Config, xs: seq<Consumed>)
    requires ProjectAll(c, NoRows(), xs).Some?
    ensures Delivered(ProjectAll(c, NoRows(), xs).value, xs)
  {
    hide Apply;
    if xs != [] {
      var front, last := xs[..|xs| - 1], xs[|xs| - 1];
      ManifestsAreDelivered(c, front);
      var t := ProjectAll(c, NoRows(), front).value;
      if last.event.key !in t.keys {
        ApplyManifests(c, t, last);
      }
      var t' := ProjectAll(c, NoRows(), xs).value;
      forall call | call in t'.manifests
        ensures exists k :: 0 <= k < |xs| && IsBarrier(t'.manifests[call], call, xs[k])
      {
        if last.event.key !in t.keys && last.event.kind.FinalizationBarrier? && last.event.call == call {
          assert IsBarrier(t'.manifests[call], call, xs[|xs| - 1]);
        } else {
          var k :| 0 <= k < |front| && IsBarrier(t.manifests[call], call, front[k]);
          assert xs[k] == front[k];
        }
      }
    }
  }

  /** A manifest is a barrier record at or below the watermark of its partition, in every reachable world. */
  lemma {:induction false} ManifestsAreBelowTheWatermark(c: Config, batchSize: nat, workers: nat, run: seq<Action>, call: string)
    requires call in Run(c, batchSize, workers, run).db.tables.manifests
    ensures var w := Run(c, batchSize, workers, run);
      var m := w.db.tables.manifests[call];
      && m.partition in w.db.watermarks && m.offset <= w.db.watermarks[m.partition]
      && m.offset < |Log(w.logs, m.partition)|
      && IsBarrier(m, call, Consumed(Log(w.logs, m.partition)[m.offset], m.partition, m.offset))
  {
    var w := Run(c, batchSize, workers, run);
    RunKeepsInv(c, batchSize, workers, run);
    ManifestsAreDelivered(c, w.projected);
    var m := w.db.tables.manifests[call];
    var k :| 0 <= k < |w.projected| && IsBarrier(m, call, w.projected[k]);
    AdvanceNext(map[], w.projected, m.partition);
  }

  /** So the projection has caught up with every barrier that has a manifest: the check waits for nothing else. */
  lemma {:induction false} AlwaysCaughtUp(
    c: Config, batchSize: nat, workers: nat, run: seq<Action>, call: string, required: set<string>)
    ensures var r := Load(Run(c, batchSize, workers, run).db, call, required);
      && r.caughtUp == r.manifestPresent
      && (Ready(r) <==> r.manifestPresent && r.missing == {} && r.missingExpectations == {})
  {
    hide Run;
    hide Present;
    hide Measured;
    if call in Run(c, batchSize, workers, run).db.tables.manifests {
      ManifestsAreBelowTheWatermark(c, batchSize, workers, run, call);
    }
  }

  /** On any database, caught up means that the barrier is among the records counted as projected. */
  lemma {:induction false} CaughtUpMeans(db: Database, call: string, required: set<string>)
    ensures Load(db, call, required).caughtUp <==>
      call in db.tables.manifests
      && db.tables.manifests[call].offset < LedgerTables.Next(db.watermarks, db.tables.manifests[call].partition)
  {
    hide Present;
    hide Measured;
  }

  // ------------------------------------------------------------ completeness

  /** Keys and identifiers name one event each, and no event measures a type twice. */
  ghost predicate Orderly(logs: map<Partition, seq<Event>>) {
    && (forall p, q, i, j :: 0 <= i < |Log(logs, p)| && 0 <= j < |Log(logs, q)|
          && (Log(logs, p)[i].key == Log(logs, q)[j].key || Log(logs, p)[i].id == Log(logs, q)[j].id)
          ==> Log(logs, p)[i] == Log(logs, q)[j])
    && (forall p, i :: 0 <= i < |Log(logs, p)| && Log(logs, p)[i].kind.UsageRecorded?
          ==> DistinctTypes(Log(logs, p)[i].kind.measurements))
  }

  lemma {:induction false} FirstsAreDelivered(xs: seq<Consumed>, k: nat)
    requires k < |Firsts(xs)|
    ensures Firsts(xs)[k] in xs
  {
    if xs != [] {
      var front, last := xs[..|xs| - 1], xs[|xs| - 1];
      if k < |Firsts(front)| {
        FirstsAreDelivered(front, k);
        assert Firsts(xs)[k] == Firsts(front)[k];
      }
    }
  }

  lemma {:induction false} SameEvent(logs: map<Partition, seq<Event>>, xs: seq<Consumed>, x: Consumed, y: Consumed)
    requires Orderly(logs) && Genuine(logs, xs) && x in xs && y in xs
    requires x.event.key == y.event.key || x.event.id == y.event.id
    ensures x.event == y.event
  {
    hide Log;
  }

  lemma {:induction false} MeasuresOnce(logs: map<Partition, seq<Event>>, xs: seq<Consumed>, x: Consumed)
    requires Orderly(logs) && Genuine(logs, xs) && x in xs && x.event.kind.UsageRecorded?
    ensures DistinctTypes(x.event.kind.measurements)
  {
    hide Log;
    hide DistinctTypes;
  }

  lemma {:induction false} FirstsAreWellFormed(logs: map<Partition, seq<Event>>, xs: seq<Consumed>)
    requires Orderly(logs) && Genuine(logs, xs)
    ensures WellFormed(Firsts(xs))
  {
    hide Orderly;
    hide Genuine;
    hide DistinctTypes;
    hide Firsts;
    var firsts := Firsts(xs);
    FirstsAreDistinct(xs);
    forall j, k | 0 <= j < k < |firsts| ensures firsts[j].event.id != firsts[k].event.id {
      FirstsAreDelivered(xs, j);
      FirstsAreDelivered(xs, k);
      if firsts[j].event.id == firsts[k].event.id {
        SameEvent(logs, xs, firsts[j], firsts[k]);
      }
    }
    forall k | 0 <= k < |firsts| && firsts[k].event.kind.UsageRecorded?
      ensures DistinctTypes(firsts[k].event.kind.measurements)
    {
      FirstsAreDelivered(xs, k);
      MeasuresOnce(logs, xs, firsts[k]);
    }
  }

  /** Each measurement of an event is one of the rows. */
  lemma {:induction false} RowsHold(c: Config, xs: seq<Consumed>, k: nat, j: nat)
    requires k < |xs| && xs[k].event.kind.UsageRecorded? && j < |xs[k].event.kind.measurements|
    ensures var e := xs[k].event;
      && UsageRows(c, e, e.kind.provider, e.kind.model, e.kind.measurements)[j] in AllUsage(c, xs)
      && UsageEventRows(e, e.kind.measurements)[j] in AllUsageEvents(xs)
  {
    hide Normalized;
    hide Cost;
    if k < |xs| - 1 {
      RowsHold(c, xs[..|xs| - 1], k, j);
    }
  }

  /** The tables of a reachable world hold exactly the rows of the first deliveries. */
  lemma {:induction false} TablesHoldTheFirsts(c: Config, w: World)
    requires Inv(c, w) && Orderly(w.logs)
    ensures WellFormed(Firsts(w.projected)) && Holds(c, w.db.tables, Firsts(w.projected))
  {
    hide Gapless;
    hide Advance;
    FirstsAreWellFormed(w.logs, w.projected);
    RepeatsLeaveNoTrace(c, w.projected);
    RowsAreTheEvents(c, Firsts(w.projected));
  }

  lemma {:induction false} KeyAmongFirsts(xs: seq<Consumed>, x: Consumed) returns (k: nat)
    requires x in xs
    ensures k < |Firsts(xs)| && Firsts(xs)[k].event.key == x.event.key
  {
    FirstsKeys(xs);
    var i :| 0 <= i < |xs| && xs[i] == x;
    assert xs[i].event.key in Keys(xs);
    hide Firsts;
    k :| 0 <= k < |Firsts(xs)| && Firsts(xs)[k].event.key == x.event.key;
  }

  /**
   * Bill completeness: once a call has a manifest, every measurement of every usage event that was published
   * on the barrier's partition before the barrier has its priced row, whatever crashed or was replayed.
   */
  lemma {:induction false} BillIsComplete(
    c: Config, batchSize: nat, workers: nat, run: seq<Action>, call: string, o: nat, j: nat)
    requires var w := Run(c, batchSize, workers, run);
      && Orderly(w.logs) && call in w.db.tables.manifests && o < w.db.tables.manifests[call].offset
      && o < |Log(w.logs, w.db.tables.manifests[call].partition)|
      && var e := Log(w.logs, w.db.tables.manifests[call].partition)[o];
      && e.kind.UsageRecorded? && j < |e.kind.measurements|
    ensures var w := Run(c, batchSize, workers, run);
      var e := Log(w.logs, w.db.tables.manifests[call].partition)[o];
      && UsageRows(c, e, e.kind.provider, e.kind.model, e.kind.measurements)[j] in w.db.tables.usage
      && UsageEventRows(e, e.kind.measurements)[j] in w.db.tables.usageEvents
  {
    var w := Run(c, batchSize, workers, run);
    ManifestsAreBelowTheWatermark(c, batchSize, workers, run, call);
    RunKeepsInv(c, batchSize, workers, run);
    var p := w.db.tables.manifests[call].partition;
    BelowWatermark(w.logs, w.projected, p, o);
    var x := Consumed(Log(w.logs, p)[o], p, o);
    var k := KeyAmongFirsts(w.projected, x);
    FirstsAreDelivered(w.projected, k);
    SameEvent(w.logs, w.projected, Firsts(w.projected)[k], x);
    TablesHoldTheFirsts(c, w);
    RowsHold(c, Firsts(w.projected), k, j);
  }

  // ---------------------------------------------------------- present types

  /** A minute of audio outside the speech-to-text stage. */
  predicate StrayMinute(rows: seq<UsageRow>, call: string) {
    exists k :: 0 <= k < |rows| && rows[k].call == call && rows[k].usageType == "audio_minute" && rows[k].stage != "stt"
  }

  function Columns(rows: seq<UsageEventRow>, call: string): set<string> {
    set k | 0 <= k < |rows| && rows[k].call == call :: rows[k].usageType
  }

  ghost predicate RowsMatch(t: Tables) {
    |t.usage| == |t.usageEvents| &&
    forall k :: 0 <= k < |t.usage| ==>
      t.usage[k].call == t.usageEvents[k].call
      && t.usageEvents[k].usageType == Normalized(t.usage[k].usageType, t.usage[k].stage)
  }

  lemma {:induction false} RowsCorrespond(c: Config, xs: seq<Consumed>)
    ensures |AllUsage(c, xs)| == |AllUsageEvents(xs)|
    ensures forall k :: 0 <= k < |AllUsage(c, xs)| ==>
      AllUsage(c, xs)[k].call == AllUsageEvents(xs)[k].call
      && AllUsageEvents(xs)[k].usageType == Normalized(AllUsage(c, xs)[k].usageType, AllUsage(c, xs)[k].stage)
  {
    hide Normalized;
    hide Cost;
    if xs != [] {
      RowsCorrespond(c, xs[..|xs| - 1]);
    }
  }

  /** The types found present are the recorded columns, and speech-to-text seconds too after a stray minute. */
  lemma {:induction false} PresentTypes(t: Tables, call: string)
    requires RowsMatch(t)
    ensures Present(t, call) ==
      Columns(t.usageEvents, call) + (if StrayMinute(t.usage, call) then {"stt_audio_seconds"} else {})
  {
    hide Renamed;
    hide Normalized;
    forall x | x in Present(t, call)
      ensures x in Columns(t.usageEvents, call) || (x == "stt_audio_seconds" && StrayMinute(t.usage, call))
    {
      if x !in Columns(t.usageEvents, call) {
        var k :| 0 <= k < |t.usage| && t.usage[k].call == call && Renamed(t.usage[k].usageType) == x;
        RenamedAlike(t.usage[k].usageType, t.usage[k].stage);
        assert t.usageEvents[k].usageType in Columns(t.usageEvents, call);
      }
    }
    if StrayMinute(t.usage, call) {
      var k :| 0 <= k < |t.usage| && t.usage[k].call == call && t.usage[k].usageType == "audio_minute";
      RenamedAlike(t.usage[k].usageType, t.usage[k].stage);
      assert Renamed(t.usage[k].usageType) in Present(t, call);
    }
  }

  /**
   * Exactly what a report of readiness means: a manifest, a measured row for each expectation, and each required
   * type in some column of the call, except that a stray minute passes for speech-to-text seconds.
   */
  lemma {:induction false} ReadyMeans(c: Config, batchSize: nat, workers: nat, run: seq<Action>, call: string, required: set<string>)
    requires Orderly(Run(c, batchSize, workers, run).logs)
    ensures var t := Run(c, batchSize, workers, run).db.tables;
      Ready(Load(Run(c, batchSize, workers, run).db, call, required)) <==>
        && call in t.manifests
        && required <= Columns(t.usageEvents, call)
             + (if StrayMinute(t.usage, call) then {"stt_audio_seconds"} else {})
        && (forall x :: x in t.expectations && x.0 == call ==> Measured(t.usageEvents, x.0, x.1, x.2))
  {
    var w := Run(c, batchSize, workers, run);
    RunKeepsInv(c, batchSize, workers, run);
    AlwaysCaughtUp(c, batchSize, workers, run, call, required);
    TablesHoldTheFirsts(c, w);
    RowsCorrespond(c, Firsts(w.projected));
    PresentTypes(w.db.tables, call);
    hide Run;
    hide Present;
    hide Columns;
    hide StrayMinute;
    hide Measured;
    hide Firsts;
    hide Inv;
    var r := Load(w.db, call, required);
    assert r.missing == {} <==> required <= r.present;
    forall x | x in w.db.tables.expectations && x.0 == call && !Measured(w.db.tables.usageEvents, x.0, x.1, x.2)
      ensures (x.1, x.2) in r.missingExpectations
    {
    }
  }
}
