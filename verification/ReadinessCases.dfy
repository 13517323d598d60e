/** A bill reported ready without the column it was required to have. */
module ReadinessCases {
  import opened Options
  import opened LedgerTables
  import opened ExactlyOnce
  import opened LedgerSums
  import opened Delivery
  import opened DeliverySafety
  import opened DeliveryProgress
  import opened Readiness

  const TOPIC := Partition("usage-events", 0)
  const PRICES := Config(map[("p", "m", "audio_minute") := 1.0], 0.05, {}, {})

  /** A minute of synthesized speech. */
  function Minute(call: string): Event {
    Event(1, "minute", call, "turn", "tts", 0.0, UsageRecorded("p", "m", [Measurement("audio_minute", 1.0)]))
  }

  function Barrier(call: string): Event {
    Event(2, "barrier", call, "session", "usage", 0.0, FinalizationBarrier([]))
  }

  function Deliveries(call: string): seq<Consumed> {
    [Consumed(Minute(call), TOPIC, 0)] + [Consumed(Barrier(call), TOPIC, 1)]
  }

  /** Both are published, read in one poll, and projected. */
  function Script(call: string): seq<Action> {
    [] + [Publish(TOPIC, Minute(call))] + [Publish(TOPIC, Barrier(call))] + [Poll(0, [Fetch(TOPIC, 2)], false)]
      + [Project(0, false)]
  }

  lemma {:induction false} RunMore(c: Config, run: seq<Action>, a: Action)
    ensures Run(c, 100, 1, run + [a]) == Act(c, 100, Run(c, 100, 1, run), a)
  {
    hide Act;
    assert (run + [a])[..|run|] == run;
  }

  lemma {:induction false} DeliveriesProject(call: string)
    ensures ProjectAll(PRICES, NoRows(), Deliveries(call)).Some?
    ensures var t := ProjectAll(PRICES, NoRows(), Deliveries(call)).value;
      call in t.manifests && t.expectations == {}
  {
    var x, y := Consumed(Minute(call), TOPIC, 0), Consumed(Barrier(call), TOPIC, 1);
    assert [] + [x] == [x] && [x][..0] == [] && Deliveries(call)[..1] == [x];
    assert ProjectAll(PRICES, NoRows(), []) == Some(NoRows());
    AppliesWhen(PRICES, NoRows(), x);
    ApplyKeys(PRICES, NoRows(), x);
    ExpectsNothing(PRICES, NoRows(), x);
    hide Apply;
    assert ProjectAll(PRICES, NoRows(), [x]) == Apply(PRICES, NoRows(), x);
    var t := Apply(PRICES, NoRows(), x).value;
    assert t.keys == {"minute"} && "barrier" !in t.keys;
    AppliesWhen(PRICES, t, y);
    ApplyManifests(PRICES, t, y);
    ExpectsNothing(PRICES, t, y);
  }

  lemma {:induction false} ExpectsNothing(c: Config, t: Tables, x: Consumed)
    requires x.event.kind.FinalizationBarrier? ==> x.event.kind.expected == []
    requires Apply(c, t, x).Some?
    ensures Apply(c, t, x).value.expectations == t.expectations
  {
    var e, t1 := x.event, Opened(c, t, x.event);
    OpenedLeavesRows(c, t, e);
    hide Opened;
    hide Refused;
    if e.kind.UsageRecorded? {
      RecordAllKeepsKeys(c, t1, e, e.kind.provider, e.kind.model, e.kind.measurements);
      hide RecordAll;
    }
  }

  lemma {:induction false} ScriptRuns(call: string)
    ensures var w := Run(PRICES, 100, 1, Script(call));
      && w.logs == map[TOPIC := [Minute(call), Barrier(call)]] && w.projected == Deliveries(call)
      && Some(w.db.tables) == ProjectAll(PRICES, NoRows(), Deliveries(call))
  {
    DeliveriesProject(call);
    var minute, barrier := Minute(call), Barrier(call);
    var poll := Poll(0, [Fetch(TOPIC, 2)], false);
    RunMore(PRICES, [], Publish(TOPIC, minute));
    RunMore(PRICES, [] + [Publish(TOPIC, minute)], Publish(TOPIC, barrier));
    RunMore(PRICES, [] + [Publish(TOPIC, minute)] + [Publish(TOPIC, barrier)], poll);
    RunMore(PRICES, [] + [Publish(TOPIC, minute)] + [Publish(TOPIC, barrier)] + [poll], Project(0, false));
    assert Run(PRICES, 100, 1, []) == Initial(1);
    var w0 := Initial(1);
    var w1 := w0.(logs := map[TOPIC := [] + [minute]]);
    var w2 := w0.(logs := map[TOPIC := [] + [minute] + [barrier]]);
    hide Run;
    hide ProjectAll;
    assert Act(PRICES, 100, w0, Publish(TOPIC, minute)) == w1;
    assert Act(PRICES, 100, w1, Publish(TOPIC, barrier)) == w2;
    assert [] + [minute] + [barrier] == [minute, barrier];
    PollsBoth(w2, call);
    ProjectsBoth(Act(PRICES, 100, w2, poll), call);
    hide Act;
  }

  lemma {:induction false} PollsBoth(w: World, call: string)
    requires w == Initial(1).(logs := map[TOPIC := [] + [Minute(call)] + [Barrier(call)]])
    ensures Act(PRICES, 100, w, Poll(0, [Fetch(TOPIC, 2)], false)) ==
      w.(workers := [Worker(map[TOPIC := 2], Deliveries(call), Projecting)])
  {
    var log := [] + [Minute(call)] + [Barrier(call)];
    var fetch := Fetch(TOPIC, 2);
    assert Records(log, TOPIC, 0, 2) == Deliveries(call);
    assert [fetch][..0] == [] && FetchAll(w, map[], []) == ([], map[]);
    assert FetchAll(w, map[], [fetch]) == ([] + Deliveries(call), map[][TOPIC := 2]);
    assert [] + Deliveries(call) == Deliveries(call);
    assert Deliveries(call)[1].event.kind.FinalizationBarrier?;
    assert w.workers == [FRESH];
  }

  lemma {:induction false} ProjectsBoth(w: World, call: string)
    requires w.workers == [Worker(map[TOPIC := 2], Deliveries(call), Projecting)]
    requires w.db == Database(NoRows(), map[]) && w.projected == []
    requires ProjectAll(PRICES, NoRows(), Deliveries(call)).Some?
    ensures var w' := Act(PRICES, 100, w, Project(0, false));
      && w'.logs == w.logs && w'.projected == Deliveries(call)
      && Some(w'.db.tables) == ProjectAll(PRICES, NoRows(), Deliveries(call))
  {
    hide ProjectAll;
    hide Advance;
    hide Deliveries;
  }

  lemma {:induction false} ScriptIsOrderly(call: string)
    ensures Orderly(Run(PRICES, 100, 1, Script(call)).logs)
  {
    ScriptRuns(call);
    hide Run;
    hide ProjectAll;
    hide Script;
    hide Deliveries;
  }

  lemma {:induction false} ScriptRows(call: string)
    ensures Firsts(Deliveries(call)) == Deliveries(call)
    ensures AllUsage(PRICES, Deliveries(call)) == [UsageRow(1, call, "tts", "audio_minute", 1.0, Cost(1.0, 1.0))]
    ensures AllUsageEvents(Deliveries(call)) ==
      [UsageEventRow(1, "audio_minute", call, "turn", "call_duration_seconds", 1.0)]
  {
    var x, y := Consumed(Minute(call), TOPIC, 0), Consumed(Barrier(call), TOPIC, 1);
    assert [] + [x] == [x];
    assert Firsts([x]) == [x] && Keys([x]) == {"minute"} by {
      assert [x][..0] == [] && Firsts([]) == [] && Keys([]) == {} && Keys([x]) == {[x][0].event.key};
    }
    assert Deliveries(call)[..1] == [x];
    assert AllUsage(PRICES, []) == [] && AllUsageEvents([]) == [];
    EventsSnoc(PRICES, [], x);
    EventsSnoc(PRICES, [x], y);
    hide AllUsage;
    hide AllUsageEvents;
    hide Cost;
    var ms := [Measurement("audio_minute", 1.0)];
    assert UsageRows(PRICES, x.event, "p", "m", ms) == [UsageRow(1, call, "tts", "audio_minute", 1.0, Cost(1.0, 1.0))];
    assert Normalized("audio_minute", "tts") == "call_duration_seconds";
    assert UsageEventRows(x.event, ms) == [UsageEventRow(1, "audio_minute", call, "turn", "call_duration_seconds", 1.0)];
  }

  /** After a minute of synthesized speech and the barrier, the call is ready with no transcription seconds on record. */
  lemma {:induction false} SpeechPassesForTranscription(call: string)
    ensures var w := Run(PRICES, 100, 1, Script(call));
      && Ready(Load(w.db, call, {"stt_audio_seconds"}))
      && "stt_audio_seconds" !in Columns(w.db.tables.usageEvents, call)
  {
    ScriptRuns(call);
    ScriptIsOrderly(call);
    DeliveriesProject(call);
    ScriptRows(call);
    var w := Run(PRICES, 100, 1, Script(call));
    RunKeepsInv(PRICES, 100, 1, Script(call));
    TablesHoldTheFirsts(PRICES, w);
    ReadyMeans(PRICES, 100, 1, Script(call), call, {"stt_audio_seconds"});
    hide *;
    OneStrayMinute(w.db.tables, call, Cost(1.0, 1.0)) by {
      RowsHeld(PRICES, w.db.tables, Deliveries(call));
    }
  }

  lemma {:induction false} RowsHeld(c: Config, t: Tables, xs: seq<Consumed>)
    requires Holds(c, t, xs)
    ensures t.usage == AllUsage(c, xs) && t.usageEvents == AllUsageEvents(xs)
  {
    hide AllUsage;
    hide AllUsageEvents;
    hide RollupsAddUp;
  }

  lemma {:induction false} OneStrayMinute(t: Tables, call: string, cost: real)
    requires t.usage == [UsageRow(1, call, "tts", "audio_minute", 1.0, cost)]
    requires t.usageEvents == [UsageEventRow(1, "audio_minute", call, "turn", "call_duration_seconds", 1.0)]
    ensures StrayMinute(t.usage, call) && "stt_audio_seconds" !in Columns(t.usageEvents, call)
  {
    assert t.usage[0].usageType == "audio_minute" && t.usage[0].stage != "stt";
  }
}
