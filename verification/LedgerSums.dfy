/** What the ledger's rows, bills and rollups add up to. */
module LedgerSums {
  import opened Options
  import opened LedgerTables
  import opened ExactlyOnce

  // ------------------------------------------------------------------ bills

  /** Every bill is its platform fee and the cost of the call's rows; a call with rows has a bill. */
  ghost predicate Balanced(t: Tables) {
    && (forall call :: call in t.billing ==>
          t.billing[call].providerCost == CostOf(t.usage, call)
          && t.billing[call].total == t.billing[call].platformFee + t.billing[call].providerCost)
    && (forall k :: 0 <= k < |t.usage| ==> t.usage[k].call in t.billing)
  }

  /** Bills of calls other than `call` are balanced. */
  ghost predicate BalancedBut(t: Tables, call: string) {
    && (forall other :: other in t.billing && other != call ==>
          t.billing[other].providerCost == CostOf(t.usage, other)
          && t.billing[other].total == t.billing[other].platformFee + t.billing[other].providerCost)
    && (forall k :: 0 <= k < |t.usage| ==> t.usage[k].call in t.billing || t.usage[k].call == call)
  }

  lemma {:induction false} UpdateBalances(c: Config, t: Tables, call: string, duration: Option<real>, finalized: bool)
    requires BalancedBut(t, call)
    ensures Balanced(UpdateCallBilling(c, t, call, duration, finalized))
  {
  }

  lemma {:induction false} RecordAllBalancesOthers(
    c: Config, t: Tables, e: Event, provider: string, model: string, ms: seq<Measurement>)
    requires BalancedBut(t, e.call)
    ensures var r := RecordAll(c, t, e, provider, model, ms);
      r.Some? ==> BalancedBut(r.value, e.call)
  {
    if ms != [] {
      RecordAllBalancesOthers(c, t, e, provider, model, ms[..|ms| - 1]);
      var r := RecordAll(c, t, e, provider, model, ms[..|ms| - 1]);
      var m := ms[|ms| - 1];
      if r.Some? && (provider, model, m.usageType) in c.prices {
        OthersUntouched(r.value, e, m, c.prices[(provider, model, m.usageType)]);
      }
    }
  }

  lemma {:induction false} OthersUntouched(t: Tables, e: Event, m: Measurement, price: real)
    requires BalancedBut(t, e.call)
    ensures BalancedBut(RecordMeasurement(t, e, m, price), e.call)
  {
    hide Normalized;
    hide Rollup;
    var t' := RecordMeasurement(t, e, m, price);
    if t'.usage != t.usage {
      assert t'.usage[..|t'.usage| - 1] == t.usage;
    }
  }

  lemma {:induction false} CallBalances(c: Config, t: Tables, e: Event)
    requires Balanced(t)
    ensures Balanced(ProjectCall(c, t, e))
  {
    hide UpdateCallBilling;
    hide Balanced;
    hide BalancedBut;
    EndLeavesRows(t, e.call, Completed, e.at);
    CallIs(c, t, e);
    hide EndCall;
    hide FailCall;
    hide ProjectCall;
    match e.kind
    case CallEnded(duration) =>
      BalancedFrame(t, EndCall(t, e.call, Completed, e.at), e.call);
      UpdateBalances(c, EndCall(t, e.call, Completed, e.at), e.call, Some(duration), true);
    case CallFailed =>
      BalancedFrame(t, FailCall(t, e.call, e.at), e.call);
      UpdateBalances(c, FailCall(t, e.call, e.at), e.call, None, true);
    case _ => BalancedFrame(t, ProjectCall(c, t, e), e.call);
  }

  lemma {:induction false} BalancedFrame(t: Tables, t': Tables, call: string)
    requires Balanced(t) && t'.usage == t.usage && t'.billing == t.billing
    ensures Balanced(t') && BalancedBut(t', call)
  {
    hide CostOf;
  }

  lemma {:induction false} UsageBalances(c: Config, t: Tables, x: Consumed)
    requires Balanced(t)
    ensures ProjectUsage(c, t, x).Some? ==> Balanced(ProjectUsage(c, t, x).value)
  {
    hide RecordAll;
    hide UpdateCallBilling;
    hide Balanced;
    hide BalancedBut;
    var e, r := x.event, ProjectUsage(c, t, x);
    if e.kind.UsageRecorded? && r.Some? {
      BalancedFrame(t, t, e.call);
      RecordAllBalancesOthers(c, t, e, e.kind.provider, e.kind.model, e.kind.measurements);
      var recorded := RecordAll(c, t, e, e.kind.provider, e.kind.model, e.kind.measurements).value;
      UpdateBalances(c, recorded, e.call, None, false);
      BalancedFrame(UpdateCallBilling(c, recorded, e.call, None, false), r.value, e.call);
    } else if r.Some? {
      BalancedFrame(t, r.value, e.call);
    }
  }

  lemma {:induction false} ApplyBalances(c: Config, t: Tables, x: Consumed)
    requires Balanced(t)
    ensures Apply(c, t, x).Some? ==> Balanced(Apply(c, t, x).value)
  {
    hide ProjectCall;
    hide ProjectUsage;
    hide Refused;
    hide Balanced;
    var inserted := InsertEvent(t.(keys := t.keys + {x.event.key}), x.event);
    BalancedFrame(t, inserted, x.event.call);
    CallBalances(c, inserted, x.event);
    UsageBalances(c, Opened(c, t, x.event), x);
  }

  /** After every transaction each call's provider cost is the sum of its usage rows, and its total adds the fee. */
  lemma {:induction false} EveryBillBalances(c: Config, xs: seq<Consumed>)
    ensures ProjectAll(c, NoRows(), xs).Some? ==> Balanced(ProjectAll(c, NoRows(), xs).value)
  {
    if xs != [] {
      hide Apply;
      hide Balanced;
      EveryBillBalances(c, xs[..|xs| - 1]);
      var r := ProjectAll(c, NoRows(), xs[..|xs| - 1]);
      if r.Some? {
        ApplyBalances(c, r.value, xs[|xs| - 1]);
      }
    }
  }

  // ------------------------------------------------------------------- rows

  function UsageRows(c: Config, e: Event, provider: string, model: string, ms: seq<Measurement>): seq<UsageRow> {
    seq(|ms|, k requires 0 <= k < |ms| =>
      var key := (provider, model, ms[k].usageType);
      UsageRow(e.id, e.call, e.stage, ms[k].usageType, ms[k].quantity,
               Cost(ms[k].quantity, if key in c.prices then c.prices[key] else 0.0)))
  }

  function UsageEventRows(e: Event, ms: seq<Measurement>): seq<UsageEventRow> {
    seq(|ms|, k requires 0 <= k < |ms| =>
      UsageEventRow(e.id, ms[k].usageType, e.call, e.turn, Normalized(ms[k].usageType, e.stage), ms[k].quantity))
  }

  /** The usage rows of a sequence of events, one for each measurement. */
  function AllUsage(c: Config, xs: seq<Consumed>): seq<UsageRow> {
    if xs == [] then []
    else
      var e := xs[|xs| - 1].event;
      AllUsage(c, xs[..|xs| - 1])
        + (if e.kind.UsageRecorded? then UsageRows(c, e, e.kind.provider, e.kind.model, e.kind.measurements) else [])
  }

  function AllUsageEvents(xs: seq<Consumed>): seq<UsageEventRow> {
    if xs == [] then []
    else
      var e := xs[|xs| - 1].event;
      AllUsageEvents(xs[..|xs| - 1])
        + (if e.kind.UsageRecorded? then UsageEventRows(e, e.kind.measurements) else [])
  }

  function Ids(xs: seq<Consumed>): seq<nat> {
    seq(|xs|, k requires 0 <= k < |xs| => xs[k].event.id)
  }

  /** The identifiers of the events that report usage. */
  function UsageIds(xs: seq<Consumed>): seq<nat> {
    if xs == [] then []
    else UsageIds(xs[..|xs| - 1]) + (if xs[|xs| - 1].event.kind.UsageRecorded? then [xs[|xs| - 1].event.id] else [])
  }

  function Sources(rows: seq<OutboxRow>): seq<nat> {
    seq(|rows|, k requires 0 <= k < |rows| => rows[k].source)
  }

  /** The measured quantity of one usage type for one call. */
  function QuantityOf(rows: seq<UsageEventRow>, call: string, usageType: string): real {
    if rows == [] then 0.0
    else
      var r := rows[|rows| - 1];
      QuantityOf(rows[..|rows| - 1], call, usageType)
        + (if r.call == call && r.usageType == usageType then r.quantity else 0.0)
  }

  /** No event reports a usage type twice. */
  ghost predicate DistinctTypes(ms: seq<Measurement>) {
    forall j, k :: 0 <= j < k < |ms| ==> ms[j].usageType != ms[k].usageType
  }

  /** Event identifiers are random: no two events share one. */
  ghost predicate DistinctIds(xs: seq<Consumed>) {
    forall j, k :: 0 <= j < k < |xs| ==> xs[j].event.id != xs[k].event.id
  }

  ghost predicate WellFormed(xs: seq<Consumed>) {
    && DistinctIds(xs)
    && (forall k :: 0 <= k < |xs| && xs[k].event.kind.UsageRecorded? ==> DistinctTypes(xs[k].event.kind.measurements))
  }

  ghost predicate RollupsAddUp(t: Tables) {
    forall call, column :: column in COLUMNS ==> Rollup(t, call, column) == QuantityOf(t.usageEvents, call, column)
  }

  /** No rows of event `id` yet. */
  ghost predicate Unseen(t: Tables, id: nat) {
    && (forall k :: 0 <= k < |t.usage| ==> t.usage[k].event != id)
    && (forall k :: 0 <= k < |t.usageEvents| ==> t.usageEvents[k].event != id)
  }

  lemma {:induction false} RecordOne(t: Tables, e: Event, m: Measurement, price: real)
    requires RollupsAddUp(t)
    requires !HasUsageEvent(t.usageEvents, e.id, m.usageType)
    ensures RollupsAddUp(RecordMeasurement(t, e, m, price))
  {
    var n := Normalized(m.usageType, e.stage);
    hide Normalized;
    hide HasUsage;
    var t' := RecordMeasurement(t, e, m, price);
    var row := UsageEventRow(e.id, m.usageType, e.call, e.turn, n, m.quantity);
    assert t'.usageEvents == t.usageEvents + [row];
    forall call, column | column in COLUMNS
      ensures Rollup(t', call, column) == QuantityOf(t'.usageEvents, call, column)
    {
      assert Rollup(t, call, column) == QuantityOf(t.usageEvents, call, column);
      QuantityAppend(t.usageEvents, row, call, column);
    }
  }

  lemma {:induction false} QuantityAppend(rows: seq<UsageEventRow>, r: UsageEventRow, call: string, usageType: string)
    ensures QuantityOf(rows + [r], call, usageType) ==
      QuantityOf(rows, call, usageType) + (if r.call == call && r.usageType == usageType then r.quantity else 0.0)
  {
    assert (rows + [r])[..|rows|] == rows;
  }

  lemma {:induction false} RowsSnoc(c: Config, e: Event, provider: string, model: string, ms: seq<Measurement>)
    requires ms != []
    ensures var front, m, key := ms[..|ms| - 1], ms[|ms| - 1], (provider, model, ms[|ms| - 1].usageType);
      && UsageRows(c, e, provider, model, ms) == UsageRows(c, e, provider, model, front)
           + [UsageRow(e.id, e.call, e.stage, m.usageType, m.quantity,
                       Cost(m.quantity, if key in c.prices then c.prices[key] else 0.0))]
      && UsageEventRows(e, ms) == UsageEventRows(e, front)
           + [UsageEventRow(e.id, m.usageType, e.call, e.turn, Normalized(m.usageType, e.stage), m.quantity)]
  {
    hide Normalized;
    hide Cost;
  }

  lemma {:induction false} RecordAllRows(
    c: Config, t: Tables, e: Event, provider: string, model: string, ms: seq<Measurement>)
    requires Unseen(t, e.id) && DistinctTypes(ms) && RollupsAddUp(t)
    requires RecordAll(c, t, e, provider, model, ms).Some?
    ensures var r := RecordAll(c, t, e, provider, model, ms).value;
      && r.usage == t.usage + UsageRows(c, e, provider, model, ms)
      && r.usageEvents == t.usageEvents + UsageEventRows(e, ms)
      && RollupsAddUp(r)
  {
    if ms != [] {
      hide Normalized;
      hide RollupsAddUp;
      hide HasUsage;
      hide HasUsageEvent;
      hide Rollup;
      hide Cost;
      var front, m := ms[..|ms| - 1], ms[|ms| - 1];
      RecordAllRows(c, t, e, provider, model, front);
      var r := RecordAll(c, t, e, provider, model, front).value;
      NotYet(c, t, e, provider, model, front, m.usageType);
      RecordOne(r, e, m, c.prices[(provider, model, m.usageType)]);
      RowsSnoc(c, e, provider, model, ms);
    }
  }

  lemma {:induction false} NotYet(c: Config, t: Tables, e: Event, provider: string, model: string, ms: seq<Measurement>, usageType: string)
    requires Unseen(t, e.id)
    requires forall k :: 0 <= k < |ms| ==> ms[k].usageType != usageType
    ensures !HasUsage(t.usage + UsageRows(c, e, provider, model, ms), e.id, usageType)
    ensures !HasUsageEvent(t.usageEvents + UsageEventRows(e, ms), e.id, usageType)
  {
    hide Normalized;
  }

  lemma {:induction false} RowsNameTheirEvents(c: Config, xs: seq<Consumed>)
    ensures forall k :: 0 <= k < |AllUsage(c, xs)| ==> AllUsage(c, xs)[k].event in Ids(xs)
    ensures forall k :: 0 <= k < |AllUsageEvents(xs)| ==> AllUsageEvents(xs)[k].event in Ids(xs)
    ensures forall id :: id in UsageIds(xs) ==> id in Ids(xs)
  {
    if xs != [] {
      hide Normalized;
      hide Cost;
      RowsNameTheirEvents(c, xs[..|xs| - 1]);
      assert Ids(xs) == Ids(xs[..|xs| - 1]) + [xs[|xs| - 1].event.id];
    }
  }

  /** The tables hold the rows of exactly these events. */
  ghost predicate Holds(c: Config, t: Tables, xs: seq<Consumed>) {
    && t.usage == AllUsage(c, xs) && t.usageEvents == AllUsageEvents(xs)
    && t.timeline == Ids(xs) && Sources(t.outbox) == UsageIds(xs)
    && RollupsAddUp(t)
  }

  lemma {:induction false} EnqueueAdds(t: Tables, e: Event)
    requires e.id !in Sources(t.outbox)
    ensures var t' := EnqueueBilling(t, e);
      t' == t.(outbox := t'.outbox) && Sources(t'.outbox) == Sources(t.outbox) + [e.id]
  {
    assert forall k :: 0 <= k < |t.outbox| ==> t.outbox[k].source == Sources(t.outbox)[k];
    hide BillingOf;
  }

  /** A new usage event adds its rows and one outbox message. */
  lemma {:induction false} UsageAddsRows(c: Config, t: Tables, x: Consumed)
    requires x.event.kind.UsageRecorded? && DistinctTypes(x.event.kind.measurements)
    requires Unseen(t, x.event.id) && x.event.id !in Sources(t.outbox) && RollupsAddUp(t)
    requires ProjectUsage(c, t, x).Some?
    ensures var (e, t') := (x.event, ProjectUsage(c, t, x).value);
      && t'.usage == t.usage + UsageRows(c, e, e.kind.provider, e.kind.model, e.kind.measurements)
      && t'.usageEvents == t.usageEvents + UsageEventRows(e, e.kind.measurements)
      && Sources(t'.outbox) == Sources(t.outbox) + [e.id]
      && t'.timeline == t.timeline && RollupsAddUp(t')
  {
    var e, t' := x.event, ProjectUsage(c, t, x).value;
    RecordAllRows(c, t, e, e.kind.provider, e.kind.model, e.kind.measurements);
    RecordAllKeepsKeys(c, t, e, e.kind.provider, e.kind.model, e.kind.measurements);
    var r := RecordAll(c, t, e, e.kind.provider, e.kind.model, e.kind.measurements).value;
    var billed := UpdateCallBilling(c, r, e.call, None, false);
    UpdateLeavesRows(c, r, e.call, None, false);
    EnqueueAdds(billed, e);
    assert t' == EnqueueBilling(billed, e);
    RollupsFrame(r, t');
    hide *;
  }

  lemma {:induction false} RollupsFrame(t: Tables, t': Tables)
    requires RollupsAddUp(t) && t'.rollups == t.rollups && t'.usageEvents == t.usageEvents
    ensures RollupsAddUp(t')
  {
    assert forall call, column :: Rollup(t', call, column) == Rollup(t, call, column);
  }

  // ------------------------------------------------------- rows are never lost

  lemma {:induction false} RecordAllGrows(
    c: Config, t: Tables, e: Event, provider: string, model: string, ms: seq<Measurement>)
    ensures var r := RecordAll(c, t, e, provider, model, ms);
      r.Some? ==> t.usage <= r.value.usage && t.usageEvents <= r.value.usageEvents
  {
    hide Normalized;
    hide Rollup;
    hide HasUsage;
    hide HasUsageEvent;
    if ms != [] {
      RecordAllGrows(c, t, e, provider, model, ms[..|ms| - 1]);
    }
  }

  lemma {:induction false} ApplyGrows(c: Config, t: Tables, x: Consumed)
    ensures var r := Apply(c, t, x);
      r.Some? ==> t.usage <= r.value.usage && t.usageEvents <= r.value.usageEvents
  {
    var e, t1 := x.event, Opened(c, t, x.event);
    OpenedLeavesRows(c, t, e);
    hide Opened;
    hide Refused;
    if e.kind.UsageRecorded? {
      RecordAllGrows(c, t1, e, e.kind.provider, e.kind.model, e.kind.measurements);
      hide RecordAll;
    }
  }

  /** No delivery removes a row or changes one. */
  lemma {:induction false} ProjectGrows(c: Config, t: Tables, xs: seq<Consumed>)
    ensures var r := ProjectAll(c, t, xs);
      r.Some? ==> t.usage <= r.value.usage && t.usageEvents <= r.value.usageEvents
  {
    hide Apply;
    if xs != [] {
      ProjectGrows(c, t, xs[..|xs| - 1]);
      var r := ProjectAll(c, t, xs[..|xs| - 1]);
      if r.Some? {
        ApplyGrows(c, r.value, xs[|xs| - 1]);
      }
    }
  }

  lemma {:induction false} EventsSnoc(c: Config, xs: seq<Consumed>, x: Consumed)
    ensures Ids(xs + [x]) == Ids(xs) + [x.event.id]
    ensures var e := x.event;
      if e.kind.UsageRecorded? then
        && AllUsage(c, xs + [x]) == AllUsage(c, xs) + UsageRows(c, e, e.kind.provider, e.kind.model, e.kind.measurements)
        && AllUsageEvents(xs + [x]) == AllUsageEvents(xs) + UsageEventRows(e, e.kind.measurements)
        && UsageIds(xs + [x]) == UsageIds(xs) + [e.id]
      else
        && AllUsage(c, xs + [x]) == AllUsage(c, xs) && AllUsageEvents(xs + [x]) == AllUsageEvents(xs)
        && UsageIds(xs + [x]) == UsageIds(xs)
  {
    assert (xs + [x])[..|xs|] == xs;
    hide UsageRows;
    hide UsageEventRows;
  }

  /** An event that is new among well-formed events has no rows yet. */
  lemma {:induction false} NewEventIsUnseen(c: Config, t: Tables, xs: seq<Consumed>, x: Consumed)
    requires WellFormed(xs + [x]) && Holds(c, t, xs)
    ensures x.event.id !in t.timeline && Unseen(t, x.event.id) && x.event.id !in Sources(t.outbox)
    ensures x.event.kind.UsageRecorded? ==> DistinctTypes(x.event.kind.measurements)
  {
    assert (xs + [x])[|xs|] == x;
    assert forall k :: 0 <= k < |xs| ==> (xs + [x])[k] == xs[k];
    RowsNameTheirEvents(c, xs);
    hide AllUsage;
    hide AllUsageEvents;
    hide UsageIds;
    hide DistinctTypes;
    hide RollupsAddUp;
  }

  lemma {:induction false} ApplyHolds(c: Config, t: Tables, xs: seq<Consumed>, x: Consumed)
    requires WellFormed(xs + [x]) && Holds(c, t, xs) && Apply(c, t, x).Some?
    ensures Holds(c, Apply(c, t, x).value, xs + [x])
  {
    var t1 := Opened(c, t, x.event);
    OpenedLeavesRows(c, t, x.event);
    RollupsFrame(t, t1);
    NewEventIsUnseen(c, t, xs, x);
    EventsSnoc(c, xs, x);
    hide Opened;
    hide Refused;
    hide RollupsAddUp;
    hide WellFormed;
    hide DistinctTypes;
    hide AllUsage;
    hide AllUsageEvents;
    hide UsageIds;
    hide Ids;
    hide UsageRows;
    hide UsageEventRows;
    if x.event.kind.UsageRecorded? {
      UsageAddsRows(c, t1, x);
      hide ProjectUsage;
    } else {
      RollupsFrame(t1, ProjectUsage(c, t1, x).value);
    }
  }

  /** A ledger of well-formed events holds exactly their rows, in order, and its rollups are their sums. */
  lemma {:induction false} RowsAreTheEvents(c: Config, xs: seq<Consumed>)
    requires WellFormed(xs) && ApplyAll(c, NoRows(), xs).Some?
    ensures Holds(c, ApplyAll(c, NoRows(), xs).value, xs)
  {
    hide Apply;
    if xs == [] {
      assert Sources([]) == [] && Ids(xs) == [];
    } else {
      var front := xs[..|xs| - 1];
      assert front + [xs[|xs| - 1]] == xs;
      RowsAreTheEvents(c, front);
      ApplyHolds(c, ApplyAll(c, NoRows(), front).value, front, xs[|xs| - 1]);
    }
  }

  /**
   * Whatever was delivered, repeated and rolled back, each bill is the price of what the first delivery of
   * each key measured for its call, each rollup is the quantity they measured, and each of them is announced once.
   */
  lemma {:induction false} BillsPriceTheFirsts(c: Config, batches: seq<seq<Consumed>>)
    requires WellFormed(Firsts(Committed(c, NoRows(), batches)))
    ensures var (t, firsts) := (Transactions(c, NoRows(), batches), Firsts(Committed(c, NoRows(), batches)));
      && (forall call :: call in t.billing ==>
            t.billing[call].providerCost == CostOf(AllUsage(c, firsts), call)
            && t.billing[call].total == t.billing[call].platformFee + t.billing[call].providerCost)
      && (forall call, column :: column in COLUMNS ==>
            Rollup(t, call, column) == QuantityOf(AllUsageEvents(firsts), call, column))
      && Sources(t.outbox) == UsageIds(firsts) && t.timeline == Ids(firsts)
  {
    TablesAreTheFirsts(c, batches);
    TransactionsAreOneProjection(c, batches);
    EveryBillBalances(c, Committed(c, NoRows(), batches));
    RowsAreTheEvents(c, Firsts(Committed(c, NoRows(), batches)));
  }

  /** Which measurements are summed up: those of a type that has a column of its own, or is counted in one. */
  lemma {:induction false} SummedUpAre(usageType: string, stage: string)
    ensures Normalized(usageType, stage) in COLUMNS <==>
      || usageType in {"input_token", "cached_input_token", "output_token", "input_text_token", "output_audio_token"}
      || usageType in {"stt_audio_seconds", "llm_input_tokens", "llm_output_tokens", "tts_characters"}
      || usageType in {"tts_audio_seconds", "telephony_seconds"} || (usageType == "audio_minute" && stage == "stt")
  {
  }

  /** Exactly when one more measurement keeps the rollups equal to the rows: not when its row already exists. */
  lemma {:induction false} RepeatedTypesDrift(t: Tables, e: Event, m: Measurement, price: real)
    requires RollupsAddUp(t)
    ensures RollupsAddUp(RecordMeasurement(t, e, m, price)) <==>
      !HasUsageEvent(t.usageEvents, e.id, m.usageType) || Normalized(m.usageType, e.stage) !in COLUMNS || m.quantity == 0.0
  {
    if !HasUsageEvent(t.usageEvents, e.id, m.usageType) {
      RecordOne(t, e, m, price);
    } else {
      Drift(t, e, m, price);
    }
  }

  lemma {:induction false} Drift(t: Tables, e: Event, m: Measurement, price: real)
    requires RollupsAddUp(t) && HasUsageEvent(t.usageEvents, e.id, m.usageType)
    ensures RollupsAddUp(RecordMeasurement(t, e, m, price)) <==>
      Normalized(m.usageType, e.stage) !in COLUMNS || m.quantity == 0.0
  {
    var n, t' := Normalized(m.usageType, e.stage), RecordMeasurement(t, e, m, price);
    hide Normalized;
    hide HasUsage;
    hide HasUsageEvent;
    hide QuantityOf;
    assert t'.usageEvents == t.usageEvents;
    if n in COLUMNS {
      assert Rollup(t', e.call, n) == Rollup(t, e.call, n) + m.quantity;
      assert forall call, column :: (call, column) != (e.call, n) ==> Rollup(t', call, column) == Rollup(t, call, column);
    } else {
      RollupsFrame(t, t');
    }
  }

  const TOKEN := Measurement("output_token", 1.0)
  const TOKENS_PRICED := Config(map[("p", "m", "output_token") := 1.0], 0.05, {}, {})

  /** One event that measures a token twice. */
  function TwoTokens(call: string): Event {
    Event(1, "usage", call, "turn", "llm", 0.0, UsageRecorded("p", "m", [TOKEN, TOKEN]))
  }

  lemma {:induction false} TokenIsCounted()
    ensures Normalized("output_token", "llm") == "llm_output_tokens" && "llm_output_tokens" in COLUMNS
  {
  }

  lemma {:induction false} RecordsTwo(t: Tables, e: Event)
    ensures RecordAll(TOKENS_PRICED, t, e, "p", "m", [TOKEN, TOKEN]) ==
      Some(RecordMeasurement(RecordMeasurement(t, e, TOKEN, 1.0), e, TOKEN, 1.0))
  {
    assert [TOKEN, TOKEN][..1] == [TOKEN] && [TOKEN][..0] == [];
    hide RecordMeasurement;
    assert RecordAll(TOKENS_PRICED, t, e, "p", "m", []) == Some(t);
    assert RecordAll(TOKENS_PRICED, t, e, "p", "m", [TOKEN]) == Some(RecordMeasurement(t, e, TOKEN, 1.0));
  }

  lemma {:induction false} SecondTokenDrifts(t: Tables, e: Event)
    requires RollupsAddUp(t) && t.usage == [] && t.usageEvents == [] && e.stage == "llm"
    ensures var once := RecordMeasurement(t, e, TOKEN, 1.0);
      var twice := RecordMeasurement(once, e, TOKEN, 1.0);
      |twice.usage| == 1 && |twice.usageEvents| == 1 && !RollupsAddUp(twice)
  {
    TokenIsCounted();
    var once := RecordMeasurement(t, e, TOKEN, 1.0);
    assert once.usageEvents[0].event == e.id && once.usageEvents[0].sourceType == TOKEN.usageType;
    assert once.usage[0].event == e.id && once.usage[0].usageType == TOKEN.usageType;
    hide RollupsAddUp;
    hide Normalized;
    RepeatedTypesDrift(t, e, TOKEN, 1.0);
    RepeatedTypesDrift(once, e, TOKEN, 1.0);
  }

  /** An event that measures the same type twice leaves one row, and a rollup that is not the rows' sum. */
  lemma {:induction false} RepeatedTypeSplitsTheLedger(call: string, p: Partition)
    ensures var r := Apply(TOKENS_PRICED, NoRows(), Consumed(TwoTokens(call), p, 0));
      r.Some? && |r.value.usage| == 1 && |r.value.usageEvents| == 1 && !RollupsAddUp(r.value)
  {
    var x, c := Consumed(TwoTokens(call), p, 0), TOKENS_PRICED;
    var t := Opened(c, NoRows(), x.event);
    OpenedLeavesRows(c, NoRows(), x.event);
    RecordsTwo(t, x.event);
    assert RollupsAddUp(NoRows());
    RollupsFrame(NoRows(), t);
    SecondTokenDrifts(t, x.event);
    var twice := RecordMeasurement(RecordMeasurement(t, x.event, TOKEN, 1.0), x.event, TOKEN, 1.0);
    UpdateLeavesRows(c, twice, call, None, false);
    var billed := UpdateCallBilling(c, twice, call, None, false);
    RollupsFrameBack(twice, EnqueueBilling(billed, x.event));
    hide Opened;
    hide RecordMeasurement;
    hide RecordAll;
    hide UpdateCallBilling;
    hide RollupsAddUp;
  }

  lemma {:induction false} RollupsFrameBack(t: Tables, t': Tables)
    requires t'.usageEvents == t.usageEvents && t'.rollups == t.rollups
    ensures RollupsAddUp(t') <==> RollupsAddUp(t)
  {
    if RollupsAddUp(t') {
      RollupsFrame(t', t);
    } else if RollupsAddUp(t) {
      RollupsFrame(t, t');
    }
  }
}
