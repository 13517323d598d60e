/** The billing ledger's tables, and what projecting one event does to them. */
module LedgerTables {
  import opened Options

  datatype Measurement = Measurement(usageType: string, quantity: real)
  datatype ExpectedTurn = ExpectedTurn(turn: string, usage: seq<string>)

  /** What a start event says of its organization or agent: nothing, a name that is no identifier, or an identifier. */
  datatype Reference = Absent | NotAUuid(text: string) | Uuid(id: nat)

  datatype Kind =
    | CallStarted(organization: Reference, agent: Reference)
    | CallEnded(duration: real)
    | CallFailed
    | BillingUsageRecorded
    | UsageRecorded(provider: string, model: string, measurements: seq<Measurement>)
    | FinalizationBarrier(expected: seq<ExpectedTurn>)
    | DuplicateIgnored
    | OtherEvent
    /** Its payload cannot be read as its type asks: a missing field, or a value its column cannot hold. */
    | Unreadable

  /** `at` is the event's own time, in seconds. */
  datatype Event = Event(id: nat, key: string, call: string, turn: string, stage: string, at: real, kind: Kind)

  datatype Partition = Partition(topic: string, number: int)

  /** An event as the consumer delivers it. */
  datatype Consumed = Consumed(event: Event, partition: Partition, offset: nat)

  /** The price list, the rate, and the organizations and agents that exist. */
  datatype Config = Config(
    prices: map<(string, string, string), real>, platformRate: real, organizations: set<nat>, agents: set<nat>)

  datatype CallStatus = Started | InProgress | Completed | Failed

  /** When a call was first started, and when it last ended or failed. */
  datatype Times = Times(started: real, ended: Option<real>)

  datatype UsageRow = UsageRow(event: nat, call: string, stage: string, usageType: string, quantity: real, cost: real)
  datatype UsageEventRow = UsageEventRow(
    event: nat, sourceType: string, call: string, turn: string, usageType: string, quantity: real)
  datatype Billing = Billing(duration: real, platformFee: real, providerCost: real, total: real, finalized: bool)
  datatype Manifest = Manifest(event: nat, partition: Partition, offset: nat)
  datatype OutboxRow = OutboxRow(source: nat, call: string, billing: Billing)

  datatype Tables = Tables(
    keys: set<string>, timeline: seq<nat>,
    calls: map<string, CallStatus>, times: map<string, Times>, organizations: map<string, nat>, agents: map<string, nat>,
    usage: seq<UsageRow>, usageEvents: seq<UsageEventRow>, rollups: map<(string, string), real>,
    billing: map<string, Billing>, manifests: map<string, Manifest>,
    expectations: set<(string, string, string)>, outbox: seq<OutboxRow>)

  function NoRows(): Tables {
    Tables({}, [], map[], map[], map[], map[], [], [], map[], map[], map[], {}, [])
  }

  // ----------------------------------------------------------------- usage

  const COLUMNS: set<string> := {
    "stt_audio_seconds", "llm_input_tokens", "llm_output_tokens", "tts_characters", "tts_audio_seconds",
    "telephony_seconds"
  }

  function Normalized(usageType: string, stage: string): string {
    match usageType
    case "audio_minute" => if stage == "stt" then "stt_audio_seconds" else "call_duration_seconds"
    case "input_token" => "llm_input_tokens"
    case "cached_input_token" => "llm_input_tokens"
    case "output_token" => "llm_output_tokens"
    case "input_text_token" => "tts_characters"
    case "output_audio_token" => "tts_audio_seconds"
    case _ => usageType
  }

  function Cost(quantity: real, price: real): real {
    quantity * price
  }

  predicate HasUsage(rows: seq<UsageRow>, event: nat, usageType: string) {
    exists k :: 0 <= k < |rows| && rows[k].event == event && rows[k].usageType == usageType
  }

  predicate HasUsageEvent(rows: seq<UsageEventRow>, event: nat, sourceType: string) {
    exists k :: 0 <= k < |rows| && rows[k].event == event && rows[k].sourceType == sourceType
  }

  function Rollup(t: Tables, call: string, column: string): real {
    if (call, column) in t.rollups then t.rollups[(call, column)] else 0.0
  }

  /** Inserts one priced measurement, unless its rows exist; the rollup is added to either way. */
  function RecordMeasurement(t: Tables, e: Event, m: Measurement, price: real): Tables {
    var n := Normalized(m.usageType, e.stage);
    t.(usage :=
         if HasUsage(t.usage, e.id, m.usageType) then t.usage
         else t.usage + [UsageRow(e.id, e.call, e.stage, m.usageType, m.quantity, Cost(m.quantity, price))],
       usageEvents :=
         if HasUsageEvent(t.usageEvents, e.id, m.usageType) then t.usageEvents
         else t.usageEvents + [UsageEventRow(e.id, m.usageType, e.call, e.turn, n, m.quantity)],
       rollups :=
         if n !in COLUMNS then t.rollups
         else t.rollups[(e.call, n) := Rollup(t, e.call, n) + m.quantity])
  }

  /** The price of each measurement is looked up in turn; a missing one aborts the transaction. */
  function RecordAll(c: Config, t: Tables, e: Event, provider: string, model: string, ms: seq<Measurement>): Option<Tables> {
    if ms == [] then Some(t)
    else
      var m := ms[|ms| - 1];
      match RecordAll(c, t, e, provider, model, ms[..|ms| - 1])
      case None => None
      case Some(t') =>
        if (provider, model, m.usageType) !in c.prices then None
        else Some(RecordMeasurement(t', e, m, c.prices[(provider, model, m.usageType)]))
  }

  // --------------------------------------------------------------- billing

  /** The cost of a call's usage rows. */
  function CostOf(rows: seq<UsageRow>, call: string): real {
    if rows == [] then 0.0
    else CostOf(rows[..|rows| - 1], call) + (if rows[|rows| - 1].call == call then rows[|rows| - 1].cost else 0.0)
  }

  function BillingOf(t: Tables, call: string): Billing {
    if call in t.billing then t.billing[call] else Billing(0.0, 0.0, 0.0, 0.0, false)
  }

  /** Recomputes a call's bill from its usage rows, after setting the duration and the status if asked to. */
  function UpdateCallBilling(c: Config, t: Tables, call: string, duration: Option<real>, finalized: bool): Tables {
    var b := BillingOf(t, call);
    var b1 := match duration
      case Some(d) => b.(duration := d, platformFee := Cost(d / 60.0, c.platformRate), finalized := b.finalized || finalized)
      case None => b.(finalized := b.finalized || finalized);
    var cost := CostOf(t.usage, call);
    t.(billing := t.billing[call := b1.(providerCost := cost, total := b1.platformFee + cost)])
  }

  function EnqueueBilling(t: Tables, e: Event): Tables {
    if exists k :: 0 <= k < |t.outbox| && t.outbox[k].source == e.id then t
    else t.(outbox := t.outbox + [OutboxRow(e.id, e.call, BillingOf(t, e.call))])
  }

  // ------------------------------------------------------------- one event

  function InsertEvent(t: Tables, e: Event): Tables {
    if e.id in t.timeline then t else t.(timeline := t.timeline + [e.id])
  }

  function SetStatus(t: Tables, call: string, status: CallStatus): Tables {
    t.(calls := t.calls[call := status])
  }

  function Closed(times: Times, at: real): Times {
    times.(ended := Some(at))
  }

  /** Sets the status of a call and the time of its end. */
  function EndCall(t: Tables, call: string, status: CallStatus, at: real): Tables {
    t.(calls := t.calls[call := status],
       times := if call in t.times then t.times[call := Closed(t.times[call], at)] else t.times)
  }

  function FailCall(t: Tables, call: string, at: real): Tables {
    if call in t.calls then EndCall(t, call, Failed, at) else t
  }

  /** A reference column keeps what it has, and takes what it is given when it has nothing. */
  function Stored(column: map<string, nat>, call: string, r: Reference): map<string, nat> {
    if call in column || !r.Uuid? then column else column[call := r.id]
  }

  /** A call that is started again keeps its first start. */
  function StartCall(t: Tables, call: string, at: real, organization: Reference, agent: Reference): Tables {
    t.(calls := t.calls[call := Started],
       times := if call in t.times then t.times else t.times[call := Times(at, None)],
       organizations := Stored(t.organizations, call, organization),
       agents := Stored(t.agents, call, agent))
  }

  /** A reference that is no identifier is never taken; an unknown one only when the column does not keep it. */
  predicate Rejects(column: map<string, nat>, known: set<nat>, call: string, r: Reference) {
    r.NotAUuid? || (r.Uuid? && call !in column && r.id !in known)
  }

  /** The event raises before it reaches its usage. */
  predicate Refused(c: Config, t: Tables, e: Event) {
    match e.kind
    case CallStarted(organization, agent) =>
      Rejects(t.organizations, c.organizations, e.call, organization) || Rejects(t.agents, c.agents, e.call, agent)
    case Unreadable => true
    case _ => false
  }

  function ProjectCall(c: Config, t: Tables, e: Event): Tables {
    match e.kind
    case BillingUsageRecorded => t
    case CallStarted(organization, agent) => StartCall(t, e.call, e.at, organization, agent)
    case CallEnded(duration) =>
      if e.call !in t.calls || t.calls[e.call] == Failed then t
      else UpdateCallBilling(c, EndCall(t, e.call, Completed, e.at), e.call, Some(duration), true)
    case CallFailed =>
      UpdateCallBilling(c, FailCall(t, e.call, e.at), e.call, None, true)
    case _ =>
      if e.call in t.calls && t.calls[e.call] == Started then SetStatus(t, e.call, InProgress) else t
  }

  /** The (call, turn, usage type) triples a barrier expects; turns without a name are skipped. */
  function Expectations(call: string, expected: seq<ExpectedTurn>): set<(string, string, string)> {
    set k, j | 0 <= k < |expected| && expected[k].turn != [] && 0 <= j < |expected[k].usage|
      :: (call, expected[k].turn, expected[k].usage[j])
  }

  function ProjectUsage(c: Config, t: Tables, x: Consumed): Option<Tables> {
    var e := x.event;
    match e.kind
    case UsageRecorded(provider, model, ms) =>
      (match RecordAll(c, t, e, provider, model, ms)
       case None => None
       case Some(t') => Some(EnqueueBilling(UpdateCallBilling(c, t', e.call, None, false), e)))
    case FinalizationBarrier(expected) =>
      Some(t.(manifests := t.manifests[e.call := Manifest(e.id, x.partition, x.offset)],
              expectations := t.expectations + Expectations(e.call, expected)))
    case _ => Some(t)
  }

  /** The tables with a new event's key, its timeline entry and its call's row. */
  function Opened(c: Config, t: Tables, e: Event): Tables {
    ProjectCall(c, InsertEvent(t.(keys := t.keys + {e.key}), e), e)
  }

  /** The effect of an event whose key is new; an event that raises has none. */
  function Apply(c: Config, t: Tables, x: Consumed): Option<Tables> {
    if Refused(c, t, x.event) then None
    else ProjectUsage(c, Opened(c, t, x.event), x)
  }

  /** An event is applied once: a known key changes nothing. */
  function ProjectOne(c: Config, t: Tables, x: Consumed): Option<Tables> {
    if x.event.key in t.keys then Some(t) else Apply(c, t, x)
  }

  /** Projects deliveries in order; one that cannot be priced aborts them all. */
  function ProjectAll(c: Config, t: Tables, xs: seq<Consumed>): Option<Tables> {
    if xs == [] then Some(t)
    else
      match ProjectAll(c, t, xs[..|xs| - 1])
      case None => None
      case Some(t') => ProjectOne(c, t', xs[|xs| - 1])
  }

  // ------------------------------------------------------------ watermarks

  type Watermarks = map<Partition, nat>

  /** The offset after the last one projected; nothing has been projected of an unknown partition. */
  function Next(w: Watermarks, p: Partition): nat {
    if p in w then w[p] + 1 else 0
  }

  function MaxNat(a: nat, b: nat): nat {
    if a < b then b else a
  }

  /** Raises the watermarks to the offsets of a batch. */
  function Advance(w: Watermarks, xs: seq<Consumed>): Watermarks {
    if xs == [] then w
    else
      var w', x := Advance(w, xs[..|xs| - 1]), xs[|xs| - 1];
      w'[x.partition := if x.partition in w' then MaxNat(w'[x.partition], x.offset) else x.offset]
  }

  datatype Database = Database(tables: Tables, watermarks: Watermarks)

  /** One batch transaction: all of the events and the watermarks, or nothing. */
  function ProjectBatch(c: Config, db: Database, xs: seq<Consumed>): Option<Database> {
    match ProjectAll(c, db.tables, xs)
    case None => None
    case Some(t) => Some(Database(t, Advance(db.watermarks, xs)))
  }
}
