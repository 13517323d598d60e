/** When the projection can move on, and exactly which records stop it for good. */
module DeliveryProgress {
  import opened Options
  import opened LedgerTables
  import opened ExactlyOnce
  import opened Delivery
  import opened DeliverySafety
  import opened DeliveryLaws
  import opened Readiness

  // ---------------------------------------------------------- accepted records

  predicate AllPriced(c: Config, provider: string, model: string, ms: seq<Measurement>) {
    forall k :: 0 <= k < |ms| ==> (provider, model, ms[k].usageType) in c.prices
  }

  /** A start event of the call that names an organization by an identifier. */
  predicate NamesOrganization(e: Event, call: string) {
    e.kind.CallStarted? && e.call == call && e.kind.organization.Uuid?
  }

  predicate NamesAgent(e: Event, call: string) {
    e.kind.CallStarted? && e.call == call && e.kind.agent.Uuid?
  }

  /** An earlier record of the log named the call's organization already. */
  predicate HasOrganization(log: seq<Event>, o: nat, call: string)
    requires o <= |log|
  {
    exists j :: 0 <= j < o && NamesOrganization(log[j], call)
  }

  predicate HasAgent(log: seq<Event>, o: nat, call: string)
    requires o <= |log|
  {
    exists j :: 0 <= j < o && NamesAgent(log[j], call)
  }

  /** A reference column takes an absent reference, a known identifier, or any identifier it need not store. */
  predicate Takes(known: set<nat>, kept: bool, r: Reference) {
    !r.NotAUuid? && (r.Uuid? ==> kept || r.id in known)
  }

  /** Whether a record can be projected: a question about the configuration and the log before it. */
  predicate Accepted(c: Config, log: seq<Event>, o: nat)
    requires o < |log|
  {
    var e := log[o];
    match e.kind
    case CallStarted(organization, agent) =>
      Takes(c.organizations, HasOrganization(log, o, e.call), organization)
      && Takes(c.agents, HasAgent(log, o, e.call), agent)
    case UsageRecorded(provider, model, ms) => AllPriced(c, provider, model, ms)
    case Unreadable => false
    case _ => true
  }

  /** Events are keyed by call and routed by type: a call is started on one partition. */
  ghost predicate StartsStay(logs: map<Partition, seq<Event>>) {
    forall p, q, i, j :: 0 <= i < |Log(logs, p)| && 0 <= j < |Log(logs, q)| && BothStart(Log(logs, p)[i], Log(logs, q)[j])
      ==> p == q
  }

  predicate BothStart(e: Event, f: Event) {
    e.kind.CallStarted? && f.kind.CallStarted? && e.call == f.call
  }

  lemma {:induction false} RecordsIfPriced(
    c: Config, t: Tables, e: Event, provider: string, model: string, ms: seq<Measurement>)
    ensures RecordAll(c, t, e, provider, model, ms).Some? <==> AllPriced(c, provider, model, ms)
  {
    if ms != [] {
      hide RecordMeasurement;
      var front := ms[..|ms| - 1];
      RecordsIfPriced(c, t, e, provider, model, front);
      assert ms == front + [ms[|ms| - 1]];
    }
  }

  /** An event is applied exactly when it is readable and priced, and its references are taken. */
  lemma {:induction false} AppliesWhen(c: Config, t: Tables, x: Consumed)
    ensures var e := x.event;
      Apply(c, t, x).Some? <==>
        match e.kind
        case CallStarted(organization, agent) =>
          Takes(c.organizations, e.call in t.organizations, organization) && Takes(c.agents, e.call in t.agents, agent)
        case UsageRecorded(provider, model, ms) => AllPriced(c, provider, model, ms)
        case Unreadable => false
        case _ => true
  {
    var e := x.event;
    hide Opened;
    hide AllPriced;
    if e.kind.UsageRecorded? {
      RecordsIfPriced(c, Opened(c, t, e), e, e.kind.provider, e.kind.model, e.kind.measurements);
      hide RecordAll;
    }
  }

  // ------------------------------------------------------- the stored references

  lemma {:induction false} UpdateReferences(c: Config, t: Tables, call: string, duration: Option<real>)
    ensures var t' := UpdateCallBilling(c, t, call, duration, true);
      t'.organizations == t.organizations && t'.agents == t.agents
  {
    UpdateLeavesRows(c, t, call, duration, true);
    hide UpdateCallBilling;
  }

  lemma {:induction false} CallReferences(c: Config, t: Tables, e: Event)
    ensures var t' := ProjectCall(c, t, e);
      if e.kind.CallStarted? then
        && t'.organizations == Stored(t.organizations, e.call, e.kind.organization)
        && t'.agents == Stored(t.agents, e.call, e.kind.agent)
      else t'.organizations == t.organizations && t'.agents == t.agents
  {
    hide UpdateCallBilling;
    hide Stored;
    EndLeavesRows(t, e.call, Completed, e.at);
    hide EndCall;
    hide FailCall;
    if e.kind.CallEnded? {
      UpdateReferences(c, EndCall(t, e.call, Completed, e.at), e.call, Some(e.kind.duration));
    } else if e.kind.CallFailed? {
      UpdateReferences(c, FailCall(t, e.call, e.at), e.call, None);
    }
  }

  lemma {:induction false} OpenedReferences(c: Config, t: Tables, e: Event, call: string)
    ensures call in Opened(c, t, e).organizations <==> call in t.organizations || NamesOrganization(e, call)
    ensures call in Opened(c, t, e).agents <==> call in t.agents || NamesAgent(e, call)
  {
    var inserted := InsertEvent(t.(keys := t.keys + {e.key}), e);
    CallReferences(c, inserted, e);
    assert inserted.organizations == t.organizations && inserted.agents == t.agents;
    hide InsertEvent;
    hide ProjectCall;
    if e.kind.CallStarted? {
      StoredCalls(t.organizations, e.call, e.kind.organization, call);
      StoredCalls(t.agents, e.call, e.kind.agent, call);
    }
    hide Stored;
  }

  lemma {:induction false} StoredCalls(column: map<string, nat>, e: string, r: Reference, call: string)
    ensures call in Stored(column, e, r) <==> call in column || (e == call && r.Uuid?)
  {
  }

  lemma {:induction false} UsageReferences(c: Config, t: Tables, x: Consumed)
    requires ProjectUsage(c, t, x).Some?
    ensures ProjectUsage(c, t, x).value.organizations == t.organizations
    ensures ProjectUsage(c, t, x).value.agents == t.agents
  {
    var e := x.event;
    hide RecordAll;
    if e.kind.UsageRecorded? {
      RecordAllKeepsKeys(c, t, e, e.kind.provider, e.kind.model, e.kind.measurements);
    }
  }

  lemma {:induction false} ApplyReferences(c: Config, t: Tables, x: Consumed, call: string)
    requires Apply(c, t, x).Some?
    ensures var t' := Apply(c, t, x).value;
      && (call in t'.organizations <==> call in t.organizations || NamesOrganization(x.event, call))
      && (call in t'.agents <==> call in t.agents || NamesAgent(x.event, call))
  {
    OpenedReferences(c, t, x.event, call);
    hide Opened;
    hide Refused;
    UsageReferences(c, Opened(c, t, x.event), x);
    hide ProjectUsage;
  }

  lemma {:induction false} ReferencesOfSeen(logs: map<Partition, seq<Event>>, xs: seq<Consumed>, x: Consumed, call: string)
    requires Orderly(logs) && Genuine(logs, xs + [x]) && x.event.key in Keys(xs)
    ensures NamesOrganization(x.event, call) ==> exists k :: 0 <= k < |xs| && NamesOrganization(xs[k].event, call)
    ensures NamesAgent(x.event, call) ==> exists k :: 0 <= k < |xs| && NamesAgent(xs[k].event, call)
  {
    var k :| 0 <= k < |xs| && xs[k].event.key == x.event.key;
    assert (xs + [x])[k] == xs[k] && (xs + [x])[|xs|] == x;
    SameEvent(logs, xs + [x], xs[k], x);
  }

  /** A call has an organization in the tables exactly when some delivery named one, repeats or not. */
  lemma {:induction false} ReferencesAreDelivered(
    c: Config, logs: map<Partition, seq<Event>>, xs: seq<Consumed>, call: string)
    requires Orderly(logs) && Genuine(logs, xs) && ProjectAll(c, NoRows(), xs).Some?
    ensures var t := ProjectAll(c, NoRows(), xs).value;
      && (call in t.organizations <==> exists k :: 0 <= k < |xs| && NamesOrganization(xs[k].event, call))
      && (call in t.agents <==> exists k :: 0 <= k < |xs| && NamesAgent(xs[k].event, call))
  {
    hide Apply;
    hide Orderly;
    hide Keys;
    hide NamesOrganization;
    hide NamesAgent;
    if xs != [] {
      var front, x := xs[..|xs| - 1], xs[|xs| - 1];
      assert xs == front + [x];
      GenuineSplit(logs, front, x);
      hide Genuine;
      ReferencesAreDelivered(c, logs, front, call);
      var t := ProjectAll(c, NoRows(), front).value;
      ProjectedKeys(c, front);
      if x.event.key in t.keys {
        ReferencesOfSeen(logs, front, x, call);
      } else {
        ApplyReferences(c, t, x, call);
      }
      hide ProjectAll;
      assert forall k :: 0 <= k < |front| ==> xs[k] == front[k];
      assert xs[|front|] == x;
    }
  }

  /** Where a call is started, what the tables keep of it is what the log below the watermark names. */
  lemma {:induction false} ReferencesAreLogged(
    c: Config, logs: map<Partition, seq<Event>>, xs: seq<Consumed>, x: Consumed)
    requires Orderly(logs) && StartsStay(logs) && Genuine(logs, xs + [x]) && Gapless(map[], xs)
    requires x.event.kind.CallStarted? && ProjectAll(c, NoRows(), xs).Some?
    ensures var (n, t) := (Next(Advance(map[], xs), x.partition), ProjectAll(c, NoRows(), xs).value);
      && n <= |Log(logs, x.partition)|
      && (x.event.call in t.organizations <==> HasOrganization(Log(logs, x.partition), n, x.event.call))
      && (x.event.call in t.agents <==> HasAgent(Log(logs, x.partition), n, x.event.call))
  {
    var p, call := x.partition, x.event.call;
    var n := Next(Advance(map[], xs), p);
    GenuineSplit(logs, xs, x);
    ReferencesAreDelivered(c, logs, xs, call);
    WatermarksAreInTheLogs(logs, xs, p);
    hide ProjectAll;
    hide Orderly;
    hide Gapless;
    hide Genuine;
    hide Advance;
    hide Next;
    forall k | 0 <= k < |xs| && xs[k].event.kind.CallStarted? && xs[k].event.call == call
      ensures xs[k].partition == p && xs[k].offset < n && Log(logs, p)[xs[k].offset] == xs[k].event
    {
      AdvanceNext(map[], xs, p);
      GenuineAt(logs, xs, k);
    }
    forall j | 0 <= j < n ensures exists k :: 0 <= k < |xs| && xs[k].event == Log(logs, p)[j] {
      BelowWatermark(logs, xs, p, j);
      var k :| 0 <= k < |xs| && xs[k] == Consumed(Log(logs, p)[j], p, j);
    }
  }

  // ------------------------------------------------------------------ stopped

  /** What was accepted stays acceptable further on. */
  lemma {:induction false} AcceptedLater(
    c: Config, logs: map<Partition, seq<Event>>, p: Partition, i: nat, q: Partition, o: nat)
    requires i < |Log(logs, p)| && o < |Log(logs, q)| && Log(logs, p)[i] == Log(logs, q)[o]
    requires Log(logs, p)[i].kind.CallStarted? ==> p == q && i <= o
    requires Accepted(c, Log(logs, p), i)
    ensures Accepted(c, Log(logs, q), o)
  {
    hide Log;
    hide AllPriced;
  }

  lemma {:induction false} ProjectedPrefix(c: Config, xs: seq<Consumed>, k: nat)
    requires ProjectAll(c, NoRows(), xs).Some? && k <= |xs|
    ensures ProjectAll(c, NoRows(), xs[..k]).Some?
  {
    ProjectConcat(c, NoRows(), xs[..k], xs[k..]);
    assert xs[..k] + xs[k..] == xs;
  }

  /** A record delivered for the first time, under a new key, was accepted. */
  lemma {:induction false} AppliedWasAccepted(
    c: Config, logs: map<Partition, seq<Event>>, xs: seq<Consumed>, x: Consumed)
    requires Orderly(logs) && StartsStay(logs) && Genuine(logs, xs + [x]) && Gapless(map[], xs)
    requires x.offset == Next(Advance(map[], xs), x.partition) && x.event.key !in Keys(xs)
    requires ProjectAll(c, NoRows(), xs).Some?
    ensures x.offset < |Log(logs, x.partition)|
    ensures ProjectAll(c, NoRows(), xs + [x]).Some? <==> Accepted(c, Log(logs, x.partition), x.offset)
  {
    var t := ProjectAll(c, NoRows(), xs).value;
    ProjectedKeys(c, xs);
    assert (xs + [x])[..|xs|] == xs;
    assert ProjectAll(c, NoRows(), xs + [x]) == Apply(c, t, x) by {
      hide Apply;
    }
    AppliesWhen(c, t, x);
    GenuineSplit(logs, xs, x);
    if x.event.kind.CallStarted? {
      ReferencesAreLogged(c, logs, xs, x);
    }
    hide ProjectAll;
    hide Apply;
    hide Gapless;
    hide Genuine;
    hide Advance;
    hide Next;
    hide Orderly;
    hide StartsStay;
    hide HasOrganization;
    hide HasAgent;
    hide AllPriced;
    hide Takes;
    hide Log;
  }

  /** Every delivery of a transaction that committed was of an accepted record. */
  lemma {:induction false} DeliveredWereAccepted(
    c: Config, logs: map<Partition, seq<Event>>, xs: seq<Consumed>, k: nat)
    requires Orderly(logs) && StartsStay(logs) && Genuine(logs, xs) && Gapless(map[], xs)
    requires ProjectAll(c, NoRows(), xs).Some? && k < |xs|
    ensures xs[k].offset < |Log(logs, xs[k].partition)|
    ensures Accepted(c, Log(logs, xs[k].partition), xs[k].offset)
    decreases k
  {
    hide *;
    var front, x := xs[..k], xs[k];
    GenuineAt(logs, xs, k);
    PrefixOf(logs, xs, k);
    ProjectedPrefix(c, xs, k);
    ProjectedPrefix(c, xs, k + 1);
    assert xs[..k + 1] == front + [x];
    if x.offset < Next(Advance(map[], front), x.partition) {
      BelowWatermark(logs, front, x.partition, x.offset);
      var i :| 0 <= i < k && front[i] == x;
      DeliveredWereAccepted(c, logs, xs, i);
    } else if x.event.key in Keys(front) {
      var i := SeenBefore(logs, front, x);
      assert front[i] == xs[i];
      DeliveredWereAccepted(c, logs, xs, i);
      AcceptedLater(c, logs, xs[i].partition, xs[i].offset, x.partition, x.offset);
    } else {
      AppliedWasAccepted(c, logs, front, x);
    }
  }

  lemma {:induction false} PrefixOf(logs: map<Partition, seq<Event>>, xs: seq<Consumed>, k: nat)
    requires Genuine(logs, xs) && Gapless(map[], xs) && k < |xs|
    ensures Genuine(logs, xs[..k]) && Genuine(logs, xs[..k] + [xs[k]]) && Gapless(map[], xs[..k])
    ensures xs[k].offset <= Next(Advance(map[], xs[..k]), xs[k].partition)
    ensures xs[k].event == Log(logs, xs[k].partition)[xs[k].offset]
  {
    GenuineAt(logs, xs, k);
    GenuinePrefix(logs, xs, k);
    hide Genuine;
    hide Log;
    GaplessPrefix(xs, k + 1);
    assert xs[..k + 1] == xs[..k] + [xs[k]];
    hide Gapless;
    hide Advance;
    hide Next;
    GaplessSnoc(xs[..k], xs[k]);
  }

  lemma {:induction false} GenuinePrefix(logs: map<Partition, seq<Event>>, xs: seq<Consumed>, k: nat)
    requires Genuine(logs, xs) && k < |xs|
    ensures Genuine(logs, xs[..k]) && Genuine(logs, xs[..k] + [xs[k]])
  {
    hide Log;
  }

  lemma {:induction false} GaplessPrefix(xs: seq<Consumed>, k: nat)
    requires Gapless(map[], xs) && k <= |xs|
    ensures Gapless(map[], xs[..k])
  {
    GaplessConcat(map[], xs[..k], xs[k..]);
    assert xs[..k] + xs[k..] == xs;
    hide Gapless;
    hide Advance;
  }

  /** An earlier delivery of the key was of the same event; of a start, at a lower offset of the same partition. */
  lemma {:induction false} SeenBefore(logs: map<Partition, seq<Event>>, xs: seq<Consumed>, x: Consumed) returns (i: nat)
    requires Orderly(logs) && StartsStay(logs) && Genuine(logs, xs + [x]) && x.event.key in Keys(xs)
    requires x.offset >= Next(Advance(map[], xs), x.partition)
    ensures i < |xs| && xs[i].event == x.event
    ensures xs[i].offset < |Log(logs, xs[i].partition)| && x.offset < |Log(logs, x.partition)|
    ensures Log(logs, xs[i].partition)[xs[i].offset] == x.event == Log(logs, x.partition)[x.offset]
    ensures x.event.kind.CallStarted? ==> xs[i].partition == x.partition && xs[i].offset <= x.offset
  {
    i :| 0 <= i < |xs| && xs[i].event.key == x.event.key;
    GenuineSplit(logs, xs, x);
    GenuineAt(logs, xs, i);
    assert (xs + [x])[i] == xs[i] && (xs + [x])[|xs|] == x;
    SameEvent(logs, xs + [x], xs[i], x);
    AdvanceNext(map[], xs, x.partition);
    hide Orderly;
    hide Genuine;
    hide Advance;
    hide Next;
    hide Log;
  }

  /** No worker, restart or replay ever takes a watermark or a committed offset past a record that is not accepted. */
  lemma {:induction false} RejectedRecordsBlock(c: Config, batchSize: nat, workers: nat, run: seq<Action>, p: Partition, o: nat)
    requires var w := Run(c, batchSize, workers, run);
      Orderly(w.logs) && StartsStay(w.logs) && o < |Log(w.logs, p)| && !Accepted(c, Log(w.logs, p), o)
    ensures var w := Run(c, batchSize, workers, run);
      CommittedOffset(w, p) <= Next(w.db.watermarks, p) <= o
  {
    hide Run;
    hide Accepted;
    hide Orderly;
    hide StartsStay;
    var w := Run(c, batchSize, workers, run);
    RunKeepsInv(c, batchSize, workers, run);
    WatermarksAreSound(c, batchSize, workers, run, p, o);
    if o < Next(w.db.watermarks, p) {
      BelowWatermark(w.logs, w.projected, p, o);
      var k :| 0 <= k < |w.projected| && w.projected[k] == Consumed(Log(w.logs, p)[o], p, o);
      DeliveredWereAccepted(c, w.logs, w.projected, k);
    }
  }

  // ------------------------------------------------------------------- moving

  function RunFrom(c: Config, batchSize: nat, w: World, run: seq<Action>): World {
    if run == [] then w else Act(c, batchSize, RunFrom(c, batchSize, w, run[..|run| - 1]), run[|run| - 1])
  }

  lemma {:induction false} RunsCompose(c: Config, batchSize: nat, w: World, run: seq<Action>, more: seq<Action>)
    ensures RunFrom(c, batchSize, w, run + more) == RunFrom(c, batchSize, RunFrom(c, batchSize, w, run), more)
  {
    hide Act;
    if more == [] {
      assert run + more == run;
    } else {
      assert (run + more)[..|run + more| - 1] == run + more[..|more| - 1];
      RunsCompose(c, batchSize, w, run, more[..|more| - 1]);
    }
  }

  lemma {:induction false} RunIsRunFrom(c: Config, batchSize: nat, workers: nat, run: seq<Action>)
    ensures Run(c, batchSize, workers, run) == RunFrom(c, batchSize, Initial(workers), run)
  {
    hide Act;
    if run != [] {
      RunIsRunFrom(c, batchSize, workers, run[..|run| - 1]);
    }
  }

  /** Restart, read one record, project it, commit it. */
  function Round(i: nat, p: Partition): seq<Action> {
    [Crash(i), Poll(i, [Fetch(p, 1)], true), Project(i, false), Commit(i)]
  }

  lemma {:induction false} RoundUnfolds(c: Config, batchSize: nat, w: World, i: nat, p: Partition)
    ensures RunFrom(c, batchSize, w, Round(i, p)) ==
      Act(c, batchSize, Act(c, batchSize, Act(c, batchSize, Act(c, batchSize, w, Crash(i)),
        Poll(i, [Fetch(p, 1)], true)), Project(i, false)), Commit(i))
  {
    hide Act;
    assert RunFrom(c, batchSize, w, []) == w;
    RunSnoc(c, batchSize, w, [], Crash(i));
    RunSnoc(c, batchSize, w, [] + [Crash(i)], Poll(i, [Fetch(p, 1)], true));
    RunSnoc(c, batchSize, w, [] + [Crash(i)] + [Poll(i, [Fetch(p, 1)], true)], Project(i, false));
    RunSnoc(c, batchSize, w, [] + [Crash(i)] + [Poll(i, [Fetch(p, 1)], true)] + [Project(i, false)], Commit(i));
    hide RunFrom;
    assert Round(i, p) == [] + [Crash(i)] + [Poll(i, [Fetch(p, 1)], true)] + [Project(i, false)] + [Commit(i)];
  }

  lemma {:induction false} RunSnoc(c: Config, batchSize: nat, w: World, run: seq<Action>, a: Action)
    ensures RunFrom(c, batchSize, w, run + [a]) == Act(c, batchSize, RunFrom(c, batchSize, w, run), a)
  {
    hide Act;
    assert (run + [a])[..|run|] == run;
  }

  lemma {:induction false} CrashRestarts(c: Config, batchSize: nat, w: World, i: nat)
    requires i < |w.workers|
    ensures Act(c, batchSize, w, Crash(i)) == SetWorker(w, i, FRESH)
  {
  }

  lemma {:induction false} PollsOne(c: Config, batchSize: nat, w: World, i: nat, p: Partition)
    requires i < |w.workers| && w.workers[i] == FRESH && CommittedOffset(w, p) < |Log(w.logs, p)|
    ensures var o := CommittedOffset(w, p);
      Act(c, batchSize, w, Poll(i, [Fetch(p, 1)], true)) ==
        SetWorker(w, i, Worker(map[p := o + 1], [Consumed(Log(w.logs, p)[o], p, o)], Projecting))
  {
    var o := CommittedOffset(w, p);
    var x := Consumed(Log(w.logs, p)[o], p, o);
    assert Records(Log(w.logs, p), p, o, 1) == [x];
    assert [Fetch(p, 1)][..0] == [];
    assert FetchAll(w, map[], []) == ([], map[]);
    assert FetchAll(w, map[], [Fetch(p, 1)]) == ([] + [x], map[][p := o + 1]);
    assert [] + [x] == [x];
  }

  /** The next record of a partition can be projected on its own, if it is accepted. */
  lemma {:induction false} ProjectsOne(c: Config, w: World, x: Consumed)
    requires Inv(c, w) && Orderly(w.logs) && StartsStay(w.logs) && Genuine(w.logs, [x])
    requires x.offset <= Next(w.db.watermarks, x.partition)
    requires x.offset < |Log(w.logs, x.partition)| && Accepted(c, Log(w.logs, x.partition), x.offset)
    ensures ProjectAll(c, w.db.tables, [x]).Some?
  {
    GenuineConcat(w.logs, w.projected, [x]);
    ProjectConcat(c, NoRows(), w.projected, [x]);
    assert ProjectAll(c, w.db.tables, [x]) == ProjectAll(c, NoRows(), w.projected + [x]);
    GenuineAt(w.logs, [x], 0);
    if x.offset < Next(w.db.watermarks, x.partition) {
      BelowIsSeen(w.logs, w.projected, x);
    }
    hide Accepted;
    hide Genuine;
    hide Gapless;
    hide Advance;
    hide Next;
    hide Orderly;
    hide StartsStay;
    if x.event.key in Keys(w.projected) {
      ProjectedKeys(c, w.projected);
      SeenIsSkipped(c, w.db.tables, x);
    } else {
      AppliedWasAccepted(c, w.logs, w.projected, x);
    }
  }

  lemma {:induction false} BelowIsSeen(logs: map<Partition, seq<Event>>, xs: seq<Consumed>, x: Consumed)
    requires Genuine(logs, xs) && Gapless(map[], xs) && x.offset < Next(Advance(map[], xs), x.partition)
    requires x.offset < |Log(logs, x.partition)| && x.event == Log(logs, x.partition)[x.offset]
    ensures x.event.key in Keys(xs)
  {
    BelowWatermark(logs, xs, x.partition, x.offset);
    var k :| 0 <= k < |xs| && xs[k] == x;
    KeyIn(xs, k);
  }

  lemma {:induction false} SeenIsSkipped(c: Config, t: Tables, x: Consumed)
    requires x.event.key in t.keys
    ensures ProjectAll(c, t, [x]) == Some(t)
  {
    assert [x][..0] == [] && ProjectAll(c, t, []) == Some(t);
    hide Apply;
  }

  lemma {:induction false} RoundResult(c: Config, batchSize: nat, w: World, i: nat, p: Partition)
    requires i < |w.workers| && CommittedOffset(w, p) < |Log(w.logs, p)|
    requires ProjectAll(c, w.db.tables, [Consumed(Log(w.logs, p)[CommittedOffset(w, p)], p, CommittedOffset(w, p))]).Some?
    ensures var w' := RunFrom(c, batchSize, w, Round(i, p));
      w'.logs == w.logs && |w'.workers| == |w.workers| && CommittedOffset(w', p) == CommittedOffset(w, p) + 1
  {
    RoundUnfolds(c, batchSize, w, i, p);
    hide RunFrom;
    hide Act;
    hide ProjectAll;
    var o := CommittedOffset(w, p);
    var x := Consumed(Log(w.logs, p)[o], p, o);
    var w1 := SetWorker(w, i, FRESH);
    CrashRestarts(c, batchSize, w, i);
    PollsOne(c, batchSize, w1, i, p);
    CommitsOne(c, batchSize, SetWorker(w1, i, Worker(map[p := o + 1], [x], Projecting)), i, x);
  }

  /** A round commits one more record of the partition, if that record is accepted. */
  lemma {:induction false} RoundCommitsOne(c: Config, batchSize: nat, w: World, i: nat, p: Partition)
    requires Inv(c, w) && Orderly(w.logs) && StartsStay(w.logs)
    requires i < |w.workers| && CommittedOffset(w, p) < |Log(w.logs, p)|
    requires Accepted(c, Log(w.logs, p), CommittedOffset(w, p))
    ensures var w' := RunFrom(c, batchSize, w, Round(i, p));
      && w'.logs == w.logs && |w'.workers| == |w.workers| && CommittedOffset(w', p) == CommittedOffset(w, p) + 1
      && Inv(c, w')
  {
    var o := CommittedOffset(w, p);
    var x := Consumed(Log(w.logs, p)[o], p, o);
    assert o <= Next(w.db.watermarks, p);
    assert Genuine(w.logs, [x]);
    hide *;
    RunFromKeeps(c, batchSize, w, Round(i, p));
    ProjectsOne(c, w, x);
    RoundResult(c, batchSize, w, i, p);
  }

  lemma {:induction false} RunFromKeeps(c: Config, batchSize: nat, w: World, run: seq<Action>)
    requires Inv(c, w)
    ensures Inv(c, RunFrom(c, batchSize, w, run))
  {
    hide Inv;
    hide Act;
    if run != [] {
      RunFromKeeps(c, batchSize, w, run[..|run| - 1]);
      ActKeeps(c, batchSize, RunFrom(c, batchSize, w, run[..|run| - 1]), run[|run| - 1]);
    }
  }

  lemma {:induction false} CommitsOne(c: Config, batchSize: nat, w: World, i: nat, x: Consumed)
    requires i < |w.workers| && w.workers[i].held == [x] && w.workers[i].phase == Projecting
    requires ProjectAll(c, w.db.tables, [x]).Some?
    ensures var w' := Act(c, batchSize, Act(c, batchSize, w, Project(i, false)), Commit(i));
      w'.logs == w.logs && |w'.workers| == |w.workers| && CommittedOffset(w', x.partition) == x.offset + 1
  {
    assert [x][..0] == [] && CommitOffsets([]) == map[];
    assert CommitOffsets([x]) == map[x.partition := x.offset + 1];
    hide ProjectAll;
    hide Advance;
    hide CommitOffsets;
  }

  lemma {:induction false} CatchUp(c: Config, batchSize: nat, w: World, i: nat, p: Partition) returns (more: seq<Action>)
    requires Inv(c, w) && Orderly(w.logs) && StartsStay(w.logs)
    requires i < |w.workers| && CommittedOffset(w, p) <= |Log(w.logs, p)|
    requires forall o :: CommittedOffset(w, p) <= o < |Log(w.logs, p)| ==> Accepted(c, Log(w.logs, p), o)
    ensures var w' := RunFrom(c, batchSize, w, more);
      w'.logs == w.logs && CommittedOffset(w', p) == |Log(w.logs, p)|
    decreases |Log(w.logs, p)| - CommittedOffset(w, p)
  {
    hide Inv;
    hide Orderly;
    hide StartsStay;
    hide Accepted;
    if CommittedOffset(w, p) == |Log(w.logs, p)| {
      more := [];
    } else {
      RoundCommitsOne(c, batchSize, w, i, p);
      hide Act;
      var w' := RunFrom(c, batchSize, w, Round(i, p));
      var rest := CatchUp(c, batchSize, w', i, p);
      RunsCompose(c, batchSize, w, Round(i, p), rest);
      more := Round(i, p) + rest;
    }
  }

  /** From every reachable world with a worker, a partition whose remaining records are accepted can be committed. */
  lemma {:induction false} AcceptedRecordsCanBeReached(
    c: Config, batchSize: nat, workers: nat, run: seq<Action>, i: nat, p: Partition) returns (more: seq<Action>)
    requires var w := Run(c, batchSize, workers, run);
      && Orderly(w.logs) && StartsStay(w.logs) && i < |w.workers|
      && forall o :: CommittedOffset(w, p) <= o < |Log(w.logs, p)| ==> Accepted(c, Log(w.logs, p), o)
    ensures var (w, w') := (Run(c, batchSize, workers, run), Run(c, batchSize, workers, run + more));
      w'.logs == w.logs && CommittedOffset(w', p) == Next(w'.db.watermarks, p) == |Log(w.logs, p)|
  {
    hide Act;
    hide Accepted;
    hide Orderly;
    hide StartsStay;
    hide Inv;
    var w := Run(c, batchSize, workers, run);
    RunKeepsInv(c, batchSize, workers, run);
    WatermarksAreSound(c, batchSize, workers, run, p, 0);
    more := CatchUp(c, batchSize, w, i, p);
    RunIsRunFrom(c, batchSize, workers, run);
    RunIsRunFrom(c, batchSize, workers, run + more);
    RunsCompose(c, batchSize, Initial(workers), run, more);
    WatermarksAreSound(c, batchSize, workers, run + more, p, 0);
  }

  /** Some continuation projects the partition to the end of the log it has now. */
  ghost predicate CanFinish(c: Config, batchSize: nat, workers: nat, run: seq<Action>, p: Partition) {
    exists more :: Finishes(c, batchSize, workers, run, more, p)
  }

  ghost predicate Finishes(c: Config, batchSize: nat, workers: nat, run: seq<Action>, more: seq<Action>, p: Partition) {
    var (w, w') := (Run(c, batchSize, workers, run), Run(c, batchSize, workers, run + more));
    w'.logs == w.logs && Next(w'.db.watermarks, p) == |Log(w.logs, p)|
  }

  /** Exactly which partitions can be finished, whatever the workers were in the middle of: those of accepted records. */
  lemma {:induction false} FinishedIffAccepted(c: Config, batchSize: nat, workers: nat, run: seq<Action>, p: Partition)
    requires var w := Run(c, batchSize, workers, run);
      Orderly(w.logs) && StartsStay(w.logs) && |w.workers| > 0
    ensures var w := Run(c, batchSize, workers, run);
      CanFinish(c, batchSize, workers, run, p) <==>
        forall o :: 0 <= o < |Log(w.logs, p)| ==> Accepted(c, Log(w.logs, p), o)
  {
    hide Run;
    hide Orderly;
    hide StartsStay;
    hide Accepted;
    var log := Log(Run(c, batchSize, workers, run).logs, p);
    if forall o :: 0 <= o < |log| ==> Accepted(c, log, o) {
      var more := AcceptedRecordsCanBeReached(c, batchSize, workers, run, 0, p);
      assert Finishes(c, batchSize, workers, run, more, p);
    } else if CanFinish(c, batchSize, workers, run, p) {
      var more :| Finishes(c, batchSize, workers, run, more, p);
      var o :| 0 <= o < |log| && !Accepted(c, log, o);
      RejectedRecordsBlock(c, batchSize, workers, run + more, p, o);
    }
  }

  // ---------------------------------------------------------- the default tenant

  /** The start event of a session without an agent: its tenant and assistant are names, not identifiers. */
  const DEFAULT_START :=
    Event(1, "call:session:call.started:1", "call", "session", "transport", 0.0,
          CallStarted(NotAUuid("local-demo-tenant"), NotAUuid("local-demo-assistant")))

  /** Published first, it stops its partition before the first record, whatever follows. */
  lemma {:induction false} DefaultTenantStopsThePartition(
    c: Config, batchSize: nat, workers: nat, more: seq<Action>, p: Partition)
    requires var w := Run(c, batchSize, workers, [Publish(p, DEFAULT_START)] + more);
      Orderly(w.logs) && StartsStay(w.logs)
    ensures var w := Run(c, batchSize, workers, [Publish(p, DEFAULT_START)] + more);
      Next(w.db.watermarks, p) == 0 && CommittedOffset(w, p) == 0
  {
    FirstRecordStays(c, batchSize, workers, more, p, DEFAULT_START);
    RejectedRecordsBlock(c, batchSize, workers, [Publish(p, DEFAULT_START)] + more, p, 0);
  }

  lemma {:induction false} FirstRecordStays(
    c: Config, batchSize: nat, workers: nat, more: seq<Action>, p: Partition, e: Event)
    ensures var log := Log(Run(c, batchSize, workers, [Publish(p, e)] + more).logs, p);
      |log| > 0 && log[0] == e
  {
    var run := [Publish(p, e)] + more;
    if more == [] {
      assert run[..0] == [] && run[0] == Publish(p, e);
    } else {
      assert run[..|run| - 1] == [Publish(p, e)] + more[..|more| - 1];
      FirstRecordStays(c, batchSize, workers, more[..|more| - 1], p, e);
      LogsGrow(c, batchSize, Run(c, batchSize, workers, run[..|run| - 1]), run[|run| - 1], p);
      hide Act;
    }
  }

  lemma {:induction false} LogsGrow(c: Config, batchSize: nat, w: World, a: Action, p: Partition)
    ensures Log(w.logs, p) <= Log(Act(c, batchSize, w, a).logs, p)
  {
    hide FetchAll;
    hide ProjectBatch;
    hide CommitOffsets;
  }
}
