/** The projector: loops over a batch that update the ledger in one transaction, and what it reports about it. */
module Projector {
  import opened Options
  import opened LedgerTables
  import opened ExactlyOnce

  /** What a batch did, for the work that follows it. */
  datatype BatchResult = BatchResult(
    inserted: seq<Consumed>, duplicates: seq<Consumed>, callEnded: seq<Consumed>,
    usageCalls: set<string>, lateUsage: seq<Consumed>)

  const NOTHING := BatchResult([], [], [], {}, [])

  // ---------------------------------------------------------- what is reported

  /** The deliveries of a batch whose key is new, after `seen`. */
  function Inserted(seen: set<string>, xs: seq<Consumed>): seq<Consumed> {
    if xs == [] then []
    else
      var front, x := xs[..|xs| - 1], xs[|xs| - 1];
      Inserted(seen, front) + (if x.event.key in seen + Keys(front) then [] else [x])
  }

  function Duplicates(seen: set<string>, xs: seq<Consumed>): seq<Consumed> {
    if xs == [] then []
    else
      var front, x := xs[..|xs| - 1], xs[|xs| - 1];
      Duplicates(seen, front) + (if x.event.key in seen + Keys(front) then [x] else [])
  }

  function CallEnds(xs: seq<Consumed>): seq<Consumed> {
    if xs == [] then []
    else CallEnds(xs[..|xs| - 1]) + (if xs[|xs| - 1].event.kind.CallEnded? then [xs[|xs| - 1]] else [])
  }

  predicate IsUsage(e: Event) {
    e.kind.UsageRecorded? || e.kind.FinalizationBarrier?
  }

  function UsageCalls(xs: seq<Consumed>): set<string> {
    set k | 0 <= k < |xs| && IsUsage(xs[k].event) :: xs[k].event.call
  }

  /** Usage, other than a barrier, of a call that has a final record. */
  function Late(finals: set<string>, xs: seq<Consumed>): seq<Consumed> {
    if xs == [] then []
    else
      var x := xs[|xs| - 1];
      Late(finals, xs[..|xs| - 1])
        + (if x.event.kind.UsageRecorded? && x.event.call in finals then [x] else [])
  }

  /** What a whole batch reports. */
  function Report(seen: set<string>, finals: set<string>, xs: seq<Consumed>): BatchResult {
    var inserted := Inserted(seen, xs);
    BatchResult(inserted, Duplicates(seen, xs), CallEnds(inserted), UsageCalls(inserted), Late(finals, inserted))
  }

  /** Over any history of batches, what is reported inserted is exactly the first delivery of each key. */
  lemma {:induction false} InsertedAreTheFirsts(history: seq<Consumed>, xs: seq<Consumed>)
    ensures Firsts(history + xs) == Firsts(history) + Inserted(Keys(history), xs)
  {
    if xs == [] {
      assert history + xs == history;
      assert Firsts(history) + [] == Firsts(history);
    } else {
      var front, x := xs[..|xs| - 1], xs[|xs| - 1];
      assert (history + xs)[..|history + xs| - 1] == history + front;
      InsertedAreTheFirsts(history, front);
      KeysAppend(history, front);
    }
  }

  lemma {:induction false} ReportedSnoc(seen: set<string>, xs: seq<Consumed>, x: Consumed)
    ensures var isNew := x.event.key !in seen + Keys(xs);
      && Inserted(seen, xs + [x]) == (if isNew then Inserted(seen, xs) + [x] else Inserted(seen, xs))
      && Duplicates(seen, xs + [x]) == (if isNew then Duplicates(seen, xs) else Duplicates(seen, xs) + [x])
  {
    assert (xs + [x])[..|xs|] == xs;
    hide Keys;
    assert Inserted(seen, xs) + [] == Inserted(seen, xs) && Duplicates(seen, xs) + [] == Duplicates(seen, xs);
  }

  lemma {:induction false} OneMoreIsReported(seen: set<string>, xs: seq<Consumed>, x: Consumed)
    requires multiset(Inserted(seen, xs)) + multiset(Duplicates(seen, xs)) == multiset(xs)
    ensures multiset(Inserted(seen, xs + [x])) + multiset(Duplicates(seen, xs + [x])) == multiset(xs + [x])
  {
    hide *;
    ReportedSnoc(seen, xs, x);
    Deal(Inserted(seen, xs), Duplicates(seen, xs), xs, x);
  }

  /** Each delivery of a batch is reported once, as inserted or as a duplicate. */
  lemma {:induction false} EachIsReportedOnce(seen: set<string>, xs: seq<Consumed>)
    ensures multiset(Inserted(seen, xs)) + multiset(Duplicates(seen, xs)) == multiset(xs)
  {
    if xs != [] {
      hide *;
      var front, x := xs[..|xs| - 1], xs[|xs| - 1];
      assert xs == front + [x];
      EachIsReportedOnce(seen, front);
      OneMoreIsReported(seen, front, x);
    }
  }

  lemma {:induction false} Deal<T>(xs: seq<T>, ys: seq<T>, all: seq<T>, x: T)
    requires multiset(xs) + multiset(ys) == multiset(all)
    ensures multiset(xs + [x]) + multiset(ys) == multiset(xs) + multiset(ys + [x]) == multiset(all + [x])
  {
  }

  /** A late event is a newly inserted usage event of a finalized call, and none of them is missed. */
  lemma {:induction false} LateIsExact(finals: set<string>, xs: seq<Consumed>, x: Consumed)
    ensures x in Late(finals, xs) <==> x in xs && x.event.kind.UsageRecorded? && x.event.call in finals
  {
    if xs != [] {
      LateIsExact(finals, xs[..|xs| - 1], x);
      assert xs == xs[..|xs| - 1] + [xs[|xs| - 1]];
    }
  }

  /** A finalization is started for every newly inserted end of a call, and for nothing else. */
  lemma {:induction false} EndsAreExact(xs: seq<Consumed>, x: Consumed)
    ensures x in CallEnds(xs) <==> x in xs && x.event.kind.CallEnded?
  {
    if xs != [] {
      EndsAreExact(xs[..|xs| - 1], x);
      assert xs == xs[..|xs| - 1] + [xs[|xs| - 1]];
    }
  }

  /** A call's readiness is looked at again exactly if the batch brought it new usage or a barrier. */
  lemma {:induction false} UsageCallsAreExact(seen: set<string>, finals: set<string>, xs: seq<Consumed>, call: string)
    ensures call in Report(seen, finals, xs).usageCalls <==>
      exists x :: x in Inserted(seen, xs) && x.event.call == call
        && (x.event.kind.UsageRecorded? || x.event.kind.FinalizationBarrier?)
  {
    var inserted := Inserted(seen, xs);
    hide Inserted;
    if call in UsageCalls(inserted) {
      var k :| 0 <= k < |inserted| && IsUsage(inserted[k].event) && inserted[k].event.call == call;
      assert inserted[k] in inserted;
    }
  }

  // --------------------------------------------------------------- watermarks

  /** An upsert keeps the greater offset. */
  function Greatest(w: Watermarks, batch: Watermarks, p: Partition): nat
    requires p in w || p in batch
  {
    if p !in batch then w[p] else if p !in w then batch[p] else MaxNat(w[p], batch[p])
  }

  lemma {:induction false} AdvanceMerges(w: Watermarks, xs: seq<Consumed>)
    ensures var (all, batch) := (Advance(w, xs), Advance(map[], xs));
      && all.Keys == w.Keys + batch.Keys
      && forall p :: p in all ==> all[p] == Greatest(w, batch, p)
  {
    if xs != [] {
      AdvanceMerges(w, xs[..|xs| - 1]);
    }
  }

  class EventProjector {
    const config: Config
    var database: Database
    /** The deliveries of every transaction that committed. */
    ghost var history: seq<Consumed>

    ghost predicate Valid()
      reads this
    {
      && ProjectAll(config, NoRows(), history) == Some(database.tables)
      && database.watermarks == Advance(map[], history)
    }

    constructor (config: Config)
      ensures Valid() && history == [] && this.config == config
    {
      this.config := config;
      database := Database(NoRows(), map[]);
      history := [];
    }

    /** The measurement loop; a type without a price abandons the transaction. */
    method RecordMeasurements(t: Tables, e: Event, provider: string, model: string, ms: seq<Measurement>)
      returns (r: Option<Tables>)
      ensures r == RecordAll(config, t, e, provider, model, ms)
    {
      var tables := t;
      hide RecordMeasurement;
      for k := 0 to |ms|
        invariant RecordAll(config, t, e, provider, model, ms[..k]) == Some(tables)
        invariant forall j :: 0 <= j < k ==> (provider, model, ms[j].usageType) in config.prices
      {
        var key := (provider, model, ms[k].usageType);
        assert ms[..k + 1][..k] == ms[..k];
        if key !in config.prices {
          Unpriced(config, t, e, provider, model, ms, k);
          return None;
        }
        tables := RecordMeasurement(tables, e, ms[k], config.prices[key]);
      }
      assert ms[..|ms|] == ms;
      return Some(tables);
    }

    /** The two loops over a barrier's expected turns. */
    method CollectExpectations(call: string, expected: seq<ExpectedTurn>) returns (rows: set<(string, string, string)>)
      ensures rows == Expectations(call, expected)
    {
      rows := {};
      for k := 0 to |expected|
        invariant rows == Expectations(call, expected[..k])
      {
        var turn := expected[k];
        if turn.turn != [] {
          for j := 0 to |turn.usage|
            invariant rows == Expectations(call, expected[..k]) + OfTurn(call, turn, j)
          {
            rows := rows + {(call, turn.turn, turn.usage[j])};
            OfTurnGrows(call, turn, j);
          }
        }
        ExpectationsGrow(call, expected, k);
      }
      assert expected[..|expected|] == expected;
    }

    /** One event inside the transaction; None abandons it. */
    method ProjectInto(t: Tables, x: Consumed) returns (inserted: bool, r: Option<Tables>)
      ensures r == ProjectOne(config, t, x)
      ensures inserted == (x.event.key !in t.keys)
    {
      var e := x.event;
      if e.key in t.keys {
        return false, Some(t);
      }
      inserted := true;
      if Refused(config, t, e) {
        return true, None;
      }
      var t1 := Opened(config, t, e);
      match e.kind
      case UsageRecorded(provider, model, ms) =>
        var recorded := RecordMeasurements(t1, e, provider, model, ms);
        match recorded {
          case None => r := None;
          case Some(t2) =>
            r := Some(EnqueueBilling(UpdateCallBilling(config, t2, e.call, None, false), e));
        }
      case FinalizationBarrier(expected) =>
        var rows := CollectExpectations(e.call, expected);
        r := Some(t1.(manifests := t1.manifests[e.call := Manifest(e.id, x.partition, x.offset)],
                      expectations := t1.expectations + rows));
      case _ =>
        r := Some(t1);
    }

    /** The highest offset of each partition of the batch. */
    method HighestOffsets(xs: seq<Consumed>) returns (batch: Watermarks)
      ensures batch == Advance(map[], xs)
    {
      batch := map[];
      for k := 0 to |xs|
        invariant batch == Advance(map[], xs[..k])
      {
        assert xs[..k + 1][..k] == xs[..k];
        var p := xs[k].partition;
        batch := batch[p := if p in batch then MaxNat(batch[p], xs[k].offset) else xs[k].offset];
      }
      assert xs[..|xs|] == xs;
    }

    /** One upsert for each partition of the batch. */
    method UpsertWatermarks(w: Watermarks, batch: Watermarks) returns (r: Watermarks)
      ensures r.Keys == w.Keys + batch.Keys
      ensures forall p :: p in r ==> r[p] == Greatest(w, batch, p)
    {
      r := w;
      var left := batch.Keys;
      while left != {}
        invariant left <= batch.Keys
        invariant forall p :: p in r <==> p in w || (p in batch && p !in left)
        invariant forall p :: p in r && p in left ==> r[p] == w[p]
        invariant forall p :: p in r && p !in left ==> r[p] == Greatest(w, batch, p)
        decreases left
      {
        var p :| p in left;
        r := r[p := if p in r then MaxNat(r[p], batch[p]) else batch[p]];
        left := left - {p};
      }
    }

    /** Files one delivery under what it did. */
    method Tally(r: BatchResult, x: Consumed, inserted: bool, finals: set<string>) returns (r': BatchResult)
      ensures r' == if inserted then WithInserted(r, x, finals) else r.(duplicates := r.duplicates + [x])
    {
      r' := r;
      if inserted {
        r' := r'.(inserted := r'.inserted + [x]);
        if x.event.kind.CallEnded? {
          r' := r'.(callEnded := r'.callEnded + [x]);
        }
        if IsUsage(x.event) {
          r' := r'.(usageCalls := r'.usageCalls + {x.event.call});
          if !x.event.kind.FinalizationBarrier? && x.event.call in finals {
            r' := r'.(lateUsage := r'.lateUsage + [x]);
          }
        }
      } else {
        r' := r'.(duplicates := r'.duplicates + [x]);
      }
    }

    /** One transaction over the batch: every event and the watermarks, or nothing at all. */
    method ProjectBatch(items: seq<Consumed>, finals: set<string>) returns (result: Option<BatchResult>)
      requires Valid()
      modifies this
      ensures Valid()
      ensures match LedgerTables.ProjectBatch(config, old(database), items)
        case None => result == None && database == old(database) && history == old(history)
        case Some(db) => (
          && database == db && history == old(history) + items
          && result == Some(Report(old(database.tables.keys), finals, items)))
    {
      var tables, r, seen := database.tables, NOTHING, database.tables.keys;
      hide ProjectOne;
      hide ProjectAll;
      hide Advance;
      hide Keys;
      hide Report;
      hide WithInserted;
      Empty(config, tables, finals);
      for k := 0 to |items|
        invariant ProjectAll(config, database.tables, items[..k]) == Some(tables)
        invariant tables.keys == seen + Keys(items[..k])
        invariant r == Report(seen, finals, items[..k])
        invariant unchanged(this)
      {
        var x := items[k];
        assert items[..k + 1] == items[..k] + [x];
        KeyOfOne(config, tables, x);
        KeysSnoc(items[..k], x);
        ReportGrows(seen, finals, items[..k], x);
        ProjectSnoc(config, database.tables, items[..k], x);
        var inserted, next := ProjectInto(tables, x);
        if next.None? {
          Abandoned(config, database.tables, items, k);
          return None;
        }
        tables := next.value;
        r := Tally(r, x, inserted, finals);
      }
      assert items[..|items|] == items;
      ProjectConcat(config, NoRows(), history, items);
      AdvanceConcat(map[], history, items);
      AdvanceMerges(database.watermarks, items);
      var batch := HighestOffsets(items);
      var watermarks := UpsertWatermarks(database.watermarks, batch);
      assert watermarks == Advance(database.watermarks, items);
      database := Database(tables, watermarks);
      history := history + items;
      return Some(r);
    }
  }

  // ------------------------------------------------------------- loop lemmas

  /** A missing price anywhere abandons the whole event. */
  lemma {:induction false} Unpriced(
    c: Config, t: Tables, e: Event, provider: string, model: string, ms: seq<Measurement>, k: nat)
    requires k < |ms| && (provider, model, ms[k].usageType) !in c.prices
    ensures RecordAll(c, t, e, provider, model, ms) == None
  {
    hide RecordMeasurement;
    if k < |ms| - 1 {
      Unpriced(c, t, e, provider, model, ms[..|ms| - 1], k);
    }
  }

  function OfTurn(call: string, turn: ExpectedTurn, j: nat): set<(string, string, string)>
    requires j <= |turn.usage|
  {
    set i | 0 <= i < j :: (call, turn.turn, turn.usage[i])
  }

  lemma {:induction false} OfTurnGrows(call: string, turn: ExpectedTurn, j: nat)
    requires j < |turn.usage|
    ensures OfTurn(call, turn, j + 1) == OfTurn(call, turn, j) + {(call, turn.turn, turn.usage[j])}
  {
  }

  lemma {:induction false} ExpectationsGrow(call: string, expected: seq<ExpectedTurn>, k: nat)
    requires k < |expected|
    ensures Expectations(call, expected[..k + 1]) ==
      Expectations(call, expected[..k])
        + (if expected[k].turn != [] then OfTurn(call, expected[k], |expected[k].usage|) else {})
  {
    var more := expected[..k + 1];
    assert forall i :: 0 <= i < k ==> more[i] == expected[..k][i];
    assert more[k] == expected[k];
  }

  lemma {:induction false} KeyOfOne(c: Config, t: Tables, x: Consumed)
    ensures var r := ProjectOne(c, t, x); r.Some? ==> r.value.keys == t.keys + {x.event.key}
  {
    hide Apply;
    if x.event.key !in t.keys {
      ApplyKeys(c, t, x);
    }
  }

  function WithInserted(r: BatchResult, x: Consumed, finals: set<string>): BatchResult {
    BatchResult(r.inserted + [x], r.duplicates,
                r.callEnded + (if x.event.kind.CallEnded? then [x] else []),
                r.usageCalls + (if IsUsage(x.event) then {x.event.call} else {}),
                r.lateUsage + (if x.event.kind.UsageRecorded? && x.event.call in finals then [x] else []))
  }

  lemma {:induction false} KeysSnoc(xs: seq<Consumed>, x: Consumed)
    ensures Keys(xs + [x]) == Keys(xs) + {x.event.key}
  {
    KeysAppend(xs, [x]);
    assert Keys([x]) == {[x][0].event.key};
  }

  lemma {:induction false} Empty(c: Config, t: Tables, finals: set<string>)
    ensures ProjectAll(c, t, []) == Some(t) && Keys([]) == {} && Report(t.keys, finals, []) == NOTHING
  {
  }

  lemma {:induction false} ProjectSnoc(c: Config, t: Tables, xs: seq<Consumed>, x: Consumed)
    requires ProjectAll(c, t, xs).Some?
    ensures ProjectAll(c, t, xs + [x]) == ProjectOne(c, ProjectAll(c, t, xs).value, x)
  {
    hide ProjectOne;
    assert (xs + [x])[..|xs|] == xs;
  }

  /** One more delivery is reported where it belongs. */
  lemma {:induction false} ReportGrows(seen: set<string>, finals: set<string>, xs: seq<Consumed>, x: Consumed)
    ensures var r := Report(seen, finals, xs);
      Report(seen, finals, xs + [x]) ==
        if x.event.key !in seen + Keys(xs) then WithInserted(r, x, finals) else r.(duplicates := r.duplicates + [x])
  {
    assert (xs + [x])[..|xs|] == xs;
    var inserted := Inserted(seen, xs);
    hide Keys;
    if x.event.key !in seen + Keys(xs) {
      assert (inserted + [x])[..|inserted|] == inserted;
      UsageCallsGrow(inserted, x);
      hide UsageCalls;
    } else {
      assert inserted + [] == inserted;
    }
  }

  lemma {:induction false} UsageCallsGrow(xs: seq<Consumed>, x: Consumed)
    ensures UsageCalls(xs + [x]) == UsageCalls(xs) + (if IsUsage(x.event) then {x.event.call} else {})
  {
    assert forall k :: 0 <= k < |xs| ==> (xs + [x])[k] == xs[k];
    assert (xs + [x])[|xs|] == x;
  }

  lemma {:induction false} Abandoned(c: Config, t: Tables, xs: seq<Consumed>, k: nat)
    requires k < |xs| && ProjectAll(c, t, xs[..k]).Some?
    requires ProjectOne(c, ProjectAll(c, t, xs[..k]).value, xs[k]) == None
    ensures ProjectAll(c, t, xs) == None
  {
    hide ProjectOne;
    if k < |xs| - 1 {
      assert xs[..|xs| - 1][..k] == xs[..k];
      Abandoned(c, t, xs[..|xs| - 1], k);
    }
  }
}
