/** At-least-once delivery, exactly-once effect: repeats, batch splits and aborts leave no trace in the tables. */
module ExactlyOnce {
  import opened Options
  import opened LedgerTables

  function Keys(xs: seq<Consumed>): set<string> {
    set k | 0 <= k < |xs| :: xs[k].event.key
  }

  /** The first delivery of every idempotency key, in order. */
  function Firsts(xs: seq<Consumed>): seq<Consumed> {
    if xs == [] then []
    else
      var front, last := xs[..|xs| - 1], xs[|xs| - 1];
      Firsts(front) + (if last.event.key in Keys(front) then [] else [last])
  }

  /** The plain effect of a sequence of events: no keys are looked at. */
  function ApplyAll(c: Config, t: Tables, xs: seq<Consumed>): Option<Tables> {
    if xs == [] then Some(t)
    else
      match ApplyAll(c, t, xs[..|xs| - 1])
      case None => None
      case Some(t') => Apply(c, t', xs[|xs| - 1])
  }

  // ------------------------------------------------------------- key facts

  /** Recording measurements touches the two row tables and the rollups only. */
  lemma {:induction false} RecordAllKeepsKeys(c: Config, t: Tables, e: Event, provider: string, model: string, ms: seq<Measurement>)
    ensures var r := RecordAll(c, t, e, provider, model, ms);
      r.Some? ==>
        r.value == t.(usage := r.value.usage, usageEvents := r.value.usageEvents, rollups := r.value.rollups)
  {
    if ms != [] {
      RecordAllKeepsKeys(c, t, e, provider, model, ms[..|ms| - 1]);
    }
  }

  /** A bill is recomputed from the rows, which it leaves alone. */
  lemma {:induction false} UpdateLeavesRows(c: Config, t: Tables, call: string, duration: Option<real>, finalized: bool)
    ensures UpdateCallBilling(c, t, call, duration, finalized)
      == t.(billing := UpdateCallBilling(c, t, call, duration, finalized).billing)
  {
    hide CostOf;
    hide Cost;
    hide BillingOf;
  }

  lemma {:induction false} EndLeavesRows(t: Tables, call: string, status: CallStatus, at: real)
    ensures var t' := EndCall(t, call, status, at); t' == t.(calls := t'.calls, times := t'.times)
    ensures var t' := FailCall(t, call, at); t' == t.(calls := t'.calls, times := t'.times)
  {
  }

  /** Which events change a bill, and on what tables they do. */
  lemma {:induction false} CallIs(c: Config, t: Tables, e: Event)
    ensures var t' := ProjectCall(c, t, e);
      match e.kind
      case CallEnded(duration) =>
        t' == if e.call !in t.calls || t.calls[e.call] == Failed then t
              else UpdateCallBilling(c, EndCall(t, e.call, Completed, e.at), e.call, Some(duration), true)
      case CallFailed => t' == UpdateCallBilling(c, FailCall(t, e.call, e.at), e.call, None, true)
      case _ => t'.billing == t.billing && t'.usage == t.usage
  {
    hide UpdateCallBilling;
    hide EndCall;
    hide FailCall;
    hide Stored;
  }

  /** Projecting the call's own row changes that row and its bill, and leaves every other table alone. */
  lemma {:induction false} CallLeavesRows(c: Config, t: Tables, e: Event)
    ensures var t' := ProjectCall(c, t, e);
      t' == t.(calls := t'.calls, times := t'.times, organizations := t'.organizations, agents := t'.agents,
               billing := t'.billing)
  {
    hide UpdateCallBilling;
    hide Stored;
    EndLeavesRows(t, e.call, Completed, e.at);
    hide EndCall;
    hide FailCall;
    match e.kind
    case CallEnded(duration) => UpdateLeavesRows(c, EndCall(t, e.call, Completed, e.at), e.call, Some(duration), true);
    case CallFailed =>
      UpdateLeavesRows(c, FailCall(t, e.call, e.at), e.call, None, true);
    case _ =>
  }

  lemma {:induction false} OpenedLeavesRows(c: Config, t: Tables, e: Event)
    ensures var t' := Opened(c, t, e);
      t' == t.(keys := t.keys + {e.key}, timeline := if e.id in t.timeline then t.timeline else t.timeline + [e.id],
               calls := t'.calls, times := t'.times, organizations := t'.organizations, agents := t'.agents,
               billing := t'.billing)
  {
    CallLeavesRows(c, InsertEvent(t.(keys := t.keys + {e.key}), e), e);
    hide ProjectCall;
  }

  lemma {:induction false} ApplyKeys(c: Config, t: Tables, x: Consumed)
    ensures Apply(c, t, x).Some? ==> Apply(c, t, x).value.keys == t.keys + {x.event.key}
  {
    var e, t0 := x.event, Opened(c, t, x.event);
    OpenedLeavesRows(c, t, e);
    hide Opened;
    hide Refused;
    hide RecordAll;
    if e.kind.UsageRecorded? {
      RecordAllKeepsKeys(c, t0, e, e.kind.provider, e.kind.model, e.kind.measurements);
    }
  }

  lemma {:induction false} KeysAppend(xs: seq<Consumed>, ys: seq<Consumed>)
    ensures Keys(xs + ys) == Keys(xs) + Keys(ys)
  {
    assert forall k :: 0 <= k < |xs| ==> (xs + ys)[k] == xs[k];
    assert forall k :: 0 <= k < |ys| ==> (xs + ys)[|xs| + k] == ys[k];
  }

  lemma {:induction false} ProjectedKeys(c: Config, xs: seq<Consumed>)
    ensures ProjectAll(c, NoRows(), xs).Some? ==> ProjectAll(c, NoRows(), xs).value.keys == Keys(xs)
  {
    hide Apply;
    if xs != [] {
      var front, last := xs[..|xs| - 1], xs[|xs| - 1];
      ProjectedKeys(c, front);
      KeysAppend(front, [last]);
      assert xs == front + [last];
      var r := ProjectAll(c, NoRows(), front);
      if r.Some? {
        ApplyKeys(c, r.value, last);
      }
    }
  }

  // ----------------------------------------------------------- exactly once

  /**
   * Projecting any deliveries into an empty ledger has exactly the effect of the first delivery of each key,
   * and aborts exactly when that would.
   */
  lemma {:induction false} RepeatsLeaveNoTrace(c: Config, xs: seq<Consumed>)
    ensures ProjectAll(c, NoRows(), xs) == ApplyAll(c, NoRows(), Firsts(xs))
  {
    hide Apply;
    if xs != [] {
      var front, last := xs[..|xs| - 1], xs[|xs| - 1];
      RepeatsLeaveNoTrace(c, front);
      ProjectedKeys(c, front);
      if last.event.key in Keys(front) {
        assert Firsts(xs) == Firsts(front);
      } else {
        assert Firsts(xs)[..|Firsts(xs)| - 1] == Firsts(front);
      }
    }
  }

  lemma {:induction false} ProjectConcat(c: Config, t: Tables, xs: seq<Consumed>, ys: seq<Consumed>)
    ensures ProjectAll(c, t, xs + ys) ==
      match ProjectAll(c, t, xs) case None => None case Some(t') => ProjectAll(c, t', ys)
  {
    hide ProjectOne;
    if ys == [] {
      assert xs + ys == xs;
    } else {
      assert (xs + ys)[..|xs + ys| - 1] == xs + ys[..|ys| - 1];
      ProjectConcat(c, t, xs, ys[..|ys| - 1]);
    }
  }

  lemma {:induction false} AdvanceConcat(w: Watermarks, xs: seq<Consumed>, ys: seq<Consumed>)
    ensures Advance(w, xs + ys) == Advance(Advance(w, xs), ys)
  {
    if ys == [] {
      assert xs + ys == xs;
    } else {
      assert (xs + ys)[..|xs + ys| - 1] == xs + ys[..|ys| - 1];
      AdvanceConcat(w, xs, ys[..|ys| - 1]);
    }
  }

  /** The tables after a run of transactions; one that aborts changes nothing. */
  function Transactions(c: Config, t: Tables, batches: seq<seq<Consumed>>): Tables {
    if batches == [] then t
    else
      var t' := Transactions(c, t, batches[..|batches| - 1]);
      match ProjectAll(c, t', batches[|batches| - 1])
      case None => t'
      case Some(t'') => t''
  }

  /** The batches that committed. */
  function Committed(c: Config, t: Tables, batches: seq<seq<Consumed>>): seq<Consumed> {
    if batches == [] then []
    else
      var front, last := batches[..|batches| - 1], batches[|batches| - 1];
      Committed(c, t, front) + (if ProjectAll(c, Transactions(c, t, front), last).None? then [] else last)
  }

  lemma {:induction false} TransactionsAreOneProjection(c: Config, batches: seq<seq<Consumed>>)
    ensures ProjectAll(c, NoRows(), Committed(c, NoRows(), batches)) == Some(Transactions(c, NoRows(), batches))
  {
    hide ProjectOne;
    if batches != [] {
      var front, last := batches[..|batches| - 1], batches[|batches| - 1];
      TransactionsAreOneProjection(c, front);
      ProjectConcat(c, NoRows(), Committed(c, NoRows(), front), last);
      assert Committed(c, NoRows(), front) + [] == Committed(c, NoRows(), front);
    }
  }

  /**
   * However deliveries are repeated, split into batches and rolled back, the tables are what one pass over
   * the first committed delivery of each key makes of an empty ledger.
   */
  lemma {:induction false} TablesAreTheFirsts(c: Config, batches: seq<seq<Consumed>>)
    ensures ApplyAll(c, NoRows(), Firsts(Committed(c, NoRows(), batches))) == Some(Transactions(c, NoRows(), batches))
  {
    TransactionsAreOneProjection(c, batches);
    RepeatsLeaveNoTrace(c, Committed(c, NoRows(), batches));
  }

  // -------------------------------------------------- algebra of first deliveries

  lemma {:induction false} FirstsKeys(xs: seq<Consumed>)
    ensures Keys(Firsts(xs)) == Keys(xs)
  {
    if xs != [] {
      var front, last := xs[..|xs| - 1], xs[|xs| - 1];
      FirstsKeys(front);
      KeysAppend(front, [last]);
      KeysAppend(Firsts(front), [last]);
      assert xs == front + [last];
      assert Firsts(front) + [] == Firsts(front);
    }
  }

  /** Firsts are distinct in their keys. */
  lemma {:induction false} FirstsAreDistinct(xs: seq<Consumed>)
    ensures forall j, k :: 0 <= j < k < |Firsts(xs)| ==> Firsts(xs)[j].event.key != Firsts(xs)[k].event.key
  {
    if xs != [] {
      var front, last := xs[..|xs| - 1], xs[|xs| - 1];
      FirstsAreDistinct(front);
      FirstsKeys(front);
      assert forall k :: 0 <= k < |Firsts(front)| ==> Firsts(front)[k].event.key in Keys(Firsts(front));
    }
  }
}
