/** What the ledger announces: one message for each usage event, with the bill of its call as it then was. */
module LedgerOutbox {
  import opened Options
  import opened LedgerTables
  import opened ExactlyOnce
  import opened LedgerSums
  import opened CallLaws

  /** A usage event adds one message, with the bill it leaves; no other event adds any. */
  lemma {:induction false} AnnouncesTheBill(c: Config, t: Tables, x: Consumed)
    requires Apply(c, t, x).Some? && forall k :: 0 <= k < |t.outbox| ==> t.outbox[k].source != x.event.id
    ensures var (e, t') := (x.event, Apply(c, t, x).value);
      t'.outbox == t.outbox + if e.kind.UsageRecorded? then [OutboxRow(e.id, e.call, BillingOf(t', e.call))] else []
    ensures var (e, t') := (x.event, Apply(c, t, x).value);
      e.kind.UsageRecorded? ==> e.call in t'.billing
  {
    var e, t1 := x.event, Opened(c, t, x.event);
    OpenedLeavesRows(c, t, e);
    hide Opened;
    hide Refused;
    if e.kind.UsageRecorded? {
      RecordAllKeepsKeys(c, t1, e, e.kind.provider, e.kind.model, e.kind.measurements);
      var recorded := RecordAll(c, t1, e, e.kind.provider, e.kind.model, e.kind.measurements).value;
      UpdateLeavesRows(c, recorded, e.call, None, false);
      UpdateBills(c, recorded, e.call);
      EnqueuesOne(UpdateCallBilling(c, recorded, e.call, None, false), e);
      hide UpdateCallBilling;
      hide EnqueueBilling;
      hide RecordAll;
    }
  }

  lemma {:induction false} UpdateBills(c: Config, t: Tables, call: string)
    ensures call in UpdateCallBilling(c, t, call, None, false).billing
  {
    hide CostOf;
  }

  lemma {:induction false} EnqueuesOne(t: Tables, e: Event)
    requires forall k :: 0 <= k < |t.outbox| ==> t.outbox[k].source != e.id
    ensures EnqueueBilling(t, e) == t.(outbox := t.outbox + [OutboxRow(e.id, e.call, BillingOf(t, e.call))])
    ensures BillingOf(EnqueueBilling(t, e), e.call) == BillingOf(t, e.call)
  {
  }

  /**
   * The message of the last of these events: its call's bill over all of them, which is what their usage cost, and the
   * duration, the fee and the finalization that the call's own events give it.
   */
  ghost predicate IsAnnounced(c: Config, xs: seq<Consumed>, row: OutboxRow)
    requires xs != []
  {
    var e, b := xs[|xs| - 1].event, row.billing;
    var v := Fold(c, OfCall(xs, e.call));
    && row.source == e.id && row.call == e.call
    && b.providerCost == CostOf(AllUsage(c, xs), e.call) && b.total == b.platformFee + b.providerCost
    && b.duration == v.duration && b.platformFee == v.fee && b.finalized == v.finalized
  }

  /** One message for each usage event, in order. */
  ghost predicate Announces(c: Config, xs: seq<Consumed>, outbox: seq<OutboxRow>) {
    if xs == [] then outbox == []
    else if !xs[|xs| - 1].event.kind.UsageRecorded? then Announces(c, xs[..|xs| - 1], outbox)
    else
      && outbox != [] && Announces(c, xs[..|xs| - 1], outbox[..|outbox| - 1])
      && IsAnnounced(c, xs, outbox[|outbox| - 1])
  }

  lemma {:induction false} EveryApplyBalances(c: Config, xs: seq<Consumed>)
    requires ApplyAll(c, NoRows(), xs).Some?
    ensures Balanced(ApplyAll(c, NoRows(), xs).value)
  {
    if xs != [] {
      hide Apply;
      hide Balanced;
      EveryApplyBalances(c, xs[..|xs| - 1]);
      ApplyBalances(c, ApplyAll(c, NoRows(), xs[..|xs| - 1]).value, xs[|xs| - 1]);
    } else {
      assert Balanced(NoRows());
    }
  }

  lemma {:induction false} BillIsAnnounced(c: Config, t: Tables, xs: seq<Consumed>, row: OutboxRow)
    requires xs != [] && Balanced(t) && t.usage == AllUsage(c, xs)
    requires var e := xs[|xs| - 1].event;
      && ViewOf(t, e.call) == Fold(c, OfCall(xs, e.call)) && e.call in t.billing
      && row == OutboxRow(e.id, e.call, BillingOf(t, e.call))
    ensures IsAnnounced(c, xs, row)
  {
    hide CostOf;
    hide AllUsage;
    hide Fold;
    hide OfCall;
  }

  lemma {:induction false} AnnouncesSnoc(c: Config, xs: seq<Consumed>, x: Consumed, outbox: seq<OutboxRow>, more: seq<OutboxRow>)
    requires Announces(c, xs, outbox)
    requires if x.event.kind.UsageRecorded? then |more| == 1 && IsAnnounced(c, xs + [x], more[0]) else more == []
    ensures Announces(c, xs + [x], outbox + more)
  {
    assert (xs + [x])[..|xs|] == xs;
    assert |more| == 1 ==> (outbox + more)[..|outbox|] == outbox;
    assert outbox + [] == outbox;
    hide IsAnnounced;
  }

  lemma {:induction false} OneMoreIsAnnounced(c: Config, t: Tables, xs: seq<Consumed>, x: Consumed)
    requires WellFormed(xs + [x]) && Holds(c, t, xs) && Announces(c, xs, t.outbox) && Apply(c, t, x).Some?
    requires var t' := Apply(c, t, x).value;
      && Holds(c, t', xs + [x]) && Balanced(t')
      && ViewOf(t', x.event.call) == Fold(c, OfCall(xs + [x], x.event.call))
    ensures Announces(c, xs + [x], Apply(c, t, x).value.outbox)
  {
    hide *;
    var t' := Apply(c, t, x).value;
    NewEventIsUnannounced(c, t, xs, x);
    AnnouncesTheBill(c, t, x);
    if x.event.kind.UsageRecorded? {
      HoldsUsage(c, t', xs + [x]);
      var row := OutboxRow(x.event.id, x.event.call, BillingOf(t', x.event.call));
      BillIsAnnounced(c, t', xs + [x], row);
      AnnouncesSnoc(c, xs, x, t.outbox, [row]);
    } else {
      AnnouncesSnoc(c, xs, x, t.outbox, []);
    }
  }

  /** Over well-formed events: what is announced is exactly that. */
  lemma {:induction false} EventsAreAnnounced(c: Config, xs: seq<Consumed>)
    requires WellFormed(xs) && ApplyAll(c, NoRows(), xs).Some?
    ensures Announces(c, xs, ApplyAll(c, NoRows(), xs).value.outbox)
  {
    hide Apply;
    hide WellFormed;
    hide Holds;
    hide Balanced;
    hide ViewOf;
    hide Fold;
    if xs != [] {
      var front, x := xs[..|xs| - 1], xs[|xs| - 1];
      assert xs == front + [x];
      FrontIsWellFormed(front, x);
      hide Announces;
      EventsAreAnnounced(c, front);
      RowsAreTheEvents(c, front);
      RowsAreTheEvents(c, xs);
      EveryApplyBalances(c, xs);
      ACallIsItsOwnEvents(c, xs, x.event.call);
      OneMoreIsAnnounced(c, ApplyAll(c, NoRows(), front).value, front, x);
    }
  }

  lemma {:induction false} FrontIsWellFormed(xs: seq<Consumed>, x: Consumed)
    requires WellFormed(xs + [x])
    ensures WellFormed(xs)
  {
    assert forall k :: 0 <= k < |xs| ==> (xs + [x])[k] == xs[k];
    hide DistinctTypes;
  }

  lemma {:induction false} HoldsUsage(c: Config, t: Tables, xs: seq<Consumed>)
    requires Holds(c, t, xs)
    ensures t.usage == AllUsage(c, xs)
  {
    hide RollupsAddUp;
  }

  lemma {:induction false} NewEventIsUnannounced(c: Config, t: Tables, xs: seq<Consumed>, x: Consumed)
    requires WellFormed(xs + [x]) && Holds(c, t, xs)
    ensures forall k :: 0 <= k < |t.outbox| ==> t.outbox[k].source != x.event.id
  {
    NewEventIsUnseen(c, t, xs, x);
    assert forall k :: 0 <= k < |t.outbox| ==> Sources(t.outbox)[k] == t.outbox[k].source;
    hide RollupsAddUp;
    hide WellFormed;
  }

  /** Whatever was delivered, repeated and rolled back, the messages are those of the first delivery of each key. */
  lemma {:induction false} TheFirstsAreAnnounced(c: Config, batches: seq<seq<Consumed>>)
    requires WellFormed(Firsts(Committed(c, NoRows(), batches)))
    ensures Announces(c, Firsts(Committed(c, NoRows(), batches)), Transactions(c, NoRows(), batches).outbox)
  {
    TablesAreTheFirsts(c, batches);
    EventsAreAnnounced(c, Firsts(Committed(c, NoRows(), batches)));
    hide Announces;
    hide WellFormed;
  }

  // ------------------------------------------------------------ once, whatever comes

  /** No event is announced, or entered in the timeline, twice. */
  ghost predicate OnceEach(t: Tables) {
    && (forall j, k :: 0 <= j < k < |t.outbox| ==> t.outbox[j].source != t.outbox[k].source)
    && (forall j, k :: 0 <= j < k < |t.timeline| ==> t.timeline[j] != t.timeline[k])
  }

  lemma {:induction false} InsertsOnce(t: Tables, e: Event)
    requires OnceEach(t)
    ensures OnceEach(InsertEvent(t, e)) && e.id in InsertEvent(t, e).timeline
  {
  }

  lemma {:induction false} EnqueuesOnce(t: Tables, e: Event)
    requires OnceEach(t)
    ensures OnceEach(EnqueueBilling(t, e))
    ensures exists k :: 0 <= k < |EnqueueBilling(t, e).outbox| && EnqueueBilling(t, e).outbox[k].source == e.id
  {
    var t' := EnqueueBilling(t, e);
    if t' != t {
      assert t'.outbox[|t.outbox|].source == e.id;
    }
    hide BillingOf;
  }

  lemma {:induction false} OnceFrame(t: Tables, t': Tables)
    requires OnceEach(t) && t'.outbox == t.outbox && t'.timeline == t.timeline
    ensures OnceEach(t')
  {
  }

  lemma {:induction false} AppliedOnce(c: Config, t: Tables, x: Consumed)
    requires OnceEach(t) && Apply(c, t, x).Some?
    ensures OnceEach(Apply(c, t, x).value)
  {
    var e := x.event;
    var t0 := InsertEvent(t.(keys := t.keys + {e.key}), e);
    OnceFrame(t, t.(keys := t.keys + {e.key}));
    InsertsOnce(t.(keys := t.keys + {e.key}), e);
    CallLeavesRows(c, t0, e);
    hide ProjectCall;
    hide Refused;
    hide InsertEvent;
    hide OnceEach;
    var t1 := ProjectCall(c, t0, e);
    OnceFrame(t0, t1);
    if e.kind.UsageRecorded? {
      RecordAllKeepsKeys(c, t1, e, e.kind.provider, e.kind.model, e.kind.measurements);
      var recorded := RecordAll(c, t1, e, e.kind.provider, e.kind.model, e.kind.measurements).value;
      UpdateLeavesRows(c, recorded, e.call, None, false);
      var billed := UpdateCallBilling(c, recorded, e.call, None, false);
      OnceFrame(t1, billed);
      EnqueuesOnce(billed, e);
      hide UpdateCallBilling;
      hide EnqueueBilling;
      hide RecordAll;
    } else {
      OnceFrame(t1, Apply(c, t, x).value);
    }
  }

  /** Of any deliveries whatever, even of different events of one identifier, none is announced or entered twice. */
  lemma {:induction false} NothingIsAnnouncedTwice(c: Config, xs: seq<Consumed>)
    ensures ProjectAll(c, NoRows(), xs).Some? ==> OnceEach(ProjectAll(c, NoRows(), xs).value)
  {
    if xs != [] {
      hide Apply;
      hide OnceEach;
      NothingIsAnnouncedTwice(c, xs[..|xs| - 1]);
      var r := ProjectAll(c, NoRows(), xs[..|xs| - 1]);
      if r.Some? && xs[|xs| - 1].event.key !in r.value.keys && Apply(c, r.value, xs[|xs| - 1]).Some? {
        AppliedOnce(c, r.value, xs[|xs| - 1]);
      }
    }
  }
}
