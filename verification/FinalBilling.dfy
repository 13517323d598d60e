/** The activities that write a call's final record and its adjustments. */
module FinalBilling {
  import opened Options
  import opened LedgerTables
  import opened ExactlyOnce
  import opened LedgerSums
  import opened CallLaws
  import opened Cents

  datatype FinalRecord = FinalRecord(platform: int, costs: Costs, total: int, status: string)

  datatype Adjustment = Adjustment(call: string, source: nat, previous: int, recomputed: int, delta: int)

  datatype Records = Records(finals: map<string, FinalRecord>, adjustments: seq<Adjustment>)

  /** Five cents a minute, whatever rate the projector was given. */
  function PlatformFee(duration: real): real {
    duration / 60.0 * 0.05
  }

  function UsageFor(rows: seq<UsageRow>, call: string): seq<UsageRow> {
    if rows == [] then []
    else UsageFor(rows[..|rows| - 1], call) + (if rows[|rows| - 1].call == call then [rows[|rows| - 1]] else [])
  }

  /** The time between a call's first start and its last end. */
  function Elapsed(t: Tables, call: string): real {
    if call in t.times && t.times[call].ended.Some? then t.times[call].ended.value - t.times[call].started else 0.0
  }

  /** The recorded duration, or the time between start and end when none is recorded. */
  function DurationOf(t: Tables, call: string): real {
    if BillingOf(t, call).duration != 0.0 then BillingOf(t, call).duration else Elapsed(t, call)
  }

  /** What the activities bill a call at this point of the ledger. */
  function Recomputed(t: Tables, call: string): int {
    Billed(PlatformFee(DurationOf(t, call)), UsageFor(t.usage, call))
  }

  function Computed(t: Tables, call: string, status: string): FinalRecord {
    var platform, costs := ToCents(PlatformFee(DurationOf(t, call))), CostsOf(UsageFor(t.usage, call));
    FinalRecord(platform, costs, Total(platform, costs), status)
  }

  /** On conflict every column is replaced but the telephony cost. */
  function Upsert(finals: map<string, FinalRecord>, call: string, r: FinalRecord): map<string, FinalRecord> {
    finals[call := if call in finals then r.(costs := r.costs.(telephony := finals[call].costs.telephony)) else r]
  }

  predicate Adjusted(adjustments: seq<Adjustment>, call: string, source: nat) {
    exists k :: 0 <= k < |adjustments| && adjustments[k].call == call && adjustments[k].source == source
  }

  /** Each late event is adjusted for once, against the final record's total. */
  function Adjust(rs: Records, call: string, source: nat, recomputed: int): Records
    requires call in rs.finals
  {
    if Adjusted(rs.adjustments, call, source) then rs
    else
      var previous := rs.finals[call].total;
      rs.(adjustments := rs.adjustments + [Adjustment(call, source, previous, recomputed, recomputed - previous)])
  }

  /** The finalization activity: the records it leaves and what it returns; an unknown call is an error. */
  function FinalizeOn(rs: Records, t: Tables, call: string, status: string): (Records, Option<FinalRecord>) {
    if call !in t.calls then (rs, None)
    else
      var r := Computed(t, call, status);
      (rs.(finals := Upsert(rs.finals, call, r)), Some(r))
  }

  /** The adjustment activity: an error without a call or a final record. */
  function AdjustOn(rs: Records, t: Tables, call: string, source: nat): (Records, Option<int>) {
    if call !in t.calls || call !in rs.finals then (rs, None)
    else
      var recomputed := Recomputed(t, call);
      (Adjust(rs, call, source, recomputed), Some(recomputed - rs.finals[call].total))
  }

  class BillingActivities {
    var records: Records

    constructor ()
      ensures records == Records(map[], [])
    {
      records := Records(map[], []);
    }

    method FinalizeCallBilling(t: Tables, call: string, status: string)
      returns (result: Option<FinalRecord>)
      modifies this
      ensures (records, result) == FinalizeOn(old(records), t, call, status)
      ensures call !in t.calls ==> result == None && records == old(records)
      ensures call in t.calls ==>
        result == Some(Computed(t, call, status))
        && records == old(records).(finals := Upsert(old(records).finals, call, Computed(t, call, status)))
    {
      if call !in t.calls {
        return None;
      }
      var usage := UsageFor(t.usage, call);
      var platform := ToCents(PlatformFee(DurationOf(t, call)));
      var costs := ComponentCosts(usage);
      var record := FinalRecord(platform, costs, Total(platform, costs), status);
      records := records.(finals := Upsert(records.finals, call, record));
      return Some(record);
    }

    method CreateBillingAdjustment(t: Tables, call: string, source: nat)
      returns (delta: Option<int>)
      modifies this
      ensures (records, delta) == AdjustOn(old(records), t, call, source)
      ensures delta.Some? <==> call in t.calls && call in old(records).finals
      ensures delta.None? ==> records == old(records)
      ensures delta.Some? ==>
        old(records).finals[call].total + delta.value == Recomputed(t, call)
        && records == Adjust(old(records), call, source, Recomputed(t, call))
    {
      hide ToCents;
      hide CostsOf;
      hide UsageFor;
      hide DurationOf;
      hide PlatformFee;
      hide Adjusted;
      if call !in t.calls || call !in records.finals {
        return None;
      }
      var usage := UsageFor(t.usage, call);
      var platform := ToCents(PlatformFee(DurationOf(t, call)));
      var costs := ComponentCosts(usage);
      var recomputed := Total(platform, costs);
      delta := Some(recomputed - records.finals[call].total);
      records := Adjust(records, call, source, recomputed);
    }
  }

  // ---------------------------------------------------- the record's own sum

  predicate SumsUp(r: FinalRecord) {
    r.total == Total(r.platform, r.costs)
  }

  /** Rewriting a final record keeps its total the sum of its parts exactly when telephony did not change. */
  lemma {:induction false} RewrittenRecordSumsUp(
    finals: map<string, FinalRecord>, t: Tables, call: string, status: string)
    requires call in finals
    ensures var r := Computed(t, call, status);
      SumsUp(Upsert(finals, call, r)[call]) <==> r.costs.telephony == finals[call].costs.telephony
  {
    hide CostsOf;
    hide ToCents;
  }

  // -------------------------------------------------- agreement with the ledger

  lemma {:induction false} CostOfIsTheCallsTotal(rows: seq<UsageRow>, call: string)
    ensures CostOf(rows, call) == TotalCost(UsageFor(rows, call))
  {
    if rows != [] {
      CostOfIsTheCallsTotal(rows[..|rows| - 1], call);
      var front := UsageFor(rows[..|rows| - 1], call);
      assert (front + [rows[|rows| - 1]])[..|front|] == front;
      assert front + [] == front;
    }
  }

  /** Every bill's platform fee is its duration at the projector's rate. */
  ghost predicate FeesFollow(c: Config, t: Tables) {
    forall call :: call in t.billing ==> t.billing[call].platformFee == Cost(t.billing[call].duration / 60.0, c.platformRate)
  }

  lemma {:induction false} UpdateFollows(c: Config, t: Tables, call: string, duration: Option<real>, finalized: bool)
    requires FeesFollow(c, t)
    ensures FeesFollow(c, UpdateCallBilling(c, t, call, duration, finalized))
  {
    hide CostOf;
    assert Cost(0.0 / 60.0, c.platformRate) == 0.0;
    hide Cost;
  }

  lemma {:induction false} CallFollows(c: Config, t: Tables, e: Event)
    requires FeesFollow(c, t)
    ensures FeesFollow(c, ProjectCall(c, t, e))
  {
    hide UpdateCallBilling;
    hide FeesFollow;
    EndLeavesRows(t, e.call, Completed, e.at);
    CallIs(c, t, e);
    hide EndCall;
    hide FailCall;
    hide ProjectCall;
    match e.kind
    case CallEnded(duration) =>
      FeesFrame(c, t, EndCall(t, e.call, Completed, e.at));
      UpdateFollows(c, EndCall(t, e.call, Completed, e.at), e.call, Some(duration), true);
    case CallFailed =>
      FeesFrame(c, t, FailCall(t, e.call, e.at));
      UpdateFollows(c, FailCall(t, e.call, e.at), e.call, None, true);
    case _ => FeesFrame(c, t, ProjectCall(c, t, e));
  }

  lemma {:induction false} FeesFrame(c: Config, t: Tables, t': Tables)
    requires FeesFollow(c, t) && t'.billing == t.billing
    ensures FeesFollow(c, t')
  {
    hide Cost;
  }

  lemma {:induction false} UsageFollows(c: Config, t: Tables, x: Consumed)
    requires FeesFollow(c, t)
    ensures ProjectUsage(c, t, x).Some? ==> FeesFollow(c, ProjectUsage(c, t, x).value)
  {
    hide RecordAll;
    hide UpdateCallBilling;
    hide FeesFollow;
    var e, r := x.event, ProjectUsage(c, t, x);
    if e.kind.UsageRecorded? && r.Some? {
      RecordAllKeepsKeys(c, t, e, e.kind.provider, e.kind.model, e.kind.measurements);
      var recorded := RecordAll(c, t, e, e.kind.provider, e.kind.model, e.kind.measurements).value;
      FeesFrame(c, t, recorded);
      UpdateFollows(c, recorded, e.call, None, false);
      FeesFrame(c, UpdateCallBilling(c, recorded, e.call, None, false), r.value);
    } else if r.Some? {
      FeesFrame(c, t, r.value);
    }
  }

  lemma {:induction false} ApplyFollows(c: Config, t: Tables, x: Consumed)
    requires FeesFollow(c, t)
    ensures Apply(c, t, x).Some? ==> FeesFollow(c, Apply(c, t, x).value)
  {
    hide ProjectCall;
    hide ProjectUsage;
    hide Refused;
    hide FeesFollow;
    var t0 := InsertEvent(t.(keys := t.keys + {x.event.key}), x.event);
    FeesFrame(c, t, t0);
    CallFollows(c, t0, x.event);
    UsageFollows(c, ProjectCall(c, t0, x.event), x);
  }

  lemma {:induction false} EveryFeeFollows(c: Config, xs: seq<Consumed>)
    ensures ProjectAll(c, NoRows(), xs).Some? ==> FeesFollow(c, ProjectAll(c, NoRows(), xs).value)
  {
    if xs != [] {
      hide Apply;
      hide FeesFollow;
      EveryFeeFollows(c, xs[..|xs| - 1]);
      var r := ProjectAll(c, NoRows(), xs[..|xs| - 1]);
      if r.Some? {
        ApplyFollows(c, r.value, xs[|xs| - 1]);
      }
    } else {
      assert FeesFollow(c, NoRows());
    }
  }

  /** What the activities bill a call before they round. */
  function Exact(t: Tables, call: string): real {
    PlatformFee(DurationOf(t, call)) + TotalCost(UsageFor(t.usage, call))
  }

  /** A final total is the exact bill in cents, to within two and a half cents. */
  lemma {:induction false} RecomputedIsClose(t: Tables, call: string)
    ensures -2.5 <= Recomputed(t, call) as real - 100.0 * Exact(t, call) <= 2.5
  {
    BilledIsClose(PlatformFee(DurationOf(t, call)), UsageFor(t.usage, call));
    hide Billed;
    hide TotalCost;
    hide PlatformFee;
  }

  /** The fees of two bills of one duration are equal exactly when their rates are, or the duration is nothing. */
  lemma {:induction false} SameFee(duration: real, rate: real)
    ensures Cost(duration / 60.0, rate) == PlatformFee(duration) <==> duration == 0.0 || rate == 0.05
  {
    var minutes := duration / 60.0;
    assert minutes * rate - minutes * 0.05 == minutes * (rate - 0.05);
    if minutes != 0.0 && rate != 0.05 {
      ProductIsNotZero(minutes, rate - 0.05);
    }
  }

  lemma {:induction false} ProductIsNotZero(x: real, y: real)
    requires x != 0.0 && y != 0.0
    ensures x * y != 0.0
  {
  }

  lemma {:induction false} NoFee(rate: real)
    ensures Cost(0.0 / 60.0, rate) == 0.0 && PlatformFee(0.0) == 0.0
  {
  }

  lemma {:induction false} FeeOfNothing(duration: real)
    ensures PlatformFee(duration) == 0.0 <==> duration == 0.0
  {
  }

  /** How far the exact bill is from a ledger's total made of the recorded duration. */
  lemma {:induction false} HowFarApart(t: Tables, call: string, rate: real)
    requires var b := BillingOf(t, call);
      b.total == Cost(b.duration / 60.0, rate) + TotalCost(UsageFor(t.usage, call))
    ensures var b := BillingOf(t, call);
      && Exact(t, call) - b.total == PlatformFee(DurationOf(t, call)) - Cost(b.duration / 60.0, rate)
      && (Exact(t, call) == b.total <==> if b.duration != 0.0 then rate == 0.05 else Elapsed(t, call) == 0.0)
  {
    SameFee(BillingOf(t, call).duration, rate);
    NoFee(rate);
    FeeOfNothing(Elapsed(t, call));
    hide BillingOf;
    hide Elapsed;
    hide TotalCost;
    hide UsageFor;
    hide Cost;
    hide PlatformFee;
  }

  /**
   * Exactly when what is billed finally is what the ledger says, on every ledger and for every call: for a recorded
   * duration at five cents a minute, and without one when no time passed between start and end. Otherwise the two
   * are apart by what five cents a minute of the billed duration differ from the ledger's fee.
   */
  lemma {:induction false} FinalAgreesWithTheLedger(c: Config, xs: seq<Consumed>, call: string)
    requires ProjectAll(c, NoRows(), xs).Some?
    ensures var t := ProjectAll(c, NoRows(), xs).value;
      var b := BillingOf(t, call);
      && Exact(t, call) - b.total == PlatformFee(DurationOf(t, call)) - Cost(b.duration / 60.0, c.platformRate)
      && (Exact(t, call) == b.total <==>
            if b.duration != 0.0 then c.platformRate == 0.05 else Elapsed(t, call) == 0.0)
      && -2.5 <= Recomputed(t, call) as real - 100.0 * Exact(t, call) <= 2.5
  {
    hide *;
    var t := ProjectAll(c, NoRows(), xs).value;
    LedgerTotal(c, xs, call);
    HowFarApart(t, call, c.platformRate);
    RecomputedIsClose(t, call);
  }

  lemma {:induction false} LedgerTotal(c: Config, xs: seq<Consumed>, call: string)
    requires ProjectAll(c, NoRows(), xs).Some?
    ensures var t := ProjectAll(c, NoRows(), xs).value;
      BillingOf(t, call).total ==
        Cost(BillingOf(t, call).duration / 60.0, c.platformRate) + TotalCost(UsageFor(t.usage, call))
  {
    EveryBillBalances(c, xs);
    EveryFeeFollows(c, xs);
    var t := ProjectAll(c, NoRows(), xs).value;
    CostOfIsTheCallsTotal(t.usage, call);
    if call !in t.billing {
      NoFee(c.platformRate);
      UnbilledCostsNothing(t, call);
    }
    hide ProjectAll;
    hide CostOf;
    hide TotalCost;
    hide UsageFor;
    hide Cost;
  }

  lemma {:induction false} UnbilledCostsNothing(t: Tables, call: string)
    requires Balanced(t) && call !in t.billing
    ensures CostOf(t.usage, call) == 0.0
  {
    NoRowsCostNothing(t.usage, call);
    hide CostOf;
  }

  lemma {:induction false} NoRowsCostNothing(rows: seq<UsageRow>, call: string)
    requires forall k :: 0 <= k < |rows| ==> rows[k].call != call
    ensures CostOf(rows, call) == 0.0
  {
    if rows != [] {
      NoRowsCostNothing(rows[..|rows| - 1], call);
    }
  }

  // --------------------------------------------------------------- adjustments

  /** What a call's adjustments add up to. */
  function DeltaSum(adjustments: seq<Adjustment>, call: string): int {
    if adjustments == [] then 0
    else
      var a := adjustments[|adjustments| - 1];
      DeltaSum(adjustments[..|adjustments| - 1], call) + (if a.call == call then a.delta else 0)
  }

  /** One adjustment for each of a sequence of late events, with the totals recomputed for them. */
  function AdjustAll(rs: Records, call: string, late: seq<(nat, int)>): Records
    requires call in rs.finals
    ensures AdjustAll(rs, call, late).finals == rs.finals
  {
    if late == [] then rs
    else
      Adjust(AdjustAll(rs, call, late[..|late| - 1]), call, late[|late| - 1].0, late[|late| - 1].1)
  }

  ghost predicate NewSources(rs: Records, call: string, late: seq<(nat, int)>) {
    && (forall k :: 0 <= k < |late| ==> !Adjusted(rs.adjustments, call, late[k].0))
    && (forall j, k :: 0 <= j < k < |late| ==> late[j].0 != late[k].0)
  }

  lemma {:induction false} AdjustedSources(rs: Records, call: string, late: seq<(nat, int)>, source: nat)
    requires call in rs.finals
    ensures Adjusted(AdjustAll(rs, call, late).adjustments, call, source) ==>
      Adjusted(rs.adjustments, call, source) || exists k :: 0 <= k < |late| && late[k].0 == source
  {
    if late != [] {
      AdjustedSources(rs, call, late[..|late| - 1], source);
      var before := AdjustAll(rs, call, late[..|late| - 1]).adjustments;
      var after := AdjustAll(rs, call, late).adjustments;
      if Adjusted(after, call, source) && late[|late| - 1].0 != source {
        var k :| 0 <= k < |after| && after[k].call == call && after[k].source == source;
        assert before[k] == after[k];
      }
    }
  }

  /** Each late event of a new source is measured against the same final total. */
  lemma {:induction false} DeltasAreFromTheFinal(rs: Records, call: string, late: seq<(nat, int)>)
    requires call in rs.finals && NewSources(rs, call, late)
    ensures DeltaSum(AdjustAll(rs, call, late).adjustments, call) ==
      DeltaSum(rs.adjustments, call) + Excess(rs.finals[call].total, late)
  {
    if late != [] {
      var front, last := late[..|late| - 1], late[|late| - 1];
      DeltasAreFromTheFinal(rs, call, front);
      AdjustedSources(rs, call, front, last.0);
      var before := AdjustAll(rs, call, front).adjustments;
      var a := Adjustment(call, last.0, rs.finals[call].total, last.1, last.1 - rs.finals[call].total);
      assert AdjustAll(rs, call, late).adjustments == before + [a];
      assert (before + [a])[..|before|] == before;
    }
  }

  /** What totals exceed a base by, together. */
  function Excess(base: int, late: seq<(nat, int)>): int {
    if late == [] then 0 else Excess(base, late[..|late| - 1]) + late[|late| - 1].1 - base
  }

  lemma {:induction false} ExcessOfEqual(base: int, late: seq<(nat, int)>)
    requires forall k :: 0 <= k < |late| ==> late[k].1 >= base
    ensures Excess(base, late) >= 0
    ensures Excess(base, late) == 0 <==> forall k :: 0 <= k < |late| ==> late[k].1 == base
  {
    if late != [] {
      ExcessOfEqual(base, late[..|late| - 1]);
      assert late == late[..|late| - 1] + [late[|late| - 1]];
    }
  }

  /**
   * Adjustments as a whole charge at least what the last recomputation asks for, and exactly that only when all
   * the earlier ones were for nothing: each is measured against the final total, not against its predecessor.
   */
  lemma {:induction false} AdjustmentsOverstate(rs: Records, call: string, late: seq<(nat, int)>)
    requires call in rs.finals && NewSources(rs, call, late) && late != []
    requires DeltaSum(rs.adjustments, call) == 0
    requires forall k :: 0 <= k < |late| ==> late[k].1 >= rs.finals[call].total
    ensures var (charged, owed) :=
        (rs.finals[call].total + DeltaSum(AdjustAll(rs, call, late).adjustments, call), late[|late| - 1].1);
      && charged >= owed
      && (charged == owed <==> forall k :: 0 <= k < |late| - 1 ==> late[k].1 == rs.finals[call].total)
  {
    DeltasAreFromTheFinal(rs, call, late);
    var front := late[..|late| - 1];
    ExcessOfEqual(rs.finals[call].total, front);
    assert forall k :: 0 <= k < |late| - 1 ==> front[k] == late[k];
    hide AdjustAll;
    hide DeltaSum;
  }

  /** A later state of the ledger, as far as one call's bill goes: same duration, and more rows of non-negative cost. */
  ghost predicate Later(t: Tables, t': Tables, call: string) {
    && call in t'.calls && DurationOf(t', call) == DurationOf(t, call)
    && t.usage <= t'.usage && forall k :: |t.usage| <= k < |t'.usage| ==> t'.usage[k].cost >= 0.0
  }

  /** The adjustment activity for one late event after another, each on the ledger of its time. */
  function AdjustOver(rs: Records, call: string, ts: seq<Tables>, sources: seq<nat>): Records
    requires |sources| == |ts|
  {
    if ts == [] then rs
    else
      AdjustOn(AdjustOver(rs, call, ts[..|ts| - 1], sources[..|ts| - 1]),
               ts[|ts| - 1], call, sources[|ts| - 1]).0
  }

  function Totals(call: string, ts: seq<Tables>, sources: seq<nat>): seq<(nat, int)>
    requires |sources| == |ts|
  {
    seq(|ts|, k requires 0 <= k < |ts| => (sources[k], Recomputed(ts[k], call)))
  }

  lemma {:induction false} AdjustOverIsAdjustAll(
    rs: Records, call: string, ts: seq<Tables>, sources: seq<nat>)
    requires |sources| == |ts| && call in rs.finals && forall k :: 0 <= k < |ts| ==> call in ts[k].calls
    ensures AdjustOver(rs, call, ts, sources) == AdjustAll(rs, call, Totals(call, ts, sources))
  {
    hide Recomputed;
    if ts != [] {
      var n := |ts| - 1;
      AdjustOverIsAdjustAll(rs, call, ts[..n], sources[..n]);
      assert Totals(call, ts, sources)[..n] == Totals(call, ts[..n], sources[..n]);
    }
  }

  /**
   * Once a call is finalized, adjusting for late events on later and later ledgers charges at least what the last
   * recomputation asks for, and exactly that if and only if every earlier recomputation found nothing new.
   */
  lemma {:induction false} LateUsageIsChargedAgain(
    rs: Records, t: Tables, call: string, ts: seq<Tables>, sources: seq<nat>)
    requires call in rs.finals && rs.finals[call].total == Recomputed(t, call)
    requires DeltaSum(rs.adjustments, call) == 0
    requires ts != [] && |sources| == |ts| && forall k :: 0 <= k < |ts| ==> Later(t, ts[k], call)
    requires NewSources(rs, call, Totals(call, ts, sources))
    ensures var charged := rs.finals[call].total + DeltaSum(AdjustOver(rs, call, ts, sources).adjustments, call);
      var owed := Recomputed(ts[|ts| - 1], call);
      && charged >= owed
      && (charged == owed <==>
            forall k :: 0 <= k < |ts| - 1 ==> Recomputed(ts[k], call) == Recomputed(t, call))
  {
    hide *;
    AdjustOverIsAdjustAll(rs, call, ts, sources) by {
      assert forall k :: 0 <= k < |ts| ==> Later(t, ts[k], call);
      LaterIsKnown(t, ts, call);
    }
    TotalsAre(call, ts, sources);
    var late := Totals(call, ts, sources);
    forall k | 0 <= k < |ts| ensures late[k].1 >= rs.finals[call].total {
      LaterCostsMore(t, ts[k], call);
    }
    AdjustmentsOverstate(rs, call, late);
  }

  lemma {:induction false} LaterIsKnown(t: Tables, ts: seq<Tables>, call: string)
    requires forall k :: 0 <= k < |ts| ==> Later(t, ts[k], call)
    ensures forall k :: 0 <= k < |ts| ==> call in ts[k].calls
  {
    hide DurationOf;
  }

  lemma {:induction false} TotalsAre(call: string, ts: seq<Tables>, sources: seq<nat>)
    requires |sources| == |ts|
    ensures |Totals(call, ts, sources)| == |ts|
    ensures forall k :: 0 <= k < |ts| ==>
      Totals(call, ts, sources)[k] == (sources[k], Recomputed(ts[k], call))
  {
    hide Recomputed;
  }

  lemma {:induction false} LaterCostsMore(t: Tables, t': Tables, call: string)
    requires Later(t, t', call)
    ensures Recomputed(t', call) >= Recomputed(t, call)
  {
    var more := t'.usage[|t.usage|..];
    assert t'.usage == t.usage + more;
    LateDeltaIsNotNegative(t, t', call, more);
    hide Recomputed;
    hide DurationOf;
  }

  /** With the duration fixed, late usage of non-negative cost is never a credit. */
  lemma {:induction false} LateDeltaIsNotNegative(t: Tables, t': Tables, call: string, more: seq<UsageRow>)
    requires DurationOf(t', call) == DurationOf(t, call)
    requires t'.usage == t.usage + more && forall k :: 0 <= k < |more| ==> more[k].cost >= 0.0
    ensures Recomputed(t', call) - Recomputed(t, call) >= 0
  {
    UsageForConcat(t.usage, more, call);
    BilledGrows(PlatformFee(DurationOf(t, call)), UsageFor(t.usage, call), UsageFor(more, call));
  }

  lemma {:induction false} UsageForConcat(xs: seq<UsageRow>, ys: seq<UsageRow>, call: string)
    ensures UsageFor(xs + ys, call) == UsageFor(xs, call) + UsageFor(ys, call)
    ensures forall k :: 0 <= k < |UsageFor(ys, call)| ==> UsageFor(ys, call)[k] in ys
  {
    if ys == [] {
      assert xs + ys == xs;
    } else {
      assert (xs + ys)[..|xs + ys| - 1] == xs + ys[..|ys| - 1];
      UsageForConcat(xs, ys[..|ys| - 1], call);
    }
  }

  // -------------------------------------------------------------- later ledgers

  /** No price and no measured quantity is negative. */
  ghost predicate NonNegative(c: Config, e: Event) {
    && (forall key :: key in c.prices ==> c.prices[key] >= 0.0)
    && (e.kind.UsageRecorded? ==>
          forall k :: 0 <= k < |e.kind.measurements| ==> e.kind.measurements[k].quantity >= 0.0)
  }

  lemma {:induction false} CostIsNotNegative(quantity: real, price: real)
    requires quantity >= 0.0 && price >= 0.0
    ensures Cost(quantity, price) >= 0.0
  {
  }

  lemma {:induction false} MeasuredRowsCost(
    c: Config, t: Tables, e: Event, provider: string, model: string, ms: seq<Measurement>)
    requires forall key :: key in c.prices ==> c.prices[key] >= 0.0
    requires forall k :: 0 <= k < |ms| ==> ms[k].quantity >= 0.0
    ensures var r := RecordAll(c, t, e, provider, model, ms);
      r.Some? ==>
        t.usage <= r.value.usage && forall k :: |t.usage| <= k < |r.value.usage| ==> r.value.usage[k].cost >= 0.0
  {
    hide Normalized;
    hide Rollup;
    hide HasUsage;
    hide HasUsageEvent;
    hide Cost;
    if ms != [] {
      var front, m := ms[..|ms| - 1], ms[|ms| - 1];
      MeasuredRowsCost(c, t, e, provider, model, front);
      if (provider, model, m.usageType) in c.prices {
        CostIsNotNegative(m.quantity, c.prices[(provider, model, m.usageType)]);
      }
    }
  }

  lemma {:induction false} AppliedRowsCost(c: Config, t: Tables, x: Consumed)
    requires NonNegative(c, x.event)
    ensures var r := Apply(c, t, x);
      r.Some? ==>
        t.usage <= r.value.usage && forall k :: |t.usage| <= k < |r.value.usage| ==> r.value.usage[k].cost >= 0.0
  {
    var e, t1 := x.event, Opened(c, t, x.event);
    OpenedLeavesRows(c, t, e);
    hide Opened;
    hide Refused;
    if e.kind.UsageRecorded? {
      MeasuredRowsCost(c, t1, e, e.kind.provider, e.kind.model, e.kind.measurements);
      hide RecordAll;
    }
  }

  /** The duration the activities bill depends on the call's view alone. */
  lemma {:induction false} DurationIsInView(t: Tables, call: string)
    ensures DurationOf(t, call) == DurationIn(ViewOf(t, call))
  {
  }

  function DurationIn(v: CallView): real {
    if v.duration != 0.0 then v.duration
    else if v.times.Some? && v.times.value.ended.Some? then v.times.value.ended.value - v.times.value.started
    else 0.0
  }

  /** The event neither ends the call again nor, when it has no recorded duration, fails it again. */
  predicate KeepsDuration(e: Event, call: string, recorded: real) {
    e.call == call ==> !e.kind.CallEnded? && (e.kind.CallFailed? ==> recorded != 0.0)
  }

  lemma {:induction false} MoveKeepsDuration(c: Config, v: CallView, e: Event)
    requires KeepsDuration(e, e.call, v.duration)
    ensures DurationIn(Moves(c, v, e)) == DurationIn(v) && Moves(c, v, e).duration == v.duration
    ensures v.status.Some? ==> Moves(c, v, e).status.Some?
  {
  }

  lemma {:induction false} OneLater(c: Config, t: Tables, t': Tables, x: Consumed, call: string)
    requires Later(t, t', call) && NonNegative(c, x.event) && Apply(c, t', x).Some?
    requires KeepsDuration(x.event, call, ViewOf(t', call).duration)
    ensures Later(t, Apply(c, t', x).value, call)
    ensures ViewOf(Apply(c, t', x).value, call).duration == ViewOf(t', call).duration
  {
    var t'' := Apply(c, t', x).value;
    AppliedRowsCost(c, t', x);
    ApplyMoves(c, t', x, call);
    DurationIsInView(t', call);
    DurationIsInView(t'', call);
    if x.event.call == call {
      MoveKeepsDuration(c, ViewOf(t', call), x.event);
    }
    assert ViewOf(t'', call).status.Some? by {
      StatusKnown(t', call);
      hide *;
    }
    StatusKnown(t'', call);
    hide Apply;
    hide DurationOf;
    hide DurationIn;
    hide ViewOf;
    hide Moves;
    hide KeepsDuration;
  }

  /** Every ledger that more events make of one is a later one, while they leave the duration of the call alone. */
  lemma {:induction false} EventsMakeLaterLedgers(c: Config, xs: seq<Consumed>, ys: seq<Consumed>, call: string)
    requires ApplyAll(c, NoRows(), xs + ys).Some?
    requires ApplyAll(c, NoRows(), xs).Some? ==>
      var t := ApplyAll(c, NoRows(), xs).value;
      && call in t.calls
      && forall k :: 0 <= k < |ys| ==> KeepsDuration(ys[k].event, call, ViewOf(t, call).duration)
    requires forall k :: 0 <= k < |ys| ==> NonNegative(c, ys[k].event)
    ensures ApplyAll(c, NoRows(), xs).Some?
    ensures Later(ApplyAll(c, NoRows(), xs).value, ApplyAll(c, NoRows(), xs + ys).value, call)
    ensures ViewOf(ApplyAll(c, NoRows(), xs + ys).value, call).duration ==
      ViewOf(ApplyAll(c, NoRows(), xs).value, call).duration
  {
    hide Apply;
    hide NonNegative;
    hide KeepsDuration;
    hide ViewOf;
    if ys == [] {
      assert xs + ys == xs;
    } else {
      var front, y := ys[..|ys| - 1], ys[|ys| - 1];
      assert (xs + ys)[..|xs + ys| - 1] == xs + front;
      EventsMakeLaterLedgers(c, xs, front, call);
      OneLater(c, ApplyAll(c, NoRows(), xs).value, ApplyAll(c, NoRows(), xs + front).value, y, call);
      hide Later;
    }
  }
}
