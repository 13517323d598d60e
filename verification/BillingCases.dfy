/** Ledgers of single calls, and the bills they show to be wrong. */
module BillingCases {
  import opened Options
  import opened LedgerTables
  import opened ExactlyOnce
  import opened LedgerSums
  import opened CallLaws
  import opened DeliveryProgress
  import opened Cents
  import opened FinalBilling
  import Projector

  const CALLS := Partition("call-events", 0)
  const USAGE := Partition("usage-events", 0)

  function Started(call: string): Consumed {
    Consumed(Event(1, "start", call, "session", "transport", 0.0, CallStarted(Absent, Absent)), CALLS, 0)
  }

  function Ended(call: string, duration: real): Consumed {
    Consumed(Event(2, "end", call, "session", "transport", duration, CallEnded(duration)), CALLS, 1)
  }

  /** The nth cent of telephony. */
  function Cent(call: string, n: nat): Consumed {
    var kind := UsageRecorded("p", "m", [Measurement("unit", 1.0)]);
    Consumed(Event(n + 2, EventKeyOf(n), call, "turn", "telephony", 0.0, kind), USAGE, n)
  }

  function EventKeyOf(n: nat): string {
    if n == 0 then "usage" else EventKeyOf(n - 1) + "+"
  }

  /** A call that ended, and then `n` cents of telephony. */
  function Story(call: string, duration: real, n: nat): seq<Consumed> {
    if n == 0 then [Started(call)] + [Ended(call, duration)] else Story(call, duration, n - 1) + [Cent(call, n)]
  }

  function CentRow(call: string, n: nat): UsageRow {
    UsageRow(n + 2, call, "telephony", "unit", 1.0, 0.01)
  }

  function CentRows(call: string, n: nat): seq<UsageRow> {
    if n == 0 then [] else CentRows(call, n - 1) + [CentRow(call, n)]
  }

  predicate PricesCents(c: Config) {
    ("p", "m", "unit") in c.prices && c.prices[("p", "m", "unit")] == 0.01
  }

  lemma {:induction false} ApplySnoc(c: Config, xs: seq<Consumed>, x: Consumed)
    requires ApplyAll(c, NoRows(), xs).Some?
    ensures ApplyAll(c, NoRows(), xs + [x]) == Apply(c, ApplyAll(c, NoRows(), xs).value, x)
  {
    hide Apply;
    assert (xs + [x])[..|xs|] == xs;
  }

  lemma {:induction false} ApplyNone(c: Config, call: string)
    ensures ApplyAll(c, NoRows(), []) == Some(NoRows()) && ViewOf(NoRows(), call) == UNKNOWN
  {
  }

  lemma {:induction false} StoryIsApplied(c: Config, call: string, duration: real, n: nat)
    requires n == 0 || PricesCents(c)
    ensures ApplyAll(c, NoRows(), Story(call, duration, n)).Some?
    ensures ViewOf(ApplyAll(c, NoRows(), Story(call, duration, n)).value, call) ==
      CallView(Some(Completed), duration, Cost(duration / 60.0, c.platformRate), true, Some(Times(0.0, Some(duration))))
  {
    ApplyNone(c, call);
    hide ApplyAll;
    hide Apply;
    hide ViewOf;
    hide Cost;
    hide NoRows;
    if n == 0 {
      AppliesWhen(c, NoRows(), Started(call));
      assert [] + [Started(call)] == [Started(call)];
      ApplySnoc(c, [], Started(call));
      ApplyMoves(c, NoRows(), Started(call), call);
      var t := ApplyAll(c, NoRows(), [Started(call)]).value;
      AppliesWhen(c, t, Ended(call, duration));
      ApplySnoc(c, [Started(call)], Ended(call, duration));
      ApplyMoves(c, t, Ended(call, duration), call);
    } else {
      StoryIsApplied(c, call, duration, n - 1);
      var t := ApplyAll(c, NoRows(), Story(call, duration, n - 1)).value;
      AppliesWhen(c, t, Cent(call, n));
      ApplySnoc(c, Story(call, duration, n - 1), Cent(call, n));
      ApplyMoves(c, t, Cent(call, n), call);
    }
  }

  lemma {:induction false} StoryIsWellFormed(call: string, duration: real, n: nat)
    ensures WellFormed(Story(call, duration, n)) && |Story(call, duration, n)| == n + 2
    ensures forall k :: 0 <= k < |Story(call, duration, n)| ==> Story(call, duration, n)[k].event.id == k + 1
  {
    if n > 0 {
      StoryIsWellFormed(call, duration, n - 1);
    }
  }

  lemma {:induction false} StoryRows(c: Config, call: string, duration: real, n: nat)
    requires n == 0 || PricesCents(c)
    ensures AllUsage(c, Story(call, duration, n)) == CentRows(call, n)
  {
    if n == 0 {
      assert AllUsage(c, []) == [];
      EventsSnoc(c, [], Started(call));
      assert [] + [Started(call)] == [Started(call)];
      EventsSnoc(c, [Started(call)], Ended(call, duration));
    } else {
      StoryRows(c, call, duration, n - 1);
      EventsSnoc(c, Story(call, duration, n - 1), Cent(call, n));
      hide AllUsage;
      hide AllUsageEvents;
      hide UsageIds;
      hide Ids;
      assert Cost(1.0, 0.01) == 0.01;
      assert UsageRows(c, Cent(call, n).event, "p", "m", [Measurement("unit", 1.0)]) == [CentRow(call, n)];
    }
  }

  lemma {:induction false} OnlyTheCallsRows(call: string, n: nat)
    ensures UsageFor(CentRows(call, n), call) == CentRows(call, n)
  {
    if n > 0 {
      OnlyTheCallsRows(call, n - 1);
      var rows := CentRows(call, n);
      assert rows[..|rows| - 1] == CentRows(call, n - 1);
    }
  }

  lemma {:induction false} CentBuckets(call: string, n: nat, component: Component)
    ensures BucketCost(CentRows(call, n), component) == if component == Telephony then n as real * 0.01 else 0.0
    ensures TotalCost(CentRows(call, n)) == n as real * 0.01
  {
    if n == 0 {
      assert BucketCost([], component) == 0.0 && TotalCost([]) == 0.0;
    } else {
      CentBuckets(call, n - 1, component);
      NoTokenInUnit();
      hide Contains;
      assert ComponentOf(CentRow(call, n)) == Telephony;
      OneMoreRow(CentRows(call, n - 1), CentRow(call, n), component);
      hide BucketCost;
      hide TotalCost;
      hide ComponentOf;
    }
  }

  lemma {:induction false} CentCosts(call: string, n: nat)
    ensures CostsOf(CentRows(call, n)) == Costs(0, 0, 0, n)
  {
    CentBuckets(call, n, Stt);
    CentBuckets(call, n, Llm);
    CentBuckets(call, n, Tts);
    CentBuckets(call, n, Telephony);
    NearestCent(0.0, 0);
    NearestCent(n as real * 0.01, n);
    hide BucketCost;
    hide ToCents;
    hide CentRows;
  }

  /** The ledger after a story, as the activities read it. */
  function LedgerOf(c: Config, call: string, duration: real, n: nat): Tables
    requires n == 0 || PricesCents(c)
  {
    StoryIsApplied(c, call, duration, n);
    ApplyAll(c, NoRows(), Story(call, duration, n)).value
  }

  lemma {:induction false} LedgerRows(c: Config, call: string, duration: real, n: nat)
    requires n == 0 || PricesCents(c)
    ensures LedgerOf(c, call, duration, n).usage == CentRows(call, n)
  {
    StoryIsApplied(c, call, duration, n);
    StoryIsWellFormed(call, duration, n);
    RowsAreTheEvents(c, Story(call, duration, n));
    StoryRows(c, call, duration, n);
    hide ApplyAll;
    hide AllUsage;
    hide AllUsageEvents;
    hide UsageIds;
    hide Ids;
    hide Story;
    hide CentRows;
    hide WellFormed;
    hide RollupsAddUp;
  }

  lemma {:induction false} LedgerCall(c: Config, call: string, duration: real, n: nat)
    requires n == 0 || PricesCents(c)
    ensures var t := LedgerOf(c, call, duration, n);
      call in t.calls && BillingOf(t, call).duration == duration && DurationOf(t, call) == duration
  {
    StoryIsApplied(c, call, duration, n);
    DurationIsInView(LedgerOf(c, call, duration, n), call);
    hide ApplyAll;
    hide Story;
    hide Cost;
  }

  lemma {:induction false} LedgerIs(c: Config, call: string, duration: real, n: nat)
    requires n == 0 || PricesCents(c)
    ensures var t := LedgerOf(c, call, duration, n);
      && call in t.calls && t.usage == CentRows(call, n) && BillingOf(t, call).duration == duration
      && Recomputed(t, call) == ToCents(PlatformFee(duration)) + n
      && Computed(t, call, "FINALIZED") ==
           FinalRecord(ToCents(PlatformFee(duration)), Costs(0, 0, 0, n), ToCents(PlatformFee(duration)) + n, "FINALIZED")
  {
    hide *;
    LedgerRows(c, call, duration, n);
    LedgerCall(c, call, duration, n);
    OnlyTheCallsRows(call, n);
    CentCosts(call, n);
    BillOf(LedgerOf(c, call, duration, n), call, duration, "FINALIZED");
    SumOf(ToCents(PlatformFee(duration)), n);
  }

  lemma {:induction false} SumOf(platform: int, n: nat)
    ensures Total(platform, Costs(0, 0, 0, n)) == platform + n
  {
  }

  lemma {:induction false} BillOf(t: Tables, call: string, duration: real, status: string)
    requires DurationOf(t, call) == duration
    ensures var (platform, costs) := (ToCents(PlatformFee(duration)), CostsOf(UsageFor(t.usage, call)));
      && Recomputed(t, call) == Total(platform, costs)
      && Computed(t, call, status) == FinalRecord(platform, costs, Total(platform, costs), status)
  {
    hide ToCents;
    hide PlatformFee;
    hide CostsOf;
    hide UsageFor;
    hide Total;
  }

  const PRICED := Config(map[("p", "m", "unit") := 0.01], 0.05, {}, {})

  lemma {:induction false} NoCents()
    ensures ToCents(PlatformFee(0.0)) == 0
  {
    NearestCent(0.0, 0);
  }

  // ---------------------------------------------------------------- telephony

  /** One cent of telephony that arrived between two finalizations of an ended call is in the total and in no part. */
  lemma {:induction false} LateTelephonyIsInNoPart(call: string)
    ensures var (first, r1) := FinalizeOn(Records(map[], []), LedgerOf(PRICED, call, 0.0, 0), call, "FINALIZED");
      var (second, r2) := FinalizeOn(first, LedgerOf(PRICED, call, 0.0, 1), call, "FINALIZED");
      && r1.Some? && r2.Some? && SumsUp(first.finals[call])
      && second.finals[call].total == 1 && second.finals[call].costs == Costs(0, 0, 0, 0)
      && !SumsUp(second.finals[call])
  {
    LedgerIs(PRICED, call, 0.0, 0);
    LedgerIs(PRICED, call, 0.0, 1);
    NoCents();
    hide LedgerOf;
    hide Computed;
    hide ToCents;
    hide PlatformFee;
  }

  // -------------------------------------------------------------- adjustments

  /** Two late cents are adjusted for with three. */
  lemma {:induction false} TwoLateCentsChargeThree(call: string)
    ensures var t0, t1, t2 := LedgerOf(PRICED, call, 0.0, 0), LedgerOf(PRICED, call, 0.0, 1), LedgerOf(PRICED, call, 0.0, 2);
      var rs := FinalizeOn(Records(map[], []), t0, call, "FINALIZED").0;
      var rs1 := AdjustOn(rs, t1, call, 3).0;
      var rs2 := AdjustOn(rs1, t2, call, 4).0;
      && call in rs2.finals && rs2.finals[call].total + DeltaSum(rs2.adjustments, call) == 3
      && Recomputed(t2, call) == 2
  {
    var t0, t1, t2 := LedgerOf(PRICED, call, 0.0, 0), LedgerOf(PRICED, call, 0.0, 1), LedgerOf(PRICED, call, 0.0, 2);
    LedgerIs(PRICED, call, 0.0, 0);
    LedgerIs(PRICED, call, 0.0, 1);
    LedgerIs(PRICED, call, 0.0, 2);
    NoCents();
    hide LedgerOf;
    hide Computed;
    hide Recomputed;
    hide ToCents;
    hide PlatformFee;
    var a, b := Adjustment(call, 3, 0, 1, 1), Adjustment(call, 4, 0, 2, 2);
    var rs := FinalizeOn(Records(map[], []), t0, call, "FINALIZED").0;
    assert rs.finals[call].total == 0;
    FirstAdjustment(call, rs, t1, a);
    FirstAdjustment(call, AdjustOn(rs, t1, call, 3).0, t2, b);
    hide AdjustOn;
    hide FinalizeOn;
    DeltaSnoc([], a, call);
    DeltaSnoc([] + [a], b, call);
    assert DeltaSum([], call) == 0;
    hide DeltaSum;
  }

  /** An adjustment for a source that has none. */
  lemma {:induction false} FirstAdjustment(call: string, rs: Records, t: Tables, a: Adjustment)
    requires call in t.calls && call in rs.finals && !Adjusted(rs.adjustments, call, a.source)
    requires a == Adjustment(call, a.source, rs.finals[call].total, Recomputed(t, call),
                             Recomputed(t, call) - rs.finals[call].total)
    ensures AdjustOn(rs, t, call, a.source).0 == rs.(adjustments := rs.adjustments + [a])
  {
    hide Recomputed;
    hide Adjusted;
  }

  lemma {:induction false} DeltaSnoc(adjustments: seq<Adjustment>, a: Adjustment, call: string)
    ensures DeltaSum(adjustments + [a], call) == DeltaSum(adjustments, call) + (if a.call == call then a.delta else 0)
  {
    assert (adjustments + [a])[..|adjustments|] == adjustments;
  }

  // --------------------------------------------------------------------- rates

  /** For every call with a recorded duration the final total is the ledger's total, to within two and a half cents. */
  ghost predicate AlwaysAgrees(c: Config) {
    forall xs, call :: Recorded(c, xs, call) ==> Agrees(c, xs, call)
  }

  /** A ledger of events whose durations are no less than nothing, and a call of it with a duration. */
  ghost predicate Recorded(c: Config, xs: seq<Consumed>, call: string) {
    && ProjectAll(c, NoRows(), xs).Some?
    && (forall k :: 0 <= k < |xs| && xs[k].event.kind.CallEnded? ==> xs[k].event.kind.duration >= 0.0)
    && BillingOf(ProjectAll(c, NoRows(), xs).value, call).duration != 0.0
  }

  ghost predicate Agrees(c: Config, xs: seq<Consumed>, call: string)
    requires ProjectAll(c, NoRows(), xs).Some?
  {
    var t := ProjectAll(c, NoRows(), xs).value;
    -2.5 <= Recomputed(t, call) as real - 100.0 * BillingOf(t, call).total <= 2.5
  }

  function Distance(rate: real): real {
    if rate < 0.05 then 0.05 - rate else rate - 0.05
  }

  /** A duration long enough for two different rates to bill four cents apart. */
  function Telling(rate: real): real
    requires rate != 0.05
  {
    60.0 * (0.04 / Distance(rate))
  }

  lemma {:induction false} RatesFourCentsApart(rate: real)
    requires rate != 0.05
    ensures var minutes := Telling(rate) / 60.0;
      100.0 * (minutes * 0.05) - 100.0 * (minutes * rate) == if rate < 0.05 then 4.0 else -4.0
    ensures Telling(rate) > 0.0
  {
    var gap := Distance(rate);
    var minutes := 0.04 / gap;
    assert minutes * gap == 0.04;
    assert minutes > 0.0;
    assert Telling(rate) / 60.0 == minutes;
    assert minutes * (0.05 - rate) == minutes * 0.05 - minutes * rate;
    assert minutes * (rate - 0.05) == minutes * rate - minutes * 0.05;
  }

  lemma {:induction false} StoryIsProjected(c: Config, call: string, duration: real)
    ensures ProjectAll(c, NoRows(), Story(call, duration, 0)) == ApplyAll(c, NoRows(), Story(call, duration, 0))
  {
    TwoFirsts(Started(call), Ended(call, duration));
    RepeatsLeaveNoTrace(c, Story(call, duration, 0));
  }

  lemma {:induction false} TwoFirsts(x: Consumed, y: Consumed)
    requires x.event.key != y.event.key
    ensures Firsts([x] + [y]) == [x] + [y] && Keys([x] + [y]) == {x.event.key, y.event.key}
  {
    assert [x] + [y] == [x, y] && [x, y][..1] == [x] && [x][..0] == [];
    assert Firsts([]) == [] && Keys([]) == {};
    assert Firsts([x]) == [x];
    assert Keys([x]) == {x.event.key};
    assert forall z :: z in [x, y] <==> z == x || z == y;
  }

  /** At any other rate a long enough call is billed four cents apart, fees alone. */
  lemma {:induction false} OtherRatesDisagree(c: Config, call: string)
    requires c.platformRate != 0.05
    ensures var xs := Story(call, Telling(c.platformRate), 0);
      Recorded(c, xs, call) && !Agrees(c, xs, call)
  {
    var d := Telling(c.platformRate);
    LedgerIs(c, call, d, 0);
    RatesFourCentsApart(c.platformRate);
    var xs := Story(call, d, 0);
    LedgerOfIs(c, call, d);
    assert PlatformFee(d) == d / 60.0 * 0.05 && Cost(d / 60.0, c.platformRate) == d / 60.0 * c.platformRate;
    assert forall k :: 0 <= k < |xs| && xs[k].event.kind.CallEnded? ==> xs[k].event.kind.duration == d;
    hide *;
    var t := ProjectAll(c, NoRows(), xs).value;
    LedgerTotal(c, xs, call);
    OnlyTheCallsRows(call, 0);
    CentBuckets(call, 0, Stt);
    NearestCent(PlatformFee(d), ToCents(PlatformFee(d)));
    FourCentsShow(PlatformFee(d), BillingOf(t, call).total, ToCents(PlatformFee(d)));
    NotAgreed(c, call, xs, t);
  }

  lemma {:induction false} LedgerOfIs(c: Config, call: string, duration: real)
    ensures ProjectAll(c, NoRows(), Story(call, duration, 0)) == Some(LedgerOf(c, call, duration, 0))
  {
    StoryIsProjected(c, call, duration);
    StoryIsApplied(c, call, duration, 0);
    hide ApplyAll;
    hide ProjectAll;
    hide Story;
  }

  lemma {:induction false} FourCentsShow(fee: real, total: real, billed: int)
    requires 100.0 * fee - 100.0 * total in {4.0, -4.0}
    requires billed as real - 0.5 <= fee * 100.0 <= billed as real + 0.5
    ensures !(-2.5 <= billed as real - 100.0 * total <= 2.5)
  {
  }

  lemma {:induction false} NotAgreed(c: Config, call: string, xs: seq<Consumed>, t: Tables)
    requires ProjectAll(c, NoRows(), xs) == Some(t) && BillingOf(t, call).duration != 0.0
    requires forall k :: 0 <= k < |xs| && xs[k].event.kind.CallEnded? ==> xs[k].event.kind.duration >= 0.0
    requires !(-2.5 <= Recomputed(t, call) as real - 100.0 * BillingOf(t, call).total <= 2.5)
    ensures Recorded(c, xs, call) && !Agrees(c, xs, call)
  {
    hide ProjectAll;
    hide Recomputed;
    hide BillingOf;
  }

  lemma {:induction false} RecordedAgrees(c: Config, xs: seq<Consumed>, call: string)
    requires c.platformRate == 0.05 && Recorded(c, xs, call)
    ensures Agrees(c, xs, call)
  {
    FinalAgreesWithTheLedger(c, xs, call);
    hide Recomputed;
    hide ProjectAll;
    hide BillingOf;
    hide Exact;
  }

  /** Finalization agrees with the ledger on every call of a recorded duration exactly at five cents a minute. */
  lemma {:induction false} AgreesIffFiveCents(c: Config)
    ensures AlwaysAgrees(c) <==> c.platformRate == 0.05
  {
    if c.platformRate == 0.05 {
      forall xs, call | Recorded(c, xs, call) ensures Agrees(c, xs, call) {
        RecordedAgrees(c, xs, call);
      }
    } else {
      OtherRatesDisagree(c, "call");
    }
    hide Recorded;
    hide Agrees;
  }

  // -------------------------------------------------------------- failed calls

  /** A call that failed after a minute. */
  function FailedAt(call: string, at: real): Consumed {
    Consumed(Event(3, "fail", call, "session", "transport", at, CallFailed), CALLS, 2)
  }

  /** The call failed, and an end is reported after that. */
  function FailedStory(call: string): seq<Consumed> {
    [Started(call)] + [FailedAt(call, 60.0)] + [Ended(call, 60.0)]
  }

  lemma {:induction false} FailedStoryIsApplied(c: Config, call: string)
    ensures ApplyAll(c, NoRows(), FailedStory(call)).Some?
    ensures ViewOf(ApplyAll(c, NoRows(), FailedStory(call)).value, call) ==
      CallView(Some(Failed), 0.0, 0.0, true, Some(Times(0.0, Some(60.0))))
  {
    ApplyNone(c, call);
    hide ApplyAll;
    hide Apply;
    hide ViewOf;
    hide Cost;
    hide NoRows;
    AppliesWhen(c, NoRows(), Started(call));
    assert [] + [Started(call)] == [Started(call)];
    ApplySnoc(c, [], Started(call));
    ApplyMoves(c, NoRows(), Started(call), call);
    var t := ApplyAll(c, NoRows(), [Started(call)]).value;
    AppliesWhen(c, t, FailedAt(call, 60.0));
    ApplySnoc(c, [Started(call)], FailedAt(call, 60.0));
    ApplyMoves(c, t, FailedAt(call, 60.0), call);
    var t' := ApplyAll(c, NoRows(), [Started(call)] + [FailedAt(call, 60.0)]).value;
    AppliesWhen(c, t', Ended(call, 60.0));
    ApplySnoc(c, [Started(call)] + [FailedAt(call, 60.0)], Ended(call, 60.0));
    ApplyMoves(c, t', Ended(call, 60.0), call);
  }

  lemma {:induction false} FailedStoryIsAllNew(call: string)
    ensures Firsts(FailedStory(call)) == FailedStory(call)
  {
    var xs := [Started(call)] + [FailedAt(call, 60.0)];
    TwoFirsts(Started(call), FailedAt(call, 60.0));
    assert (xs + [Ended(call, 60.0)])[..|xs|] == xs;
    assert Ended(call, 60.0).event.key !in Keys(xs);
  }

  lemma {:induction false} FailedStoryIsProjected(c: Config, call: string)
    ensures ProjectAll(c, NoRows(), FailedStory(call)) == ApplyAll(c, NoRows(), FailedStory(call))
  {
    FailedStoryIsAllNew(call);
    RepeatsLeaveNoTrace(c, FailedStory(call));
    hide FailedStory;
  }

  /** The end of the failed call is still reported, so its finalization is started. */
  lemma {:induction false} ItsEndIsReported(call: string)
    ensures Projector.Report({}, {}, FailedStory(call)).callEnded == [Ended(call, 60.0)]
  {
    FailedStoryIsAllNew(call);
    assert [] + FailedStory(call) == FailedStory(call) && Keys([]) == {} && Firsts([]) == [];
    Projector.InsertedAreTheFirsts([], FailedStory(call));
    assert Projector.Inserted({}, FailedStory(call)) == FailedStory(call);
    hide Projector.Inserted;
    hide Firsts;
    EndsSnoc([], Started(call));
    EndsSnoc([Started(call)], FailedAt(call, 60.0));
    EndsSnoc([Started(call)] + [FailedAt(call, 60.0)], Ended(call, 60.0));
    assert Projector.CallEnds([]) == [] && [] + [Started(call)] == [Started(call)];
    hide Projector.CallEnds;
  }

  lemma {:induction false} EndsSnoc(xs: seq<Consumed>, x: Consumed)
    ensures Projector.CallEnds(xs + [x]) == Projector.CallEnds(xs) + (if x.event.kind.CallEnded? then [x] else [])
  {
    assert (xs + [x])[..|xs|] == xs;
  }

  lemma {:induction false} FailedStoryCostsNothing(c: Config, call: string)
    ensures ApplyAll(c, NoRows(), FailedStory(call)).Some?
    ensures ApplyAll(c, NoRows(), FailedStory(call)).value.usage == []
  {
    var xs := FailedStory(call);
    FailedStoryIsApplied(c, call);
    assert WellFormed(xs);
    RowsAreTheEvents(c, xs);
    NoUsageOf(c, xs);
    hide ApplyAll;
    hide RollupsAddUp;
    hide AllUsage;
    hide AllUsageEvents;
  }

  lemma {:induction false} NoUsageOf(c: Config, xs: seq<Consumed>)
    requires forall k :: 0 <= k < |xs| ==> !xs[k].event.kind.UsageRecorded?
    ensures AllUsage(c, xs) == []
  {
    if xs != [] {
      NoUsageOf(c, xs[..|xs| - 1]);
    }
  }

  lemma {:induction false} FailedLedgerIs(c: Config, call: string) returns (t: Tables)
    ensures ProjectAll(c, NoRows(), FailedStory(call)) == Some(t) && t.usage == CentRows(call, 0)
    ensures ViewOf(t, call) == CallView(Some(Failed), 0.0, 0.0, true, Some(Times(0.0, Some(60.0))))
  {
    FailedStoryIsProjected(c, call);
    FailedStoryIsApplied(c, call);
    FailedStoryCostsNothing(c, call);
    hide FailedStory;
    hide ProjectAll;
    hide ApplyAll;
    hide ViewOf;
    t := ProjectAll(c, NoRows(), FailedStory(call)).value;
  }

  /**
   * At every rate the ledger has nothing for a failed call; the end that comes after it has no effect there but is
   * reported, and the final record bills the minute the call lasted.
   */
  lemma {:induction false} FailedCallIsBilled(c: Config, call: string)
    ensures ProjectAll(c, NoRows(), FailedStory(call)).Some?
    ensures var t := ProjectAll(c, NoRows(), FailedStory(call)).value;
      && call in t.billing && t.billing[call].finalized && t.billing[call].total == 0.0
      && var (records, r) := FinalizeOn(Records(map[], []), t, call, "FINALIZED");
         r.Some? && call in records.finals && records.finals[call].total == 5
    ensures Projector.Report({}, {}, FailedStory(call)).callEnded == [Ended(call, 60.0)]
  {
    hide *;
    ItsEndIsReported(call);
    var t := FailedLedgerIs(c, call);
    LedgerTotal(c, FailedStory(call), call);
    FailedView(t, call);
    NothingOwed(t, call, c.platformRate);
    MinuteBilled(t, call);
    OnlyRecord(t, call, "FINALIZED");
  }

  lemma {:induction false} NothingOwed(t: Tables, call: string, rate: real)
    requires t.usage == CentRows(call, 0) && BillingOf(t, call).duration == 0.0
    requires BillingOf(t, call).total ==
      Cost(BillingOf(t, call).duration / 60.0, rate) + TotalCost(UsageFor(t.usage, call))
    ensures BillingOf(t, call).total == 0.0
  {
    OnlyTheCallsRows(call, 0);
    CentBuckets(call, 0, Stt);
    NoFee(rate);
    hide BillingOf;
    hide TotalCost;
  }

  lemma {:induction false} MinuteBilled(t: Tables, call: string)
    requires t.usage == CentRows(call, 0) && DurationIn(ViewOf(t, call)) == 60.0
    ensures Computed(t, call, "FINALIZED").total == 5
  {
    DurationIsInView(t, call);
    OnlyTheCallsRows(call, 0);
    CentCosts(call, 0);
    BillOf(t, call, 60.0, "FINALIZED");
    NearestCent(PlatformFee(60.0), 5);
    SumOf(5, 0);
    hide Computed;
    hide DurationIn;
    hide DurationOf;
    hide ViewOf;
    hide CentRows;
    hide CostsOf;
    hide ToCents;
  }

  lemma {:induction false} FailedView(t: Tables, call: string)
    requires ViewOf(t, call) == CallView(Some(Failed), 0.0, 0.0, true, Some(Times(0.0, Some(60.0))))
    ensures call in t.calls && call in t.billing && t.billing[call] == BillingOf(t, call)
    ensures BillingOf(t, call).finalized && BillingOf(t, call).duration == 0.0
    ensures DurationIn(ViewOf(t, call)) == 60.0
  {
  }

  /** The first record of a known call is what was computed for it. */
  lemma {:induction false} OnlyRecord(t: Tables, call: string, status: string)
    requires call in t.calls
    ensures var (records, r) := FinalizeOn(Records(map[], []), t, call, status);
      r.Some? && call in records.finals && records.finals[call] == Computed(t, call, status)
  {
    hide Computed;
  }
}
