/** Rounding dollars to cents, and the component buckets of a call's usage. */
module Cents {
  import opened LedgerTables

  /** Half a cent rounds away from zero. */
  function ToCents(dollars: real): int {
    if dollars >= 0.0 then (dollars * 100.0 + 0.5).Floor else -((-dollars * 100.0 + 0.5).Floor)
  }

  /** The nearest number of cents, ties going away from zero: this determines the rounding. */
  lemma {:induction false} NearestCent(dollars: real, n: int)
    ensures n == ToCents(dollars) <==>
      if dollars >= 0.0 then n as real - 0.5 <= dollars * 100.0 < n as real + 0.5
      else n as real - 0.5 < dollars * 100.0 <= n as real + 0.5
  {
    var x := if dollars >= 0.0 then dollars * 100.0 + 0.5 else -dollars * 100.0 + 0.5;
    var m := if dollars >= 0.0 then n else -n;
    FloorIs(x, m);
  }

  lemma {:induction false} FloorIs(x: real, n: int)
    ensures n == x.Floor <==> n as real <= x < n as real + 1.0
  {
    if n as real <= x < n as real + 1.0 {
      assert x.Floor as real <= x < x.Floor as real + 1.0;
    }
  }

  lemma {:induction false} CentsGrow(a: real, b: real)
    requires a <= b
    ensures ToCents(a) <= ToCents(b)
  {
    NearestCent(a, ToCents(a));
    NearestCent(b, ToCents(b));
  }

  /** A refund rounds like the charge it undoes. */
  lemma {:induction false} RefundsMirrorCharges(dollars: real)
    ensures ToCents(-dollars) == -ToCents(dollars)
  {
    NearestCent(dollars, ToCents(dollars));
    NearestCent(-dollars, -ToCents(dollars));
  }

  // ---------------------------------------------------------------- buckets

  datatype Component = Stt | Llm | Tts | Telephony

  predicate StartsWith(s: string, prefix: string) {
    prefix <= s
  }

  predicate Contains(s: string, part: string) {
    exists k :: 0 <= k <= |s| && part <= s[k..]
  }

  function ComponentOf(r: UsageRow): Component {
    if r.stage == "stt" || StartsWith(r.usageType, "audio_") then Stt
    else if r.stage == "tts" || StartsWith(r.usageType, "input_text") then Tts
    else if r.stage == "llm" || Contains(r.usageType, "token") then Llm
    else if r.stage == "transport" || r.stage == "telephony" || Contains(r.usageType, "telephony") then Telephony
    else Llm
  }

  /** Which part of the bill a row goes to: its stage and its type decide, speech-to-text first, then speech. */
  lemma {:induction false} ComponentsAre(r: UsageRow)
    ensures var heard := r.stage == "stt" || "audio_" <= r.usageType;
      var spoken := r.stage == "tts" || "input_text" <= r.usageType;
      var written := r.stage == "llm" || Contains(r.usageType, "token");
      var carried := r.stage in {"transport", "telephony"} || Contains(r.usageType, "telephony");
      && (ComponentOf(r) == Stt <==> heard)
      && (ComponentOf(r) == Tts <==> spoken && !heard)
      && (ComponentOf(r) == Telephony <==> carried && !heard && !spoken && !written)
      && (ComponentOf(r) == Llm <==> !heard && !spoken && (written || !carried))
  {
    hide Contains;
  }

  function BucketCost(rows: seq<UsageRow>, component: Component): real {
    if rows == [] then 0.0
    else
      var r := rows[|rows| - 1];
      BucketCost(rows[..|rows| - 1], component) + (if ComponentOf(r) == component then r.cost else 0.0)
  }

  function TotalCost(rows: seq<UsageRow>): real {
    if rows == [] then 0.0 else TotalCost(rows[..|rows| - 1]) + rows[|rows| - 1].cost
  }

  /** Each row is billed in one bucket and no other. */
  lemma {:induction false} BucketsPartitionTheCost(rows: seq<UsageRow>)
    ensures BucketCost(rows, Stt) + BucketCost(rows, Llm) + BucketCost(rows, Tts) + BucketCost(rows, Telephony)
      == TotalCost(rows)
  {
    if rows != [] {
      hide Contains;
      BucketsPartitionTheCost(rows[..|rows| - 1]);
    }
  }

  datatype Costs = Costs(stt: int, llm: int, tts: int, telephony: int)

  function CostsOf(rows: seq<UsageRow>): Costs {
    Costs(ToCents(BucketCost(rows, Stt)), ToCents(BucketCost(rows, Llm)),
          ToCents(BucketCost(rows, Tts)), ToCents(BucketCost(rows, Telephony)))
  }

  /** The nearest number of cents, a half going away from zero. */
  predicate InCents(dollars: real, n: int) {
    if dollars >= 0.0 then n as real - 0.5 <= dollars * 100.0 < n as real + 0.5
    else n as real - 0.5 < dollars * 100.0 <= n as real + 0.5
  }

  /** Each part of the bill is the sum of its own rows, rounded once. */
  lemma {:induction false} PartsAreRounded(rows: seq<UsageRow>, part: int)
    ensures part == CostsOf(rows).stt <==> InCents(BucketCost(rows, Stt), part)
    ensures part == CostsOf(rows).llm <==> InCents(BucketCost(rows, Llm), part)
    ensures part == CostsOf(rows).tts <==> InCents(BucketCost(rows, Tts), part)
    ensures part == CostsOf(rows).telephony <==> InCents(BucketCost(rows, Telephony), part)
  {
    NearestCent(BucketCost(rows, Stt), part);
    NearestCent(BucketCost(rows, Llm), part);
    NearestCent(BucketCost(rows, Tts), part);
    NearestCent(BucketCost(rows, Telephony), part);
    hide ToCents;
    hide BucketCost;
  }

  /** The loop that drops each row into a bucket, and the rounding of the four sums. */
  method ComponentCosts(usage: seq<UsageRow>) returns (costs: Costs)
    ensures costs == CostsOf(usage)
  {
    var stt, llm, tts, telephony := 0.0, 0.0, 0.0, 0.0;
    hide Contains;
    for k := 0 to |usage|
      invariant stt == BucketCost(usage[..k], Stt) && llm == BucketCost(usage[..k], Llm)
      invariant tts == BucketCost(usage[..k], Tts) && telephony == BucketCost(usage[..k], Telephony)
    {
      assert usage[..k + 1][..k] == usage[..k];
      var row := usage[k];
      if row.stage == "stt" || StartsWith(row.usageType, "audio_") {
        stt := stt + row.cost;
      } else if row.stage == "tts" || StartsWith(row.usageType, "input_text") {
        tts := tts + row.cost;
      } else if row.stage == "llm" || Contains(row.usageType, "token") {
        llm := llm + row.cost;
      } else if row.stage == "transport" || row.stage == "telephony" || Contains(row.usageType, "telephony") {
        telephony := telephony + row.cost;
      } else {
        llm := llm + row.cost;
      }
    }
    assert usage[..|usage|] == usage;
    return Costs(ToCents(stt), ToCents(llm), ToCents(tts), ToCents(telephony));
  }

  // ------------------------------------------------------------------ totals

  function Total(platform: int, costs: Costs): int {
    platform + costs.stt + costs.llm + costs.tts + costs.telephony
  }

  /** What a call is billed in cents for its platform fee and its usage rows. */
  function Billed(fee: real, rows: seq<UsageRow>): int {
    Total(ToCents(fee), CostsOf(rows))
  }

  /** Five roundings: the bill is within two and a half cents of the exact cost. */
  lemma {:induction false} BilledIsClose(fee: real, rows: seq<UsageRow>)
    ensures -2.5 <= Billed(fee, rows) as real - 100.0 * (fee + TotalCost(rows)) <= 2.5
  {
    BucketsPartitionTheCost(rows);
    NearestCent(fee, ToCents(fee));
    forall component ensures -0.5 <= ToCents(BucketCost(rows, component)) as real - BucketCost(rows, component) * 100.0 <= 0.5 {
      NearestCent(BucketCost(rows, component), ToCents(BucketCost(rows, component)));
    }
    hide ToCents;
    hide BucketCost;
    hide TotalCost;
    assert forall component :: component in {Stt, Llm, Tts, Telephony} ==>
      -0.5 <= ToCents(BucketCost(rows, component)) as real - BucketCost(rows, component) * 100.0 <= 0.5;
  }

  lemma {:induction false} OneMoreRow(rows: seq<UsageRow>, r: UsageRow, component: Component)
    ensures BucketCost(rows + [r], component) == BucketCost(rows, component) + (if ComponentOf(r) == component then r.cost else 0.0)
    ensures TotalCost(rows + [r]) == TotalCost(rows) + r.cost
  {
    assert (rows + [r])[..|rows|] == rows;
    hide ComponentOf;
  }

  function HalfCent(stage: string): UsageRow {
    UsageRow(0, "call", stage, "unit", 1.0, 0.005)
  }

  /** Half a cent of usage in each component. */
  function HalfCents(): seq<UsageRow> {
    [] + [HalfCent("stt")] + [HalfCent("llm")] + [HalfCent("tts")] + [HalfCent("telephony")]
  }

  lemma {:induction false} HalfCentStages()
    ensures ComponentOf(HalfCent("stt")) == Stt && ComponentOf(HalfCent("llm")) == Llm
    ensures ComponentOf(HalfCent("tts")) == Tts && ComponentOf(HalfCent("telephony")) == Telephony
  {
    NoTokenInUnit();
    hide Contains;
  }

  lemma {:induction false} HalfCentBuckets(component: Component)
    ensures BucketCost(HalfCents(), component) == 0.005 && TotalCost(HalfCents()) == 0.02
  {
    HalfCentStages();
    assert BucketCost([], component) == 0.0 && TotalCost([]) == 0.0;
    hide BucketCost;
    hide TotalCost;
    hide ComponentOf;
    OneMoreRow([], HalfCent("stt"), component);
    OneMoreRow([] + [HalfCent("stt")], HalfCent("llm"), component);
    OneMoreRow([] + [HalfCent("stt")] + [HalfCent("llm")], HalfCent("tts"), component);
    OneMoreRow([] + [HalfCent("stt")] + [HalfCent("llm")] + [HalfCent("tts")], HalfCent("telephony"), component);
  }

  /** And no closer in general: half a cent in every part is billed as a cent each. */
  lemma {:induction false} BilledCanBeThatFar()
    ensures Billed(0.005, HalfCents()) as real - 100.0 * (0.005 + TotalCost(HalfCents())) == 2.5
  {
    NearestCent(0.005, 1);
    HalfCentBuckets(Stt);
    HalfCentBuckets(Llm);
    HalfCentBuckets(Tts);
    HalfCentBuckets(Telephony);
    hide ToCents;
    hide BucketCost;
    hide TotalCost;
    hide HalfCents;
  }

  lemma {:induction false} NoTokenInUnit()
    ensures !Contains("unit", "token")
  {
    forall k | 0 <= k <= |"unit"| ensures !("token" <= "unit"[k..]) {
      assert |"unit"[k..]| < |"token"|;
    }
  }

  lemma {:induction false} MoreRowsCostMore(rows: seq<UsageRow>, more: seq<UsageRow>, component: Component)
    requires forall k :: 0 <= k < |more| ==> more[k].cost >= 0.0
    ensures BucketCost(rows, component) <= BucketCost(rows + more, component)
  {
    if more == [] {
      assert rows + more == rows;
    } else {
      assert (rows + more)[..|rows + more| - 1] == rows + more[..|more| - 1];
      hide ComponentOf;
      MoreRowsCostMore(rows, more[..|more| - 1], component);
    }
  }

  /** Rows of non-negative cost never lower a bill. */
  lemma {:induction false} BilledGrows(fee: real, rows: seq<UsageRow>, more: seq<UsageRow>)
    requires forall k :: 0 <= k < |more| ==> more[k].cost >= 0.0
    ensures Billed(fee, rows) <= Billed(fee, rows + more)
  {
    forall component ensures ToCents(BucketCost(rows, component)) <= ToCents(BucketCost(rows + more, component)) {
      MoreRowsCostMore(rows, more, component);
      CentsGrow(BucketCost(rows, component), BucketCost(rows + more, component));
    }
    hide ToCents;
    hide BucketCost;
    assert forall component :: component in {Stt, Llm, Tts, Telephony} ==>
      ToCents(BucketCost(rows, component)) <= ToCents(BucketCost(rows + more, component));
  }
}
