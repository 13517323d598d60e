/** What every reachable world of the consumer group promises about its ledger. */
module DeliveryLaws {
  import opened Options
  import opened LedgerTables
  import opened ExactlyOnce
  import opened Delivery
  import opened DeliverySafety

  /** The deliveries of one partition. */
  function On(xs: seq<Consumed>, p: Partition): seq<Consumed> {
    if xs == [] then []
    else On(xs[..|xs| - 1], p) + (if xs[|xs| - 1].partition == p then [xs[|xs| - 1]] else [])
  }

  /** The first `n` records of a partition. */
  function Prefix(logs: map<Partition, seq<Event>>, p: Partition, n: nat): seq<Consumed> {
    Records(Log(logs, p), p, 0, n)
  }

  /** Events are keyed by call and routed by type, so a key stays on one partition. */
  ghost predicate KeysStay(logs: map<Partition, seq<Event>>) {
    forall p, q, i, j :: 0 <= i < |Log(logs, p)| && 0 <= j < |Log(logs, q)| && Log(logs, p)[i].key == Log(logs, q)[j].key
      ==> p == q
  }

  /** A watermark is never ahead of the transactions, and a committed offset is never ahead of a watermark. */
  lemma {:induction false} WatermarksAreSound(c: Config, batchSize: nat, workers: nat, run: seq<Action>, p: Partition, o: nat)
    ensures var w := Run(c, batchSize, workers, run);
      && CommittedOffset(w, p) <= Next(w.db.watermarks, p) <= |Log(w.logs, p)|
      && (p in w.db.watermarks && o <= w.db.watermarks[p] ==>
            o < |Log(w.logs, p)| && Consumed(Log(w.logs, p)[o], p, o) in w.projected
            && Log(w.logs, p)[o].key in w.db.tables.keys)
  {
    var w := Run(c, batchSize, workers, run);
    RunKeepsInv(c, batchSize, workers, run);
    WatermarksAreInTheLogs(w.logs, w.projected, p);
    if o < Next(w.db.watermarks, p) {
      BelowWatermark(w.logs, w.projected, p, o);
      ProjectedKeys(c, w.projected);
    }
  }

  lemma {:induction false} PrefixSnoc(logs: map<Partition, seq<Event>>, p: Partition, n: nat)
    requires n < |Log(logs, p)|
    ensures Prefix(logs, p, n + 1) == Prefix(logs, p, n) + [Consumed(Log(logs, p)[n], p, n)]
  {
  }

  lemma {:induction false} GenuineSplit(logs: map<Partition, seq<Event>>, xs: seq<Consumed>, x: Consumed)
    requires Genuine(logs, xs + [x])
    ensures Genuine(logs, xs) && x.offset < |Log(logs, x.partition)| && x.event == Log(logs, x.partition)[x.offset]
  {
    hide Log;
    assert forall k :: 0 <= k < |xs| ==> (xs + [x])[k] == xs[k];
    assert (xs + [x])[|xs|] == x;
  }

  /** Another delivery of the same key was a lower record of the same partition. */
  lemma {:induction false} SameKeySamePartition(logs: map<Partition, seq<Event>>, xs: seq<Consumed>, x: Consumed, k: nat)
    requires Genuine(logs, xs) && KeysStay(logs) && k < |xs| && xs[k].event.key == x.event.key
    requires x.offset < |Log(logs, x.partition)| && x.event == Log(logs, x.partition)[x.offset]
    ensures xs[k].partition == x.partition && xs[k].offset < Next(Advance(map[], xs), x.partition)
  {
    AdvanceNext(map[], xs, x.partition);
    hide Advance;
    hide Log;
  }

  lemma {:induction false} PrefixHolds(logs: map<Partition, seq<Event>>, p: Partition, n: nat, o: nat)
    requires o < n <= |Log(logs, p)|
    ensures |Prefix(logs, p, n)| == n && Prefix(logs, p, n)[o] == Consumed(Log(logs, p)[o], p, o)
  {
    hide Log;
  }

  lemma {:induction false} PrefixLength(logs: map<Partition, seq<Event>>, p: Partition, n: nat)
    requires n <= |Log(logs, p)|
    ensures |Prefix(logs, p, n)| == n
  {
  }

  /** A key was delivered exactly when a record below the watermark of its partition has it. */
  lemma {:induction false} DeliveredKeys(logs: map<Partition, seq<Event>>, xs: seq<Consumed>, x: Consumed)
    requires Genuine(logs, xs + [x]) && Gapless(map[], xs) && KeysStay(logs)
    ensures x.event.key in Keys(xs) <==> x.event.key in Keys(Prefix(logs, x.partition, Next(Advance(map[], xs), x.partition)))
  {
    var p := x.partition;
    var n := Next(Advance(map[], xs), p);
    var prefix := Prefix(logs, p, n);
    GenuineSplit(logs, xs, x);
    WatermarksAreInTheLogs(logs, xs, p);
    PrefixLength(logs, p, n);
    hide Genuine;
    hide KeysStay;
    hide Gapless;
    hide Advance;
    hide Next;
    hide Prefix;
    hide Log;
    if k :| 0 <= k < |xs| && xs[k].event.key == x.event.key {
      SameKeySamePartition(logs, xs, x, k);
      PrefixHolds(logs, p, n, xs[k].offset);
      assert xs[k].event == Log(logs, p)[xs[k].offset] by {
        GenuineAt(logs, xs, k);
      }
      assert prefix[xs[k].offset].event.key in Keys(prefix);
    } else if o :| 0 <= o < |prefix| && prefix[o].event.key == x.event.key {
      PrefixHolds(logs, p, n, o);
      BelowWatermark(logs, xs, p, o);
      assert false;
    } else {
    }
  }

  lemma {:induction false} GenuineAt(logs: map<Partition, seq<Event>>, xs: seq<Consumed>, k: nat)
    requires Genuine(logs, xs) && k < |xs|
    ensures xs[k].offset < |Log(logs, xs[k].partition)| && xs[k].event == Log(logs, xs[k].partition)[xs[k].offset]
  {
    hide Log;
  }

  lemma {:induction false} KeyIn(xs: seq<Consumed>, k: nat)
    requires k < |xs|
    ensures xs[k].event.key in Keys(xs)
  {
  }

  lemma {:induction false} OnSnoc(xs: seq<Consumed>, x: Consumed, p: Partition)
    ensures On(xs + [x], p) == On(xs, p) + (if x.partition == p then [x] else [])
  {
    assert (xs + [x])[..|xs|] == xs;
  }

  lemma {:induction false} FirstsSnoc(xs: seq<Consumed>, x: Consumed)
    ensures Firsts(xs + [x]) == if x.event.key in Keys(xs) then Firsts(xs) else Firsts(xs) + [x]
  {
    assert (xs + [x])[..|xs|] == xs;
    assert Firsts(xs) + [] == Firsts(xs);
  }

  lemma {:induction false} FirstsStep(logs: map<Partition, seq<Event>>, front: seq<Consumed>, x: Consumed)
    requires Genuine(logs, front + [x]) && Gapless(map[], front) && KeysStay(logs)
    requires x.offset <= Next(Advance(map[], front), x.partition)
    requires On(Firsts(front), x.partition) == Firsts(Prefix(logs, x.partition, Next(Advance(map[], front), x.partition)))
    ensures On(Firsts(front + [x]), x.partition)
      == Firsts(Prefix(logs, x.partition, MaxNat(Next(Advance(map[], front), x.partition), x.offset + 1)))
  {
    hide Genuine;
    hide KeysStay;
    hide Gapless;
    hide Advance;
    hide Next;
    hide Prefix;
    hide On;
    hide Firsts;
    hide Keys;
    hide Log;
    var p, n := x.partition, Next(Advance(map[], front), x.partition);
    var prefix := Prefix(logs, p, n);
    GenuineSplit(logs, front, x);
    DeliveredKeys(logs, front, x);
    WatermarksAreInTheLogs(logs, front, p);
    FirstsSnoc(front, x);
    OnSnoc(Firsts(front), x, p);
    if x.offset == n {
      PrefixSnoc(logs, p, n);
      FirstsSnoc(prefix, x);
    } else {
      PrefixHolds(logs, p, n, x.offset);
      KeyIn(prefix, x.offset);
    }
  }

  lemma {:induction false} GaplessSnoc(front: seq<Consumed>, x: Consumed)
    requires Gapless(map[], front + [x])
    ensures Gapless(map[], front) && x.offset <= Next(Advance(map[], front), x.partition)
  {
    assert (front + [x])[..|front|] == front;
    hide Advance;
    hide Next;
  }

  lemma {:induction false} NextSnoc(front: seq<Consumed>, x: Consumed, p: Partition)
    ensures Next(Advance(map[], front + [x]), p) ==
      (if x.partition == p then MaxNat(Next(Advance(map[], front), p), x.offset + 1) else Next(Advance(map[], front), p))
  {
    NextAfter(map[], front + [x], p);
    assert (front + [x])[..|front|] == front;
    hide Advance;
    hide Next;
  }

  lemma {:induction false} FirstsFollowOn(logs: map<Partition, seq<Event>>, front: seq<Consumed>, x: Consumed, p: Partition)
    requires Genuine(logs, front + [x]) && Gapless(map[], front + [x]) && KeysStay(logs)
    requires On(Firsts(front), p) == Firsts(Prefix(logs, p, Next(Advance(map[], front), p)))
    ensures On(Firsts(front + [x]), p) == Firsts(Prefix(logs, p, Next(Advance(map[], front + [x]), p)))
  {
    hide *;
    NextSnoc(front, x, p);
    GaplessSnoc(front, x);
    if x.partition == p {
      FirstsStep(logs, front, x);
    } else {
      FirstsSnoc(front, x);
      OnSnoc(Firsts(front), x, p);
    }
  }

  lemma {:induction false} NothingFollowsNothing(logs: map<Partition, seq<Event>>, p: Partition)
    ensures On(Firsts([]), p) == Firsts(Prefix(logs, p, Next(Advance(map[], []), p)))
  {
    assert Prefix(logs, p, 0) == [];
  }

  /** The first deliveries of a partition are the firsts of its log up to the watermark, in log order. */
  lemma {:induction false} FirstsFollowTheLog(logs: map<Partition, seq<Event>>, xs: seq<Consumed>, p: Partition)
    requires Genuine(logs, xs) && Gapless(map[], xs) && KeysStay(logs)
    ensures On(Firsts(xs), p) == Firsts(Prefix(logs, p, Next(Advance(map[], xs), p)))
  {
    hide *;
    if xs == [] {
      NothingFollowsNothing(logs, p);
    } else {
      var front, last := xs[..|xs| - 1], xs[|xs| - 1];
      assert front + [last] == xs;
      GenuineSplit(logs, front, last);
      GaplessSnoc(front, last);
      FirstsFollowTheLog(logs, front, p);
      FirstsFollowOn(logs, front, last, p);
    }
  }

  /**
   * Exactly once: whatever was polled, projected, lost and replayed, the tables are the effect of one pass over
   * the first deliveries, and those are, partition by partition, the first record of every key up to the watermark.
   */
  lemma {:induction false} LedgerIsTheLogsOnce(c: Config, batchSize: nat, workers: nat, run: seq<Action>)
    ensures var w := Run(c, batchSize, workers, run);
      && ApplyAll(c, NoRows(), Firsts(w.projected)) == Some(w.db.tables)
      && (KeysStay(w.logs) ==>
            forall p :: On(Firsts(w.projected), p) == Firsts(Prefix(w.logs, p, Next(w.db.watermarks, p))))
  {
    var w := Run(c, batchSize, workers, run);
    RunKeepsInv(c, batchSize, workers, run);
    RepeatsLeaveNoTrace(c, w.projected);
    if KeysStay(w.logs) {
      forall p ensures On(Firsts(w.projected), p) == Firsts(Prefix(w.logs, p, Next(w.db.watermarks, p))) {
        FirstsFollowTheLog(w.logs, w.projected, p);
      }
    }
  }

  // ----------------------------------------------------------------- batching

  /** A polling worker holds less than a batch, and no barrier; a batch is never larger than its limit. */
  ghost predicate Prompt(batchSize: nat, v: Worker) {
    && |v.held| <= MaxNat(1, batchSize)
    && (v.phase == Polling ==> !BarrierIn(v.held) && (v.held == [] || |v.held| < batchSize))
  }

  lemma {:induction false} BarrierConcat(xs: seq<Consumed>, ys: seq<Consumed>)
    ensures BarrierIn(xs + ys) ==> BarrierIn(xs) || BarrierIn(ys)
  {
    assert forall k :: |xs| <= k < |xs + ys| ==> (xs + ys)[k] == ys[k - |xs|];
  }

  lemma {:induction false} PollIsPrompt(batchSize: nat, v: Worker, records: seq<Consumed>, positions: Offsets, timedOut: bool)
    requires Prompt(batchSize, v) && v.phase == Polling
    requires |records| <= MaxNat(1, if batchSize > |v.held| then batchSize - |v.held| else 0)
    ensures Prompt(batchSize, Worker(positions, v.held + records, AfterPoll(batchSize, v.held, records, timedOut)))
  {
    BarrierConcat(v.held, records);
    hide BarrierIn;
  }

  /** A barrier never waits in a buffer for more events: the poll that reads it hands its batch over. */
  lemma {:induction false} BarriersDoNotWait(c: Config, batchSize: nat, workers: nat, run: seq<Action>, i: nat)
    requires i < |Run(c, batchSize, workers, run).workers|
    ensures Prompt(batchSize, Run(c, batchSize, workers, run).workers[i])
  {
    if run != [] {
      hide ProjectBatch;
      hide CommitOffsets;
      var w, a := Run(c, batchSize, workers, run[..|run| - 1]), run[|run| - 1];
      assert |w.workers| == |Act(c, batchSize, w, a).workers|;
      BarriersDoNotWait(c, batchSize, workers, run[..|run| - 1], i);
      if a.Poll? && a.worker == i && w.workers[i].phase == Polling {
        var v := w.workers[i];
        var (records, positions) := FetchAll(w, v.positions, a.fetches);
        if |records| <= MaxNat(1, if batchSize > |v.held| then batchSize - |v.held| else 0) {
          PollIsPrompt(batchSize, v, records, positions, a.timedOut);
        }
      }
    }
  }

  // ----------------------------------------------------------------- starting over

  /** The action makes the worker forget how far it had read the partition. */
  predicate Resets(c: Config, w: World, a: Action, i: nat, p: Partition)
    requires i < |w.workers|
  {
    || a == Crash(i)
    || (a.Rebalance? && a.worker == i && p in a.revoked)
    || (a.Project? && a.worker == i && w.workers[i].phase == Projecting
        && LedgerTables.ProjectBatch(c, w.db, w.workers[i].held) == None)
  }

  lemma {:induction false} FetchesGoOn(w: World, positions: Offsets, fetches: seq<Fetch>, p: Partition)
    ensures var after := FetchAll(w, positions, fetches).1;
      p in positions ==> p in after && after[p] >= positions[p]
  {
    if fetches != [] {
      FetchesGoOn(w, positions, fetches[..|fetches| - 1], p);
    }
  }

  /** Where the worker reads next: from the commit after a reset, and else as far as its own polls have moved it. */
  ghost predicate ReadsOn(c: Config, w: World, a: Action, w': World, i: nat, p: Partition)
    requires i < |w.workers| == |w'.workers|
  {
    var (before, after) := (w.workers[i].positions, w'.workers[i].positions);
    if Resets(c, w, a, i, p) then Position(w', after, p) == CommittedOffset(w, p)
    else if a.Poll? && a.worker == i then p in before ==> p in after && after[p] >= before[p]
    else (p in after <==> p in before) && (p in before ==> after[p] == before[p])
  }

  lemma {:induction false} ActReadsOn(c: Config, batchSize: nat, w: World, a: Action, i: nat, p: Partition)
    requires i < |w.workers|
    ensures |Act(c, batchSize, w, a).workers| == |w.workers|
    ensures ReadsOn(c, w, a, Act(c, batchSize, w, a), i, p)
  {
    if a.Poll? && a.worker == i {
      FetchesGoOn(w, w.workers[i].positions, a.fetches, p);
    }
    hide FetchAll;
    hide CommitOffsets;
    hide AfterPoll;
    hide LedgerTables.ProjectBatch;
  }

  /**
   * A worker that crashes, cannot project its batch or loses the partition reads it from the committed offset again;
   * otherwise only its own polls move where it reads, and only forward.
   */
  lemma {:induction false} ResetsReadFromTheCommit(
    c: Config, batchSize: nat, workers: nat, run: seq<Action>, a: Action, i: nat, p: Partition)
    requires i < |Run(c, batchSize, workers, run).workers|
    ensures |Run(c, batchSize, workers, run + [a]).workers| == |Run(c, batchSize, workers, run).workers|
    ensures ReadsOn(c, Run(c, batchSize, workers, run), a, Run(c, batchSize, workers, run + [a]), i, p)
  {
    assert (run + [a])[..|run|] == run;
    ActReadsOn(c, batchSize, Run(c, batchSize, workers, run), a, i, p);
    hide Act;
    hide ReadsOn;
  }
}
