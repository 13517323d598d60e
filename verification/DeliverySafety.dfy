/** What crashes, replays, lost replies and rebalances cannot break. */
module DeliverySafety {
  import opened Options
  import opened LedgerTables
  import opened ExactlyOnce
  import opened Delivery

  /** Delivered records are records of the logs. */
  ghost predicate Genuine(logs: map<Partition, seq<Event>>, xs: seq<Consumed>) {
    forall k :: 0 <= k < |xs| ==>
      xs[k].offset < |Log(logs, xs[k].partition)| && xs[k].event == Log(logs, xs[k].partition)[xs[k].offset]
  }

  /** Read in order after `w`, no delivery skips a record of its partition. */
  predicate Gapless(w: Watermarks, xs: seq<Consumed>) {
    xs == [] ||
    (Gapless(w, xs[..|xs| - 1]) && xs[|xs| - 1].offset <= Next(Advance(w, xs[..|xs| - 1]), xs[|xs| - 1].partition))
  }

  /** `w` is nowhere behind `v`. */
  ghost predicate Reaches(w: Watermarks, v: Watermarks) {
    forall p: Partition :: Next(v, p) <= Next(w, p)
  }

  ghost predicate WorkerInv(w: World, v: Worker) {
    && Genuine(w.logs, v.held)
    && Gapless(w.db.watermarks, v.held)
    && (forall p :: p in v.positions ==> v.positions[p] <= Next(Advance(w.db.watermarks, v.held), p))
    && (v.phase == Committing ==>
          forall k :: 0 <= k < |v.held| ==> v.held[k].offset < Next(w.db.watermarks, v.held[k].partition))
  }

  ghost predicate Inv(c: Config, w: World) {
    && Genuine(w.logs, w.projected)
    && Gapless(map[], w.projected)
    && w.db.watermarks == Advance(map[], w.projected)
    && ProjectAll(c, NoRows(), w.projected) == Some(w.db.tables)
    && (forall p :: p in w.committed ==> w.committed[p] <= Next(w.db.watermarks, p))
    && (forall i :: 0 <= i < |w.workers| ==> WorkerInv(w, w.workers[i]))
  }

  // -------------------------------------------------------------- watermarks

  lemma {:induction false} NextAfter(w: Watermarks, xs: seq<Consumed>, p: Partition)
    requires xs != []
    ensures var (front, last) := (xs[..|xs| - 1], xs[|xs| - 1]);
      Next(Advance(w, xs), p) ==
        (if last.partition == p then MaxNat(Next(Advance(w, front), p), last.offset + 1) else Next(Advance(w, front), p))
  {
  }

  lemma {:induction false} AdvanceNext(w: Watermarks, xs: seq<Consumed>, p: Partition)
    ensures Next(w, p) <= Next(Advance(w, xs), p)
    ensures forall k :: 0 <= k < |xs| && xs[k].partition == p ==> xs[k].offset < Next(Advance(w, xs), p)
  {
    if xs != [] {
      AdvanceNext(w, xs[..|xs| - 1], p);
    }
  }

  lemma {:induction false} AdvanceReaches(w: Watermarks, v: Watermarks, xs: seq<Consumed>)
    requires Reaches(w, v)
    ensures Reaches(Advance(w, xs), Advance(v, xs))
  {
    if xs != [] {
      AdvanceReaches(w, v, xs[..|xs| - 1]);
      forall p: Partition ensures Next(Advance(v, xs), p) <= Next(Advance(w, xs), p) {
        NextAfter(v, xs, p);
        NextAfter(w, xs, p);
      }
    }
  }

  lemma {:induction false} GaplessReaches(w: Watermarks, v: Watermarks, xs: seq<Consumed>)
    requires Reaches(w, v) && Gapless(v, xs)
    ensures Gapless(w, xs)
  {
    if xs != [] {
      GaplessReaches(w, v, xs[..|xs| - 1]);
      AdvanceReaches(w, v, xs[..|xs| - 1]);
    }
  }

  lemma {:induction false} GaplessConcat(w: Watermarks, xs: seq<Consumed>, ys: seq<Consumed>)
    ensures Gapless(w, xs + ys) <==> Gapless(w, xs) && Gapless(Advance(w, xs), ys)
  {
    if ys == [] {
      assert xs + ys == xs;
    } else {
      assert (xs + ys)[..|xs + ys| - 1] == xs + ys[..|ys| - 1];
      GaplessConcat(w, xs, ys[..|ys| - 1]);
      AdvanceConcat(w, xs, ys[..|ys| - 1]);
    }
  }

  lemma {:induction false} WatermarksAreInTheLogs(logs: map<Partition, seq<Event>>, xs: seq<Consumed>, p: Partition)
    requires Genuine(logs, xs) && Gapless(map[], xs)
    ensures Next(Advance(map[], xs), p) <= |Log(logs, p)|
  {
    if xs != [] {
      WatermarksAreInTheLogs(logs, xs[..|xs| - 1], p);
      NextAfter(map[], xs, p);
      hide Advance;
      hide Next;
      hide Log;
    }
  }

  /** Every record below a watermark was delivered to a transaction that committed. */
  lemma {:induction false} BelowWatermark(logs: map<Partition, seq<Event>>, xs: seq<Consumed>, p: Partition, o: nat)
    requires Genuine(logs, xs) && Gapless(map[], xs) && o < Next(Advance(map[], xs), p)
    ensures o < |Log(logs, p)| && Consumed(Log(logs, p)[o], p, o) in xs
  {
    WatermarksAreInTheLogs(logs, xs, p);
    if xs != [] {
      var front, last := xs[..|xs| - 1], xs[|xs| - 1];
      NextAfter(map[], xs, p);
      if o < Next(Advance(map[], front), p) {
        BelowWatermark(logs, front, p, o);
        assert Consumed(Log(logs, p)[o], p, o) in front;
      } else {
        assert last == xs[|xs| - 1] && last.partition == p && last.offset == o;
      }
    }
  }

  // ----------------------------------------------------------------- fetching

  lemma {:induction false} RecordsFollow(w: Watermarks, log: seq<Event>, p: Partition, from: nat, count: nat)
    requires from <= Next(w, p)
    ensures var xs := Records(log, p, from, count);
      Gapless(w, xs) && from + |xs| <= Next(Advance(w, xs), p)
    decreases count
  {
    var xs := Records(log, p, from, count);
    if xs != [] {
      var shorter := Records(log, p, from, |xs| - 1);
      assert xs[..|xs| - 1] == shorter;
      RecordsFollow(w, log, p, from, |xs| - 1);
    }
  }

  lemma {:induction false} GenuineConcat(logs: map<Partition, seq<Event>>, xs: seq<Consumed>, ys: seq<Consumed>)
    requires Genuine(logs, xs) && Genuine(logs, ys)
    ensures Genuine(logs, xs + ys)
  {
    hide Log;
  }

  lemma {:induction false} RecordsAreGenuine(logs: map<Partition, seq<Event>>, p: Partition, from: nat, count: nat)
    ensures Genuine(logs, Records(Log(logs, p), p, from, count))
  {
  }

  /** A buffer without gaps, and positions it has reached. */
  ghost predicate Reads(w: World, positions: Offsets, held: seq<Consumed>) {
    && Genuine(w.logs, held) && Gapless(w.db.watermarks, held)
    && (forall p :: p in positions ==> positions[p] <= Next(Advance(w.db.watermarks, held), p))
  }

  lemma {:induction false} OneFetchFollows(w: World, positions: Offsets, held: seq<Consumed>, p: Partition, from: nat, count: nat)
    requires Reads(w, positions, held) && from <= Next(Advance(w.db.watermarks, held), p)
    ensures var more := Records(Log(w.logs, p), p, from, count);
      Reads(w, positions[p := from + |more|], held + more)
  {
    var more := Records(Log(w.logs, p), p, from, count);
    var reached := Advance(w.db.watermarks, held);
    RecordsFollow(reached, Log(w.logs, p), p, from, count);
    GaplessConcat(w.db.watermarks, held, more);
    AdvanceConcat(w.db.watermarks, held, more);
    RecordsAreGenuine(w.logs, p, from, count);
    GenuineConcat(w.logs, held, more);
    hide Genuine;
    hide Gapless;
    hide Advance;
    hide Next;
    hide Records;
    hide Log;
    forall q ensures Next(reached, q) <= Next(Advance(reached, more), q) {
      AdvanceNext(reached, more, q);
    }
  }

  /** Fetched records keep the buffer gapless, and the positions within reach of it. */
  lemma {:induction false} FetchFollows(w: World, positions: Offsets, held: seq<Consumed>, fetches: seq<Fetch>)
    requires Reads(w, positions, held)
    requires forall p :: p in w.committed ==> w.committed[p] <= Next(w.db.watermarks, p)
    ensures Reads(w, FetchAll(w, positions, fetches).1, held + FetchAll(w, positions, fetches).0)
  {
    hide Advance;
    hide Next;
    hide Records;
    hide Log;
    if fetches == [] {
      assert held + [] == held;
    } else {
      FetchFollows(w, positions, held, fetches[..|fetches| - 1]);
      var (xs, positions') := FetchAll(w, positions, fetches[..|fetches| - 1]);
      var f := fetches[|fetches| - 1];
      PositionIsReached(w, positions', held + xs, f.partition);
      var from := Position(w, positions', f.partition);
      var more := Records(Log(w.logs, f.partition), f.partition, from, f.count);
      OneFetchFollows(w, positions', held + xs, f.partition, from, f.count);
      hide Reads;
      assert held + (xs + more) == held + xs + more;
    }
  }

  lemma {:induction false} PositionIsReached(w: World, positions: Offsets, held: seq<Consumed>, p: Partition)
    requires Reads(w, positions, held)
    requires p in w.committed ==> w.committed[p] <= Next(w.db.watermarks, p)
    ensures Position(w, positions, p) <= Next(Advance(w.db.watermarks, held), p)
  {
    AdvanceNext(w.db.watermarks, held, p);
    hide Genuine;
    hide Gapless;
    hide Advance;
    hide Next;
  }

  // -------------------------------------------------------------------- steps

  /** A batch commits the offsets its watermarks reach. */
  lemma {:induction false} CommitsWhatItReached(xs: seq<Consumed>)
    ensures CommitOffsets(xs).Keys == Advance(map[], xs).Keys
    ensures forall p :: p in CommitOffsets(xs) ==> CommitOffsets(xs)[p] == Next(Advance(map[], xs), p)
  {
    if xs != [] {
      CommitsWhatItReached(xs[..|xs| - 1]);
    }
  }

  /** What is already behind the watermarks does not move them. */
  lemma {:induction false} CommitStaysBehind(w: Watermarks, xs: seq<Consumed>, p: Partition)
    requires forall k :: 0 <= k < |xs| ==> xs[k].offset < Next(w, xs[k].partition)
    ensures p in CommitOffsets(xs) ==> CommitOffsets(xs)[p] <= Next(w, p)
    ensures Next(Advance(w, xs), p) == Next(w, p)
  {
    if xs != [] {
      CommitStaysBehind(w, xs[..|xs| - 1], p);
    }
  }

  lemma {:induction false} PublishKeeps(c: Config, w: World, p: Partition, e: Event)
    requires Inv(c, w)
    ensures Inv(c, w.(logs := w.logs[p := Log(w.logs, p) + [e]]))
  {
    hide ProjectAll;
    hide Gapless;
    hide Advance;
  }

  lemma {:induction false} PollKeeps(c: Config, batchSize: nat, w: World, i: nat, fetches: seq<Fetch>, timedOut: bool)
    requires Inv(c, w)
    ensures Inv(c, Act(c, batchSize, w, Poll(i, fetches, timedOut)))
  {
    hide ProjectAll;
    hide Genuine;
    hide Gapless;
    hide Advance;
    hide Next;
    hide FetchAll;
    hide BarrierIn;
    if i < |w.workers| {
      FetchFollows(w, w.workers[i].positions, w.workers[i].held, fetches);
    }
  }

  /** A worker's view of a world whose watermarks moved on. */
  lemma {:induction false} WorkerFollows(w: World, w': World, v: Worker)
    requires WorkerInv(w, v) && w'.logs == w.logs && Reaches(w'.db.watermarks, w.db.watermarks)
    ensures WorkerInv(w', v)
  {
    GaplessReaches(w'.db.watermarks, w.db.watermarks, v.held);
    AdvanceReaches(w'.db.watermarks, w.db.watermarks, v.held);
    hide Gapless;
    hide Advance;
  }

  lemma {:induction false} RestartKeeps(c: Config, w: World, i: nat)
    requires Inv(c, w) && i < |w.workers|
    ensures Inv(c, SetWorker(w, i, FRESH))
  {
    hide ProjectAll;
  }

  lemma {:induction false} ProjectKeeps(c: Config, batchSize: nat, w: World, i: nat, replyLost: bool)
    requires Inv(c, w)
    ensures Inv(c, Act(c, batchSize, w, Project(i, replyLost)))
  {
    if i < |w.workers| && w.workers[i].phase == Projecting {
      var r := ProjectBatch(c, w.db, w.workers[i].held);
      if r.None? {
        RestartKeeps(c, w, i);
      } else {
        BatchKeeps(c, w, i, r.value);
        hide ProjectBatch;
        hide Inv;
        ghost var w1 := w.(db := r.value, projected := w.projected + w.workers[i].held);
        if replyLost {
          assert SetWorker(w1, i, w.workers[i]).workers == w.workers;
          assert Act(c, batchSize, w, Project(i, replyLost)) == w1;
        } else {
          PhaseKeeps(c, w1, i);
        }
      }
    }
  }

  /** Only the worker that projected its batch may go on to commit it. */
  lemma {:induction false} PhaseKeeps(c: Config, w: World, i: nat)
    requires Inv(c, w) && i < |w.workers|
    requires forall k :: 0 <= k < |w.workers[i].held| ==>
      w.workers[i].held[k].offset < Next(w.db.watermarks, w.workers[i].held[k].partition)
    ensures Inv(c, SetWorker(w, i, w.workers[i].(phase := Committing)))
  {
    hide ProjectAll;
    hide Gapless;
    hide Advance;
    hide Next;
  }

  /** A committed transaction moves the ledger and the watermarks together. */
  lemma {:induction false} BatchKeeps(c: Config, w: World, i: nat, db: Database)
    requires Inv(c, w) && i < |w.workers| && ProjectBatch(c, w.db, w.workers[i].held) == Some(db)
    ensures Inv(c, w.(db := db, projected := w.projected + w.workers[i].held))
    ensures forall k :: 0 <= k < |w.workers[i].held| ==>
      w.workers[i].held[k].offset < Next(db.watermarks, w.workers[i].held[k].partition)
  {
    var held := w.workers[i].held;
    var w' := w.(db := db, projected := w.projected + held);
    ProjectConcat(c, NoRows(), w.projected, held);
    AdvanceConcat(map[], w.projected, held);
    GaplessConcat(map[], w.projected, held);
    GenuineConcat(w.logs, w.projected, held);
    hide Genuine;
    hide ProjectAll;
    hide Gapless;
    hide Advance;
    hide Next;
    forall p ensures Next(w.db.watermarks, p) <= Next(db.watermarks, p)
      ensures forall k :: 0 <= k < |held| && held[k].partition == p ==> held[k].offset < Next(db.watermarks, p)
    {
      AdvanceNext(w.db.watermarks, held, p);
    }
    forall j | 0 <= j < |w.workers| ensures WorkerInv(w', w.workers[j]) {
      WorkerFollows(w, w', w.workers[j]);
    }
    hide WorkerInv;
  }

  lemma {:induction false} CommitKeeps(c: Config, batchSize: nat, w: World, i: nat)
    requires Inv(c, w)
    ensures Inv(c, Act(c, batchSize, w, Commit(i)))
  {
    hide ProjectAll;
    hide Genuine;
    hide Gapless;
    hide Advance;
    hide Next;
    if i < |w.workers| && w.workers[i].phase == Committing {
      var v := w.workers[i];
      assert WorkerInv(w, v);
      forall p ensures p in CommitOffsets(v.held) ==> CommitOffsets(v.held)[p] <= Next(w.db.watermarks, p)
        ensures Next(Advance(w.db.watermarks, v.held), p) == Next(w.db.watermarks, p)
      {
        CommitStaysBehind(w.db.watermarks, v.held, p);
      }
      hide CommitOffsets;
      var w' := w.(committed := w.committed + CommitOffsets(v.held));
      Emptied(w, v);
      var v' := v.(held := [], phase := Polling);
      forall j | 0 <= j < |w.workers| ensures WorkerInv(w', if j == i then v' else w.workers[j]) {
        assert WorkerInv(w, w.workers[j]);
        WorkerFollows(w, w', if j == i then v' else w.workers[j]);
      }
      hide WorkerInv;
    }
  }

  /** A committed batch has nothing left to reach. */
  lemma {:induction false} Emptied(w: World, v: Worker)
    requires WorkerInv(w, v)
    requires forall p :: Next(Advance(w.db.watermarks, v.held), p) == Next(w.db.watermarks, p)
    ensures WorkerInv(w, v.(held := [], phase := Polling))
  {
    assert Advance(w.db.watermarks, []) == w.db.watermarks;
    hide Next;
  }

  lemma {:induction false} RebalanceKeeps(c: Config, batchSize: nat, w: World, i: nat, revoked: set<Partition>)
    requires Inv(c, w)
    ensures Inv(c, Act(c, batchSize, w, Rebalance(i, revoked)))
  {
    hide ProjectAll;
    hide Gapless;
    hide Advance;
  }

  lemma {:induction false} ActKeeps(c: Config, batchSize: nat, w: World, a: Action)
    requires Inv(c, w)
    ensures Inv(c, Act(c, batchSize, w, a))
  {
    hide Inv;
    match a
    case Publish(p, e) => PublishKeeps(c, w, p, e);
    case Poll(i, fetches, timedOut) => PollKeeps(c, batchSize, w, i, fetches, timedOut);
    case Project(i, replyLost) => ProjectKeeps(c, batchSize, w, i, replyLost);
    case Commit(i) => CommitKeeps(c, batchSize, w, i);
    case Crash(i) => if i < |w.workers| { RestartKeeps(c, w, i); }
    case Rebalance(i, revoked) => RebalanceKeeps(c, batchSize, w, i, revoked);
  }

  lemma {:induction false} RunKeepsInv(c: Config, batchSize: nat, workers: nat, run: seq<Action>)
    ensures Inv(c, Run(c, batchSize, workers, run))
  {
    if run != [] {
      hide Inv;
      hide Act;
      RunKeepsInv(c, batchSize, workers, run[..|run| - 1]);
      ActKeeps(c, batchSize, Run(c, batchSize, workers, run[..|run| - 1]), run[|run| - 1]);
    }
  }
}
