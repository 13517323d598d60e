/** The broker's logs, the workers of one consumer group that read them, and the ledger they project into. */
module Delivery {
  import opened LedgerTables

  type Offsets = map<Partition, nat>

  datatype Phase = Polling | Projecting | Committing

  /** `held` is the buffer while polling and the batch afterwards. */
  datatype Worker = Worker(positions: Offsets, held: seq<Consumed>, phase: Phase)

  /** `projected` records the deliveries of every transaction that committed. */
  datatype World = World(
    logs: map<Partition, seq<Event>>, committed: Offsets, workers: seq<Worker>, db: Database, projected: seq<Consumed>)

  /** A fetch asks for the next `count` records of a partition. */
  datatype Fetch = Fetch(partition: Partition, count: nat)

  datatype Action =
    | Publish(partition: Partition, event: Event)
    | Poll(worker: nat, fetches: seq<Fetch>, timedOut: bool)
    | Project(worker: nat, replyLost: bool)
    | Commit(worker: nat)
    | Crash(worker: nat)
    | Rebalance(worker: nat, revoked: set<Partition>)

  function Log(logs: map<Partition, seq<Event>>, p: Partition): seq<Event> {
    if p in logs then logs[p] else []
  }

  function CommittedOffset(w: World, p: Partition): nat {
    if p in w.committed then w.committed[p] else 0
  }

  /** Where a worker reads next: its own position, or the committed offset, or the earliest record. */
  function Position(w: World, positions: Offsets, p: Partition): nat {
    if p in positions then positions[p] else CommittedOffset(w, p)
  }

  /** The next records of one partition, at most `count` of them. */
  function Records(log: seq<Event>, p: Partition, from: nat, count: nat): seq<Consumed> {
    var n := if from >= |log| then 0 else if count < |log| - from then count else |log| - from;
    seq(n, k requires 0 <= k < n && from + n <= |log| => Consumed(log[from + k], p, from + k))
  }

  /** What one call of getmany returns, and the positions it leaves. */
  function FetchAll(w: World, positions: Offsets, fetches: seq<Fetch>): (r: (seq<Consumed>, Offsets)) {
    if fetches == [] then ([], positions)
    else
      var (records, positions') := FetchAll(w, positions, fetches[..|fetches| - 1]);
      var f := fetches[|fetches| - 1];
      var from := Position(w, positions', f.partition);
      var more := Records(Log(w.logs, f.partition), f.partition, from, f.count);
      (records + more, positions'[f.partition := from + |more|])
  }

  predicate BarrierIn(xs: seq<Consumed>) {
    exists k :: 0 <= k < |xs| && xs[k].event.kind.FinalizationBarrier?
  }

  /** A buffer is handed over when it is not empty and a barrier arrived, it is full, or its time is up. */
  function AfterPoll(batchSize: nat, held: seq<Consumed>, records: seq<Consumed>, timedOut: bool): Phase {
    if held + records != [] && (BarrierIn(records) || timedOut || |held + records| >= batchSize) then Projecting
    else Polling
  }

  /** The offsets a batch commits: one past the highest of each partition. */
  function CommitOffsets(xs: seq<Consumed>): Offsets {
    if xs == [] then map[]
    else
      var o, x := CommitOffsets(xs[..|xs| - 1]), xs[|xs| - 1];
      o[x.partition := MaxNat(if x.partition in o then o[x.partition] else 0, x.offset + 1)]
  }

  const FRESH := Worker(map[], [], Polling)

  function SetWorker(w: World, i: nat, worker: Worker): World
    requires i < |w.workers|
  {
    w.(workers := w.workers[i := worker])
  }

  /** An action a worker is not ready for changes nothing. */
  function Act(c: Config, batchSize: nat, w: World, a: Action): World {
    match a
    case Publish(p, e) => w.(logs := w.logs[p := Log(w.logs, p) + [e]])
    case Poll(i, fetches, timedOut) =>
      if i >= |w.workers| || w.workers[i].phase != Polling then w
      else
        var v := w.workers[i];
        var (records, positions) := FetchAll(w, v.positions, fetches);
        if |records| > MaxNat(1, if batchSize > |v.held| then batchSize - |v.held| else 0) then w
        else SetWorker(w, i, Worker(positions, v.held + records, AfterPoll(batchSize, v.held, records, timedOut)))
    case Project(i, replyLost) =>
      if i >= |w.workers| || w.workers[i].phase != Projecting then w
      else
        var v := w.workers[i];
        (match ProjectBatch(c, w.db, v.held)
         case None => SetWorker(w, i, FRESH)
         case Some(db) =>
           SetWorker(w, i, if replyLost then v else v.(phase := Committing))
             .(db := db, projected := w.projected + v.held))
    case Commit(i) =>
      if i >= |w.workers| || w.workers[i].phase != Committing then w
      else
        SetWorker(w, i, w.workers[i].(held := [], phase := Polling))
          .(committed := w.committed + CommitOffsets(w.workers[i].held))
    case Crash(i) => if i >= |w.workers| then w else SetWorker(w, i, FRESH)
    case Rebalance(i, revoked) =>
      if i >= |w.workers| then w
      else SetWorker(w, i, w.workers[i].(positions := w.workers[i].positions - revoked))
  }

  function Initial(workers: nat): World {
    World(map[], map[], seq(workers, _ => FRESH), Database(NoRows(), map[]), [])
  }

  function Run(c: Config, batchSize: nat, workers: nat, run: seq<Action>): World {
    if run == [] then Initial(workers) else Act(c, batchSize, Run(c, batchSize, workers, run[..|run| - 1]), run[|run| - 1])
  }
}
