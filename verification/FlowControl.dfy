/** The flow-controlled queue itself: fields changed in place, one method for each critical section. */
module FlowControl {
  import opened Options
  import opened Flow
  import opened FlowHistory

  /** How a `get` section ends: still waiting, raising on a closed queue, or with an item and a notice. */
  datatype GetResult<+T> = Waiting | QueueClosed | Got(item: T, signal: Option<Signal>)

  /** The flush loop: one pass that keeps, removes and weighs the queued items. */
  method SplitMatching<T>(entries: seq<Entry<T>>, drop: T -> bool)
    returns (kept: seq<Entry<T>>, removed: seq<T>, newDepth: real)
    ensures kept == Kept(entries, drop) && removed == Removed(entries, drop)
    ensures newDepth == Weight(kept)
  {
    kept, removed, newDepth := [], [], 0.0;
    for k := 0 to |entries|
      invariant kept == Kept(entries[..k], drop) && removed == Removed(entries[..k], drop)
      invariant newDepth == Weight(kept)
    {
      assert entries[..k + 1][..k] == entries[..k];
      if drop(entries[k].item) {
        removed := removed + [entries[k].item];
      } else {
        assert (kept + [entries[k]])[..|kept|] == kept;
        kept := kept + [entries[k]];
        newDepth := newDepth + entries[k].weight;
      }
    }
    assert entries[..|entries|] == entries;
  }

  class FlowControlledQueue<T> {
    const config: Config
    var items: seq<Entry<T>>
    var depthWeight: real
    var corked: bool
    var hardLimited: bool
    var closed: bool
    var cancelled: bool
    /** The sections run so far. */
    ghost var log: seq<Op<T>>

    ghost predicate Valid()
      reads this
    {
      State() == Run(config, log).queue
    }

    ghost function State(): Queue<T>
      reads this
    {
      Queue(items, depthWeight, corked, hardLimited, closed, cancelled)
    }

    /** The whole new state of a section that ran as `op`. */
    twostate predicate Ran(op: Op<T>)
      reads this
    {
      && log == old(log) + [op]
      && Run(config, log) == Step(config, Run(config, old(log)), op)
      && Valid()
    }

    constructor (config: Config)
      ensures this.config == config && log == [] && Valid()
    {
      this.config := config;
      items, depthWeight := [], 0.0;
      corked, hardLimited, closed, cancelled := false, false, false, false;
      log := [];
    }

    /** Refuses watermarks that are out of order, as the original constructor does. */
    static method Create(config: Config) returns (queue: FlowControlledQueue?<T>)
      ensures queue == null <==> config.low >= config.high || config.high > config.hard
      ensures queue != null ==> fresh(queue) && queue.config == config && queue.log == [] && queue.Valid()
    {
      if config.low >= config.high || config.high > config.hard {
        return null;
      }
      queue := new FlowControlledQueue<T>(config);
    }

    /** The cork gate, which changes nothing. */
    method WaitUntilUncorked() returns (open: bool)
      requires Valid()
      ensures open <==> GateOpen(Run(config, log).queue)
    {
      open := !corked || closed || cancelled;
    }

    /** Compares the depth with the watermarks and moves the flags. */
    method ObserveLocked() returns (signal: Option<Signal>)
      modifies this`corked, this`hardLimited
      ensures Outcome(State(), signal) == Observe(config, old(State()))
    {
      signal := None;
      if depthWeight >= config.hard && !hardLimited {
        hardLimited, corked := true, true;
        signal := Some(Hard);
      } else if !corked && depthWeight >= config.high {
        corked := true;
        signal := Some(Cork);
      } else if corked && depthWeight <= config.low {
        corked, hardLimited := false, false;
        signal := Some(Uncork);
      }
    }

    /** The section of a put behind the gate; `done` is false while the put still waits for a free slot. */
    method PutSection(item: T, weight: real) returns (done: bool, signal: Option<Signal>)
      requires Valid()
      modifies this
      ensures done <==> CanAppend(config, old(State()))
      ensures signal == if done then Append(config, old(State()), item, weight).signal else None
      ensures Ran(Put(item, weight))
    {
      done, signal := true, None;
      log := log + [Put(item, weight)];
      assert log[..|log| - 1] == old(log);
      if closed || cancelled {
        return;
      }
      if |items| >= config.maxItems {
        done := false;
        return;
      }
      var w := Max(0.0, weight);
      items := items + [Entry(item, w)];
      depthWeight := depthWeight + w;
      signal := ObserveLocked();
      assert Outcome(State(), signal) == Append(config, old(State()), item, weight);
    }

    /** The section of a get. */
    method GetSection() returns (result: GetResult<T>)
      requires Valid()
      modifies this
      ensures result.Waiting? <==> !CanGet(old(State()))
      ensures result.Got? <==> old(items) != []
      ensures result.Got? ==> result == Got(old(items[0].item), Take(config, old(State())).signal)
      ensures Ran(Get)
    {
      log := log + [Get];
      assert log[..|log| - 1] == old(log);
      if items == [] {
        return if closed || cancelled then QueueClosed else Waiting;
      }
      var first := items[0];
      items := items[1..];
      depthWeight := Max(0.0, depthWeight - first.weight);
      var signal := ObserveLocked();
      result := Got(first.item, signal);
    }

    /** Removes every queued item that satisfies `drop` and returns them in queue order. */
    method FlushSection(drop: T -> bool) returns (removed: seq<T>, signal: Option<Signal>)
      requires Valid()
      modifies this
      ensures removed == Removed(old(items), drop)
      ensures signal == Flush(config, old(State()), drop).signal
      ensures Ran(FlushMatching(drop))
    {
      log := log + [FlushMatching(drop)];
      assert log[..|log| - 1] == old(log);
      var kept, newDepth;
      kept, removed, newDepth := SplitMatching(items, drop);
      items := kept;
      depthWeight := newDepth;
      label observing:
      signal := ObserveLocked();
      assert Outcome(State(), signal) == Flush(config, old(State()), drop) by {
        assert old@observing(State()) == old(State()).(items := kept, depth := newDepth);
      }
    }

    method CloseSection()
      requires Valid()
      modifies this
      ensures Ran(CloseQueue)
    {
      log := log + [CloseQueue];
      assert log[..|log| - 1] == old(log);
      closed := true;
    }

    method CancelSection()
      requires Valid()
      modifies this
      ensures Ran(CancelQueue)
    {
      log := log + [CancelQueue];
      assert log[..|log| - 1] == old(log);
      cancelled, closed := true, true;
      items, depthWeight := [], 0.0;
      corked, hardLimited := false, false;
    }
  }
}
