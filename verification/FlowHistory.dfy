/** Every run of one queue: conservation, order, and the hysteresis of the notices. */
module FlowHistory {
  import opened Options
  import opened Flow

  /** One critical section. A section that would still be waiting changes nothing. */
  datatype Op<!T> = Put(item: T, weight: real) | Get | FlushMatching(drop: T -> bool) | CloseQueue | CancelQueue

  /** The queue with the history of what went in, what came out, and what was observed. */
  datatype World<T> = World(
    queue: Queue<T>,
    accepted: seq<T>, delivered: seq<T>, flushed: seq<T>, discarded: seq<T>,
    depths: seq<real>, signals: seq<Signal>)

  function Start<T>(): World<T> {
    World(Empty(), [], [], [], [], [], [])
  }

  function Emitted(s: Option<Signal>): seq<Signal> {
    match s
    case None => []
    case Some(v) => [v]
  }

  /** Moves to the queue a section left behind, recording the depth it observed and its notice. */
  function Observed<T>(w: World<T>, o: Outcome<T>): World<T> {
    w.(queue := o.queue, depths := w.depths + [o.queue.depth], signals := w.signals + Emitted(o.signal))
  }

  function Step<T>(c: Config, w: World<T>, op: Op<T>): World<T> {
    match op
    case Put(item, weight) =>
      if !CanAppend(c, w.queue) || w.queue.closed || w.queue.cancelled then w
      else Observed(w, Append(c, w.queue, item, weight)).(accepted := w.accepted + [item])
    case Get =>
      if w.queue.items == [] then w
      else Observed(w, Take(c, w.queue)).(delivered := w.delivered + [w.queue.items[0].item])
    case FlushMatching(drop) =>
      Observed(w, Flush(c, w.queue, drop)).(flushed := w.flushed + Removed(w.queue.items, drop))
    case CloseQueue =>
      w.(queue := Close(w.queue))
    case CancelQueue =>
      w.(queue := Cancel(w.queue), discarded := w.discarded + Items(w.queue.items), depths := w.depths + [0.0])
  }

  function Run<T>(c: Config, ops: seq<Op<T>>): World<T> {
    if ops == [] then Start() else Step(c, Run(c, ops[..|ops| - 1]), ops[|ops| - 1])
  }

  // ---------------------------------------------------------------- flags

  /** One section keeps the queue invariant. */
  lemma {:induction false} StepKeepsInv<T>(c: Config, w: World<T>, op: Op<T>)
    requires c.Valid() && Inv(c, w.queue)
    ensures Inv(c, Step(c, w, op).queue)
  {
    match op
    case Put(item, weight) => if CanAppend(c, w.queue) { AppendKeepsInv(c, w.queue, item, weight); }
    case Get => if w.queue.items != [] { TakeKeepsInv(c, w.queue); }
    case FlushMatching(drop) => FlushKeepsInv(c, w.queue, drop);
    case CloseQueue =>
    case CancelQueue =>
  }

  /** The queue invariant holds after every run. */
  lemma {:induction false} RunKeepsInv<T>(c: Config, ops: seq<Op<T>>)
    requires c.Valid()
    ensures Inv(c, Run(c, ops).queue)
  {
    if ops != [] {
      RunKeepsInv(c, ops[..|ops| - 1]);
      StepKeepsInv(c, Run(c, ops[..|ops| - 1]), ops[|ops| - 1]);
    }
  }

  /** What a run lets an observer of one queue see. */
  datatype View = View(corked: bool, hardLimited: bool, cancelled: bool, depths: seq<real>, signals: seq<Signal>)

  function Seen<T>(w: World<T>): View {
    View(w.queue.corked, w.queue.hardLimited, w.queue.cancelled, w.depths, w.signals)
  }

  /** The observer's state after a section that measured depth `d`. */
  function Measured(c: Config, v: View, d: real): View {
    var o := Observe<bool>(c, Queue([], d, v.corked, v.hardLimited, false, v.cancelled));
    v.(corked := o.queue.corked, hardLimited := o.queue.hardLimited,
       depths := v.depths + [d], signals := v.signals + Emitted(o.signal))
  }

  lemma {:induction false} ObservedSeen<T>(c: Config, w: World<T>, q: Queue<T>)
    requires q.corked == w.queue.corked && q.hardLimited == w.queue.hardLimited && q.cancelled == w.queue.cancelled
    ensures Seen(Observed(w, Observe(c, q))) == Measured(c, Seen(w), q.depth)
  {
  }

  /** Every section leaves the observer alone, shows one measured depth, or cancels. */
  lemma {:induction false} StepSeen<T>(c: Config, w: World<T>, op: Op<T>)
    requires c.Valid() && Inv(c, w.queue)
    ensures var v := Seen(Step(c, w, op));
      || v == Seen(w)
      || (v == Measured(c, Seen(w), v.depths[|w.depths|]) && v.cancelled == w.queue.cancelled)
      || (op.CancelQueue? && v == View(false, false, true, w.depths + [0.0], w.signals))
  {
    hide Measured;
    hide Observe;
    hide Observed;
    var q := w.queue;
    match op
    case Put(item, weight) =>
      var e := Max(0.0, weight);
      var grown := q.(items := q.items + [Entry(item, e)], depth := q.depth + e);
      ObservedSeen(c, w, grown);
      MeasuredShows(c, Seen(w), grown.depth);
    case Get =>
      if q.items != [] {
        var shrunk := q.(items := q.items[1..], depth := Max(0.0, q.depth - q.items[0].weight));
        ObservedSeen(c, w, shrunk);
        MeasuredShows(c, Seen(w), shrunk.depth);
      }
    case FlushMatching(drop) =>
      var kept := Kept(q.items, drop);
      ObservedSeen(c, w, q.(items := kept, depth := Weight(kept)));
      MeasuredShows(c, Seen(w), Weight(kept));
    case CloseQueue =>
    case CancelQueue =>
  }

  lemma {:induction false} MeasuredShows(c: Config, v: View, d: real)
    ensures Measured(c, v, d).depths == v.depths + [d]
    ensures Measured(c, v, d).cancelled == v.cancelled
  {
  }

  /** Some observed depth reached `up`, and every later one stayed above `low`. */
  ghost predicate Latched(depths: seq<real>, low: real, up: real) {
    exists k :: 0 <= k < |depths| && LatchedAt(depths, low, up, k)
  }

  ghost predicate LatchedAt(depths: seq<real>, low: real, up: real, k: nat)
    requires k < |depths|
  {
    depths[k] >= up && forall j :: k < j < |depths| ==> depths[j] > low
  }

  lemma {:induction false} LatchStep(depths: seq<real>, d: real, low: real, up: real)
    requires low < up
    ensures Latched(depths + [d], low, up) <==> d >= up || (Latched(depths, low, up) && d > low)
  {
    var all := depths + [d];
    if d >= up {
      assert LatchedAt(all, low, up, |depths|);
    } else {
      forall k | 0 <= k < |depths|
        ensures LatchedAt(all, low, up, k) <==> LatchedAt(depths, low, up, k) && d > low
      {
        assert all[|depths|] == d;
        assert forall j :: k < j < |depths| ==> all[j] == depths[j];
      }
    }
  }

  /** The flags say what the observed depths say. */
  ghost predicate Faithful(c: Config, v: View) {
    && (v.corked <==> Latched(v.depths, c.low, c.high))
    && (v.hardLimited <==> Latched(v.depths, c.low, c.hard))
    && (v.hardLimited ==> v.corked)
  }

  lemma {:induction false} MeasuredFaithful(c: Config, v: View, d: real)
    requires c.Valid() && Faithful(c, v)
    ensures Faithful(c, Measured(c, v, d))
  {
    LatchStep(v.depths, d, c.low, c.high);
    LatchStep(v.depths, d, c.low, c.hard);
  }

  /**
   * The hysteresis law. A queue is corked exactly when its depth has been at the high watermark since it was
   * last at or below the low one, and hard limited exactly when it has been at the hard limit since then.
   */
  lemma {:induction false} FlagsAreTheDepthHistory<T>(c: Config, ops: seq<Op<T>>)
    requires c.Valid()
    ensures Run(c, ops).queue.corked <==> Latched(Run(c, ops).depths, c.low, c.high)
    ensures Run(c, ops).queue.hardLimited <==> Latched(Run(c, ops).depths, c.low, c.hard)
  {
    RunKeepsInv(c, ops);
    if ops != [] {
      var w, op := Run(c, ops[..|ops| - 1]), ops[|ops| - 1];
      FlagsAreTheDepthHistory(c, ops[..|ops| - 1]);
      RunKeepsInv(c, ops[..|ops| - 1]);
      StepSeen(c, w, op);
      var v := Seen(Step(c, w, op));
      assert Faithful(c, Seen(w));
      if v != Seen(w) {
        MeasuredFaithful(c, Seen(w), v.depths[|w.depths|]);
        LatchStep(w.depths, 0.0, c.low, c.high);
        LatchStep(w.depths, 0.0, c.low, c.hard);
      }
    }
  }

  // -------------------------------------------------------------- waiting

  /** The queue was closed, or cancelled, at some time. */
  ghost predicate WasClosed<T(!new)>(ops: seq<Op<T>>) {
    exists k :: 0 <= k < |ops| && (ops[k].CloseQueue? || ops[k].CancelQueue?)
  }

  lemma {:induction false} ClosedIsTold<T(!new)>(c: Config, ops: seq<Op<T>>)
    ensures Run(c, ops).queue.closed || Run(c, ops).queue.cancelled <==> WasClosed(ops)
    ensures Run(c, ops).queue.cancelled <==> exists k :: 0 <= k < |ops| && ops[k].CancelQueue?
  {
    if ops != [] {
      var front, op := ops[..|ops| - 1], ops[|ops| - 1];
      ClosedIsTold(c, front);
      assert ops == front + [op];
      assert forall k :: 0 <= k < |front| ==> front[k] == ops[k];
      StepCloses(c, Run(c, front), op);
      hide Step;
    }
  }

  lemma {:induction false} StepCloses<T>(c: Config, w: World<T>, op: Op<T>)
    ensures var q' := Step(c, w, op).queue;
      && (q'.closed || q'.cancelled <==> w.queue.closed || w.queue.cancelled || op.CloseQueue? || op.CancelQueue?)
      && (q'.cancelled <==> w.queue.cancelled || op.CancelQueue?)
  {
    hide Kept;
    hide Removed;
    hide Weight;
    hide Items;
  }

  /**
   * Who waits, after any run: once the queue was closed or cancelled nobody does. Before that a producer waits at the
   * gate from the high watermark down to the low one and for a free slot, and a consumer for an item.
   */
  lemma {:induction false} WaitingIsTold<T(!new)>(c: Config, ops: seq<Op<T>>)
    requires c.Valid()
    ensures var q := Run(c, ops).queue;
      && (GateOpen(q) <==> WasClosed(ops) || !Latched(Run(c, ops).depths, c.low, c.high))
      && (CanAppend(c, q) <==> WasClosed(ops) || |q.items| < c.maxItems)
      && (CanGet(q) <==> WasClosed(ops) || q.items != [])
  {
    ClosedIsTold(c, ops);
    FlagsAreTheDepthHistory(c, ops);
    hide Run;
    hide Latched;
    hide WasClosed;
  }

  // -------------------------------------------------------------- notices

  /** Complete rounds: a cork, a hard limit, or a cork and then a hard limit, followed by an uncork. */
  ghost predicate Rounds(s: seq<Signal>) {
    || s == []
    || (|s| >= 2 && s[0] != Uncork && s[1] == Uncork && Rounds(s[2..]))
    || (|s| >= 3 && s[0] == Cork && s[1] == Hard && s[2] == Uncork && Rounds(s[3..]))
  }

  lemma {:induction false} RoundsConcat(a: seq<Signal>, b: seq<Signal>)
    requires Rounds(a) && Rounds(b)
    ensures Rounds(a + b)
  {
    if a == [] {
      assert a + b == b;
    } else if a[1] == Uncork {
      RoundsConcat(a[2..], b);
      assert (a + b)[2..] == a[2..] + b;
    } else {
      RoundsConcat(a[3..], b);
      assert (a + b)[3..] == a[3..] + b;
    }
  }

  /** An unfinished round: nothing on an uncorked queue, and ending in `Hard` exactly on a hard-limited one. */
  ghost predicate OpenRound(tail: seq<Signal>, corked: bool, hardLimited: bool) {
    if !corked then tail == []
    else if hardLimited then tail == [Hard] || tail == [Cork, Hard]
    else tail == [Cork]
  }

  lemma {:induction false} FinishedRound(tail: seq<Signal>, corked: bool, hardLimited: bool)
    requires OpenRound(tail, corked, hardLimited)
    ensures Rounds(tail + if corked then [Uncork] else [])
  {
    var s := tail + if corked then [Uncork] else [];
    assert |s| <= 3;
    assert Rounds([]);
    if |s| == 2 {
      assert s[2..] == [];
    } else if |s| == 3 {
      assert s[3..] == [];
    }
  }

  ghost predicate Split(v: View, done: seq<Signal>, tail: seq<Signal>) {
    && Rounds(done) && v.signals == done + tail
    && OpenRound(tail, v.corked, v.hardLimited)
    && (v.hardLimited ==> v.corked)
  }

  lemma {:induction false} MeasuredSplit(c: Config, v: View, d: real, done: seq<Signal>, tail: seq<Signal>)
    returns (done': seq<Signal>, tail': seq<Signal>)
    requires c.Valid() && Split(v, done, tail)
    ensures Split(Measured(c, v, d), done', tail')
  {
    var v' := Measured(c, v, d);
    done', tail' := done, tail;
    if v'.signals != v.signals {
      var s := v'.signals[|v.signals|];
      assert v'.signals == done + (tail + [s]);
      tail' := tail + [s];
      if s == Uncork {
        FinishedRound(tail, v.corked, v.hardLimited);
        RoundsConcat(done, tail');
        done', tail' := done + tail', [];
      }
    }
  }

  lemma {:induction false} SignalsSplit<T>(c: Config, ops: seq<Op<T>>) returns (done: seq<Signal>, tail: seq<Signal>)
    requires c.Valid()
    requires !Run(c, ops).queue.cancelled
    ensures Split(Seen(Run(c, ops)), done, tail)
  {
    if ops == [] {
      done, tail := [], [];
    } else {
      var w, op := Run(c, ops[..|ops| - 1]), ops[|ops| - 1];
      RunKeepsInv(c, ops[..|ops| - 1]);
      StepSeen(c, w, op);
      assert !w.queue.cancelled;
      done, tail := SignalsSplit(c, ops[..|ops| - 1]);
      var v := Seen(Step(c, w, op));
      if v != Seen(w) {
        done, tail := MeasuredSplit(c, Seen(w), v.depths[|w.depths|], done, tail);
      }
    }
  }

  lemma {:induction false} CancelledIsEmpty<T>(c: Config, ops: seq<Op<T>>)
    requires c.Valid()
    requires Run(c, ops).queue.cancelled
    ensures Run(c, ops).queue == Cancel(Run(c, ops).queue)
  {
    hide Step;
    var w, op := Run(c, ops[..|ops| - 1]), ops[|ops| - 1];
    if w.queue.cancelled {
      CancelledIsEmpty(c, ops[..|ops| - 1]);
      CancelledStays(c, w, op);
    } else {
      BecomesEmpty(c, w, op);
    }
  }

  lemma {:induction false} BecomesEmpty<T>(c: Config, w: World<T>, op: Op<T>)
    requires !w.queue.cancelled && Step(c, w, op).queue.cancelled
    ensures Step(c, w, op).queue == Cancel(Step(c, w, op).queue)
  {
  }

  lemma {:induction false} CancelledStays<T>(c: Config, w: World<T>, op: Op<T>)
    requires c.Valid() && w.queue == Cancel(w.queue)
    ensures var w' := Step(c, w, op);
      w'.queue == w.queue && w'.signals == w.signals && w'.delivered == w.delivered && w'.accepted == w.accepted
  {
  }

  /** After a cancel the queue takes nothing, gives nothing and says nothing, whatever is called on it. */
  lemma {:induction false} NothingAfterCancel<T>(c: Config, ops: seq<Op<T>>, rest: seq<Op<T>>)
    requires c.Valid()
    requires Run(c, ops).queue.cancelled
    ensures Run(c, ops + rest).queue == Run(c, ops).queue == Cancel(Run(c, ops).queue)
    ensures Run(c, ops + rest).signals == Run(c, ops).signals
    ensures Run(c, ops + rest).delivered == Run(c, ops).delivered
    ensures Run(c, ops + rest).accepted == Run(c, ops).accepted
  {
    hide Step;
    CancelledIsEmpty(c, ops);
    if rest == [] {
      assert ops + rest == ops;
    } else {
      assert (ops + rest)[..|ops + rest| - 1] == ops + rest[..|rest| - 1];
      NothingAfterCancel(c, ops, rest[..|rest| - 1]);
      CancelledStays(c, Run(c, ops + rest[..|rest| - 1]), rest[|rest| - 1]);
    }
  }

  /** Every run's notices are a prefix of complete rounds; one uncork completes them on a live corked queue. */
  lemma {:induction false} SignalsFollowTheRounds<T>(c: Config, ops: seq<Op<T>>) returns (rest: seq<Signal>)
    requires c.Valid()
    ensures Rounds(Run(c, ops).signals + rest)
    ensures !Run(c, ops).queue.cancelled ==> rest == if Run(c, ops).queue.corked then [Uncork] else []
  {
    hide Step;
    if !Run(c, ops).queue.cancelled {
      var done, tail := SignalsSplit(c, ops);
      rest := if Run(c, ops).queue.corked then [Uncork] else [];
      FinishedRound(tail, Run(c, ops).queue.corked, Run(c, ops).queue.hardLimited);
      RoundsConcat(done, tail + rest);
      assert Run(c, ops).signals + rest == done + (tail + rest);
    } else {
      var w, op := Run(c, ops[..|ops| - 1]), ops[|ops| - 1];
      rest := SignalsFollowTheRounds(c, ops[..|ops| - 1]);
      RunKeepsInv(c, ops[..|ops| - 1]);
      StepSeen(c, w, op);
      if w.queue.cancelled {
        CancelledIsEmpty(c, ops[..|ops| - 1]);
        CancelledStays(c, w, op);
      }
    }
  }

  // --------------------------------------------------- conservation, order

  /** `a` is what remains of `b` after striking out some elements. */
  ghost predicate Subsequence<T>(a: seq<T>, b: seq<T>) {
    || a == []
    || (b != [] && Subsequence(a, b[..|b| - 1]))
    || (b != [] && a[|a| - 1] == b[|b| - 1] && Subsequence(a[..|a| - 1], b[..|b| - 1]))
  }

  lemma {:induction false} SubsequenceOfItself<T>(a: seq<T>)
    ensures Subsequence(a, a)
  {
    if a != [] {
      SubsequenceOfItself(a[..|a| - 1]);
    }
  }

  lemma {:induction false} SubsequenceTransitive<T>(a: seq<T>, b: seq<T>, d: seq<T>)
    requires Subsequence(a, b) && Subsequence(b, d)
    ensures Subsequence(a, d)
    decreases |a| + |b| + |d|
  {
    if a != [] && b != [] {
      if Subsequence(b, d[..|d| - 1]) {
        SubsequenceTransitive(a, b, d[..|d| - 1]);
      } else if Subsequence(a, b[..|b| - 1]) {
        SubsequenceTransitive(a, b[..|b| - 1], d[..|d| - 1]);
      } else {
        SubsequenceTransitive(a[..|a| - 1], b[..|b| - 1], d[..|d| - 1]);
      }
    }
  }

  lemma {:induction false} SubsequenceAppend<T>(a: seq<T>, b: seq<T>, tail: seq<T>)
    requires Subsequence(a, b)
    ensures Subsequence(a + tail, b + tail)
  {
    if tail == [] {
      assert a + tail == a && b + tail == b;
    } else {
      SubsequenceAppend(a, b, tail[..|tail| - 1]);
      assert (a + tail)[..|a + tail| - 1] == a + tail[..|tail| - 1];
      assert (b + tail)[..|b + tail| - 1] == b + tail[..|tail| - 1];
    }
  }

  lemma {:induction false} KeptIsSubsequence<T>(head: seq<T>, entries: seq<Entry<T>>, drop: T -> bool)
    ensures Subsequence(head + Items(Kept(entries, drop)), head + Items(entries))
  {
    if entries == [] {
      SubsequenceOfItself(head + Items(entries));
      assert Items(Kept(entries, drop)) == Items(entries);
    } else {
      var front, last := entries[..|entries| - 1], entries[|entries| - 1];
      KeptIsSubsequence(head, front, drop);
      var a, b := head + Items(Kept(front, drop)), head + Items(front);
      assert head + Items(entries) == b + [last.item];
      if drop(last.item) {
        assert Kept(entries, drop) == Kept(front, drop);
        SubsequenceOfPrefix(b, [last.item]);
        SubsequenceTransitive(a, b, b + [last.item]);
      } else {
        SubsequenceAppend(a, b, [last.item]);
        assert head + Items(Kept(entries, drop)) == a + [last.item];
      }
    }
  }

  lemma {:induction false} KeptAndRemoved<T>(entries: seq<Entry<T>>, drop: T -> bool)
    ensures multiset(Items(entries)) == multiset(Items(Kept(entries, drop))) + multiset(Removed(entries, drop))
  {
    if entries == [] {
      assert Items(entries) == [] && Items(Kept(entries, drop)) == [];
    } else {
      var front, last := entries[..|entries| - 1], entries[|entries| - 1];
      KeptAndRemoved(front, drop);
      assert Items(entries) == Items(front) + [last.item];
      if drop(last.item) {
        assert Kept(entries, drop) == Kept(front, drop);
      } else {
        assert Items(Kept(entries, drop)) == Items(Kept(front, drop)) + [last.item];
        assert Removed(entries, drop) == Removed(front, drop);
      }
    }
  }

  lemma {:induction false} SubsequenceOfPrefix<T>(a: seq<T>, tail: seq<T>)
    ensures Subsequence(a, a + tail)
  {
    if tail == [] {
      SubsequenceOfItself(a);
      assert a + tail == a;
    } else {
      SubsequenceOfPrefix(a, tail[..|tail| - 1]);
      assert (a + tail)[..|a + tail| - 1] == a + tail[..|tail| - 1];
    }
  }

  /** What came out, then what is waiting, in the order it went in. */
  ghost predicate Ordered<T>(w: World<T>) {
    Subsequence(w.delivered + Items(w.queue.items), w.accepted)
  }

  /** What a section moves, with the watermarks left out. */
  datatype Ledger<T> = Ledger(accepted: seq<T>, delivered: seq<T>, flushed: seq<T>, discarded: seq<T>, pending: seq<T>)

  /** Where every accepted item is. */
  ghost predicate Conserved<T>(b: Ledger<T>) {
    multiset(b.accepted)
    == multiset(b.delivered) + multiset(b.flushed) + multiset(b.discarded) + multiset(b.pending)
  }

  function Books<T>(w: World<T>): Ledger<T> {
    Ledger(w.accepted, w.delivered, w.flushed, w.discarded, Items(w.queue.items))
  }

  function Moved<T>(w: World<T>, op: Op<T>): Ledger<T> {
    var b := Books(w);
    match op
    case Put(item, weight) => b.(accepted := b.accepted + [item], pending := b.pending + [item])
    case Get => if b.pending == [] then b else b.(delivered := b.delivered + [b.pending[0]], pending := b.pending[1..])
    case FlushMatching(drop) =>
      b.(flushed := b.flushed + Removed(w.queue.items, drop), pending := Items(Kept(w.queue.items, drop)))
    case CloseQueue => b
    case CancelQueue => b.(discarded := b.discarded + b.pending, pending := [])
  }

  lemma {:induction false} StepMoves<T>(c: Config, w: World<T>, op: Op<T>)
    ensures Books(Step(c, w, op)) == Moved(w, op) || Step(c, w, op) == w
  {
    var w' := Step(c, w, op);
    match op
    case Put(item, weight) => assert w' != w ==> Items(w'.queue.items) == Items(w.queue.items) + [item];
    case Get => assert w' != w ==> Items(w'.queue.items) == Items(w.queue.items)[1..];
    case FlushMatching(drop) =>
    case CloseQueue =>
    case CancelQueue => assert Items(w'.queue.items) == [];
  }

  lemma {:induction false} PutConserves<T>(b: Ledger<T>, item: T)
    requires Conserved(b)
    ensures Conserved(b.(accepted := b.accepted + [item], pending := b.pending + [item]))
  {
  }

  lemma {:induction false} GetConserves<T>(b: Ledger<T>)
    requires Conserved(b) && b.pending != []
    ensures Conserved(b.(delivered := b.delivered + [b.pending[0]], pending := b.pending[1..]))
  {
    assert b.pending == [b.pending[0]] + b.pending[1..];
  }

  lemma {:induction false} FlushConserves<T>(b: Ledger<T>, removed: seq<T>, kept: seq<T>)
    requires Conserved(b) && multiset(b.pending) == multiset(kept) + multiset(removed)
    ensures Conserved(b.(flushed := b.flushed + removed, pending := kept))
  {
  }

  lemma {:induction false} CancelConserves<T>(b: Ledger<T>)
    requires Conserved(b)
    ensures Conserved(b.(discarded := b.discarded + b.pending, pending := []))
  {
  }

  lemma {:induction false} MovedConserves<T>(w: World<T>, op: Op<T>)
    requires Conserved(Books(w))
    ensures Conserved(Moved(w, op))
  {
    hide Conserved;
    var b := Books(w);
    match op
    case Put(item, weight) => PutConserves(b, item);
    case Get => if b.pending != [] { GetConserves(b); }
    case FlushMatching(drop) =>
      KeptAndRemoved(w.queue.items, drop);
      FlushConserves(b, Removed(w.queue.items, drop), Items(Kept(w.queue.items, drop)));
    case CloseQueue =>
    case CancelQueue => CancelConserves(b);
  }

  lemma {:induction false} StepKeepsOrder<T>(c: Config, w: World<T>, op: Op<T>)
    requires Ordered(w)
    ensures Ordered(Step(c, w, op))
  {
    StepMoves(c, w, op);
    var b := Moved(w, op);
    var pending := Items(w.queue.items);
    var out, out' := w.delivered + pending, b.delivered + b.pending;
    match op
    case Put(item, weight) =>
      SubsequenceAppend(out, w.accepted, [item]);
      assert out' == out + [item];
    case Get => assert out' == out;
    case FlushMatching(drop) =>
      KeptIsSubsequence(w.delivered, w.queue.items, drop);
      SubsequenceTransitive(out', out, w.accepted);
    case CloseQueue =>
    case CancelQueue =>
      SubsequenceOfPrefix(w.delivered, pending);
      SubsequenceTransitive(w.delivered, out, w.accepted);
      assert out' == w.delivered;
  }

  /**
   * Every accepted item is delivered, flushed, discarded by a cancel or still pending, once; and what is
   * delivered, followed by what is pending, is in the order of acceptance.
   */
  lemma {:induction false} RunConserves<T>(c: Config, ops: seq<Op<T>>)
    ensures Conserved(Books(Run(c, ops))) && Ordered(Run(c, ops))
  {
    if ops != [] {
      var w, op := Run(c, ops[..|ops| - 1]), ops[|ops| - 1];
      RunConserves(c, ops[..|ops| - 1]);
      StepMoves(c, w, op);
      MovedConserves(w, op);
      StepKeepsOrder(c, w, op);
    }
  }
}
