/** N concurrent producers on one queue: how far past the high watermark they can push it. */
module Overshoot {
  import opened Flow
  import H = FlowHistory

  /** The queue, and the producers that have passed its gate and not yet appended. */
  datatype System<T> = System(queue: Queue<T>, past: set<nat>)

  datatype Move<!T> =
    | PassGate(producer: nat)
    | AppendPast(producer: nat, item: T, weight: real)
    | AppendBypassing(item: T)
    | Consume
    | FlushMatching(drop: T -> bool)
    | CloseQueue
    | CancelQueue

  /** One move of `n` producers whose items weigh at most `w`; a move that is not possible changes nothing. */
  function Step<T>(c: Config, n: nat, w: real, s: System<T>, m: Move<T>): System<T> {
    match m
    case PassGate(p) =>
      if p < n && GateOpen(s.queue) then s.(past := s.past + {p}) else s
    case AppendPast(p, item, weight) =>
      if p in s.past && weight <= w && CanAppend(c, s.queue) then
        System(Append(c, s.queue, item, weight).queue, s.past - {p})
      else s
    case AppendBypassing(item) =>
      if CanAppend(c, s.queue) then s.(queue := Append(c, s.queue, item, 0.0).queue) else s
    case Consume => if s.queue.items == [] then s else s.(queue := Take(c, s.queue).queue)
    case FlushMatching(drop) => s.(queue := Flush(c, s.queue, drop).queue)
    case CloseQueue => s.(queue := Close(s.queue))
    case CancelQueue => s.(queue := Cancel(s.queue))
  }

  function Run<T>(c: Config, n: nat, w: real, moves: seq<Move<T>>): System<T> {
    if moves == [] then System(Empty(), {})
    else Step(c, n, w, Run(c, n, w, moves[..|moves| - 1]), moves[|moves| - 1])
  }

  /** The section of the queue that a move runs, if it runs one. */
  function SectionOf<T>(w: real, s: System<T>, m: Move<T>): seq<H.Op<T>> {
    match m
    case PassGate(_) => []
    case AppendPast(p, item, weight) => if p in s.past && weight <= w then [H.Put(item, weight)] else []
    case AppendBypassing(item) => [H.Put(item, 0.0)]
    case Consume => [H.Get]
    case FlushMatching(drop) => [H.FlushMatching(drop)]
    case CloseQueue => [H.CloseQueue]
    case CancelQueue => [H.CancelQueue]
  }

  function SectionsOf<T>(c: Config, n: nat, w: real, moves: seq<Move<T>>): seq<H.Op<T>> {
    if moves == [] then []
    else
      var front := moves[..|moves| - 1];
      SectionsOf(c, n, w, front) + SectionOf(w, Run(c, n, w, front), moves[|moves| - 1])
  }

  /** However many producers there are, the queue is the one that its sections make of it, in their order. */
  lemma {:induction false} ManyProducersAreOneQueue<T>(c: Config, n: nat, w: real, moves: seq<Move<T>>)
    ensures Run(c, n, w, moves).queue == H.Run(c, SectionsOf(c, n, w, moves)).queue
  {
    if moves != [] {
      var front, m := moves[..|moves| - 1], moves[|moves| - 1];
      ManyProducersAreOneQueue(c, n, w, front);
      var ops, s := SectionsOf(c, n, w, front), Run(c, n, w, front);
      var more := SectionOf(w, s, m);
      if more == [] {
        assert ops + more == ops;
      } else {
        assert (ops + more)[..|ops|] == ops && (ops + more)[|ops|] == more[0];
      }
      SectionIsStep(c, n, w, s, m, H.Run(c, ops));
      hide Step;
      hide H.Step;
      hide SectionOf;
    }
  }

  lemma {:induction false} SectionIsStep<T>(c: Config, n: nat, w: real, s: System<T>, m: Move<T>, world: H.World<T>)
    requires world.queue == s.queue
    ensures var ops := SectionOf(w, s, m);
      && |ops| <= 1
      && Step(c, n, w, s, m).queue == if ops == [] then s.queue else H.Step(c, world, ops[0]).queue
  {
    hide Observe;
    hide Kept;
    hide Removed;
    hide Items;
  }

  lemma {:induction false} AtMostN(s: set<nat>, n: nat)
    requires forall p :: p in s ==> p < n
    ensures |s| <= n
  {
    if n > 0 {
      AtMostN(s - {n - 1}, n - 1);
    }
  }

  /** The weight `k` items may have together. */
  function Share(k: nat, w: real): real {
    if k == 0 then 0.0 else Share(k - 1, w) + w
  }

  lemma {:induction false} ShareIsProduct(k: nat, w: real)
    ensures Share(k, w) == k as real * w
  {
    if k > 0 {
      ShareIsProduct(k - 1, w);
    }
  }

  lemma {:induction false} ShareGrows(k: nat, n: nat, w: real)
    requires k <= n && w >= 0.0
    ensures 0.0 <= Share(k, w) <= Share(n, w)
  {
    if k > 0 {
      ShareGrows(k - 1, n - 1, w);
    } else if n > 0 {
      ShareGrows(k, n - 1, w);
    }
  }

  /** Every producer past the gate has its share of the overshoot still reserved. */
  ghost predicate Reserved<T>(c: Config, n: nat, w: real, s: System<T>) {
    && Inv(c, s.queue)
    && (forall p :: p in s.past ==> p < n)
    && s.queue.depth < c.high + Share(n, w)
    && (!s.queue.closed ==> s.queue.depth + Share(|s.past|, w) < c.high + Share(n, w))
  }

  lemma {:induction false} GateReserves<T>(c: Config, n: nat, w: real, s: System<T>, p: nat)
    requires c.Valid() && w >= 0.0 && Reserved(c, n, w, s)
    requires p < n && GateOpen(s.queue)
    ensures Reserved(c, n, w, s.(past := s.past + {p}))
  {
    AtMostN(s.past + {p}, n);
    ShareGrows(|s.past + {p}|, n, w);
  }

  lemma {:induction false} AppendUsesItsShare<T>(c: Config, n: nat, w: real, s: System<T>, p: nat, item: T, weight: real)
    requires c.Valid() && w >= 0.0 && Reserved(c, n, w, s)
    requires p in s.past && weight <= w && CanAppend(c, s.queue)
    ensures Reserved(c, n, w, System(Append(c, s.queue, item, weight).queue, s.past - {p}))
  {
    AppendKeepsInv(c, s.queue, item, weight);
    assert |s.past| == |s.past - {p}| + 1;
    assert Share(|s.past|, w) == Share(|s.past - {p}|, w) + w;
    ShareGrows(|s.past - {p}|, |s.past|, w);
  }

  lemma {:induction false} StepReserves<T>(c: Config, n: nat, w: real, s: System<T>, m: Move<T>)
    requires c.Valid() && w >= 0.0 && Reserved(c, n, w, s)
    ensures Reserved(c, n, w, Step(c, n, w, s, m))
  {
    match m
    case PassGate(p) => if p < n && GateOpen(s.queue) { GateReserves(c, n, w, s, p); }
    case AppendPast(p, item, weight) =>
      if p in s.past && weight <= w && CanAppend(c, s.queue) { AppendUsesItsShare(c, n, w, s, p, item, weight); }
    case AppendBypassing(item) => if CanAppend(c, s.queue) { AppendKeepsInv(c, s.queue, item, 0.0); }
    case Consume => if s.queue.items != [] { TakeKeepsInv(c, s.queue); }
    case FlushMatching(drop) => FlushKeepsInv(c, s.queue, drop);
    case CloseQueue =>
    case CancelQueue => ShareGrows(0, n, w);
  }

  /** In every interleaving of N producers the depth stays below the high watermark plus one item each. */
  lemma {:induction false} OvershootIsBounded<T>(c: Config, n: nat, w: real, moves: seq<Move<T>>)
    requires c.Valid() && w >= 0.0
    ensures Reserved(c, n, w, Run(c, n, w, moves))
    ensures Run(c, n, w, moves).queue.depth < c.high + n as real * w
  {
    hide Step;
    ShareIsProduct(n, w);
    if moves == [] {
      ShareGrows(0, n, w);
    } else {
      OvershootIsBounded(c, n, w, moves[..|moves| - 1]);
      StepReserves(c, n, w, Run(c, n, w, moves[..|moves| - 1]), moves[|moves| - 1]);
    }
  }

  lemma {:induction false} StepBelowHard<T>(c: Config, n: nat, w: real, s: System<T>, m: Move<T>)
    requires !s.queue.hardLimited && Step(c, n, w, s, m).queue.depth < c.hard
    ensures !Step(c, n, w, s, m).queue.hardLimited
  {
  }

  /** With room for every producer's item between the two watermarks, the hard limit is never reached. */
  lemma {:induction false} HardLimitIsNeverReached<T>(c: Config, n: nat, w: real, moves: seq<Move<T>>)
    requires c.Valid() && w >= 0.0 && n as real * w <= c.hard - c.high
    ensures !Run(c, n, w, moves).queue.hardLimited
  {
    hide Step;
    if moves != [] {
      OvershootIsBounded(c, n, w, moves);
      HardLimitIsNeverReached(c, n, w, moves[..|moves| - 1]);
      StepBelowHard(c, n, w, Run(c, n, w, moves[..|moves| - 1]), moves[|moves| - 1]);
    }
  }
}
