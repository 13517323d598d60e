/** One flow-controlled queue as a value: what each critical section of the queue does to it. */
module Flow {
  import opened Options

  /** The watermarks and the item cap. */
  datatype Config = Config(low: real, high: real, hard: real, maxItems: nat) {
    /** What the settings validator guarantees of every queue the session builds. */
    predicate Valid() {
      0.0 <= low < high <= hard && 1 <= maxItems
    }
  }

  /** The three notices a queue can hand to its state-change callback. */
  datatype Signal = Cork | Hard | Uncork

  datatype Entry<+T> = Entry(item: T, weight: real)

  datatype Queue<+T> = Queue(
    items: seq<Entry<T>>, depth: real,
    corked: bool, hardLimited: bool, closed: bool, cancelled: bool)

  /** A queue after a critical section, with the notice that section produced. */
  datatype Outcome<+T> = Outcome(queue: Queue<T>, signal: Option<Signal>)

  function Empty<T>(): Queue<T> {
    Queue([], 0.0, false, false, false, false)
  }

  function Max(a: real, b: real): real {
    if a < b then b else a
  }

  function Weight<T>(entries: seq<Entry<T>>): real {
    if entries == [] then 0.0 else Weight(entries[..|entries| - 1]) + entries[|entries| - 1].weight
  }

  function Items<T>(entries: seq<Entry<T>>): seq<T> {
    seq(|entries|, k requires 0 <= k < |entries| => entries[k].item)
  }

  /** Compares the depth with the watermarks and moves the two flags. */
  function Observe<T>(c: Config, q: Queue<T>): Outcome<T> {
    if q.depth >= c.hard && !q.hardLimited then
      Outcome(q.(hardLimited := true, corked := true), Some(Hard))
    else if !q.corked && q.depth >= c.high then
      Outcome(q.(corked := true), Some(Cork))
    else if q.corked && q.depth <= c.low then
      Outcome(q.(corked := false, hardLimited := false), Some(Uncork))
    else
      Outcome(q, None)
  }

  /** The cork gate lets a producer through. */
  predicate GateOpen<T>(q: Queue<T>) {
    !q.corked || q.closed || q.cancelled
  }

  /** `put` stops waiting for a free slot. */
  predicate CanAppend<T>(c: Config, q: Queue<T>) {
    q.closed || q.cancelled || |q.items| < c.maxItems
  }

  /** The section of `put` behind the gate; a closed queue drops the item. */
  function Append<T>(c: Config, q: Queue<T>, item: T, weight: real): Outcome<T> {
    if q.closed || q.cancelled then
      Outcome(q, None)
    else
      var w := Max(0.0, weight);
      Observe(c, q.(items := q.items + [Entry(item, w)], depth := q.depth + w))
  }

  /** `get` stops waiting for an item. */
  predicate CanGet<T>(q: Queue<T>) {
    q.items != [] || q.closed || q.cancelled
  }

  /** Removes the oldest item. */
  function Take<T>(c: Config, q: Queue<T>): Outcome<T>
    requires q.items != []
  {
    Observe(c, q.(items := q.items[1..], depth := Max(0.0, q.depth - q.items[0].weight)))
  }

  function Kept<T>(entries: seq<Entry<T>>, drop: T -> bool): seq<Entry<T>> {
    if entries == [] then []
    else
      var last := entries[|entries| - 1];
      Kept(entries[..|entries| - 1], drop) + (if drop(last.item) then [] else [last])
  }

  function Removed<T>(entries: seq<Entry<T>>, drop: T -> bool): seq<T> {
    if entries == [] then []
    else
      var last := entries[|entries| - 1];
      Removed(entries[..|entries| - 1], drop) + (if drop(last.item) then [last.item] else [])
  }

  function Flush<T>(c: Config, q: Queue<T>, drop: T -> bool): Outcome<T> {
    var kept := Kept(q.items, drop);
    Observe(c, q.(items := kept, depth := Weight(kept)))
  }

  function Close<T>(q: Queue<T>): Queue<T> {
    q.(closed := true)
  }

  function Cancel<T>(q: Queue<T>): Queue<T> {
    Queue([], 0.0, false, false, true, true)
  }

  /** Depth is the sum of the queued weights, the cap holds, and the flags agree with the depth. */
  ghost predicate Inv<T>(c: Config, q: Queue<T>) {
    && q.depth == Weight(q.items)
    && (forall k :: 0 <= k < |q.items| ==> q.items[k].weight >= 0.0)
    && |q.items| <= c.maxItems
    && (q.depth >= c.high ==> q.corked)
    && (q.depth <= c.low ==> !q.corked)
    && (q.depth >= c.hard ==> q.hardLimited)
    && (q.hardLimited ==> q.corked)
    && (q.cancelled ==> q.closed && q.items == [])
  }

  lemma {:induction false} WeightNonNegative<T>(entries: seq<Entry<T>>)
    requires forall k :: 0 <= k < |entries| ==> entries[k].weight >= 0.0
    ensures Weight(entries) >= 0.0
  {
    if entries != [] {
      WeightNonNegative(entries[..|entries| - 1]);
    }
  }

  lemma {:induction false} WeightFront<T>(entries: seq<Entry<T>>)
    requires entries != []
    ensures Weight(entries) == entries[0].weight + Weight(entries[1..])
  {
    if |entries| > 1 {
      var front := entries[..|entries| - 1];
      WeightFront(front);
      assert entries[1..][..|entries| - 2] == front[1..];
    }
  }

  lemma {:induction false} KeptWeight<T>(entries: seq<Entry<T>>, drop: T -> bool)
    requires forall k :: 0 <= k < |entries| ==> entries[k].weight >= 0.0
    ensures Weight(Kept(entries, drop)) <= Weight(entries)
    ensures |Kept(entries, drop)| <= |entries|
    ensures forall k :: 0 <= k < |Kept(entries, drop)| ==> Kept(entries, drop)[k].weight >= 0.0
    ensures forall k :: 0 <= k < |Kept(entries, drop)| ==> Kept(entries, drop)[k] in entries && !drop(Kept(entries, drop)[k].item)
  {
    if entries != [] {
      var front := entries[..|entries| - 1];
      KeptWeight(front, drop);
      var kept := Kept(entries, drop);
      if drop(entries[|entries| - 1].item) {
        assert kept == Kept(front, drop);
      } else {
        assert kept[..|kept| - 1] == Kept(front, drop);
      }
    }
  }

  /** A put keeps the invariant, stays silent on a closed queue, and never uncorks; an item of no weight is silent. */
  lemma {:induction false} AppendKeepsInv<T>(c: Config, q: Queue<T>, item: T, weight: real)
    requires c.Valid() && Inv(c, q) && CanAppend(c, q)
    ensures Inv(c, Append(c, q, item, weight).queue)
    ensures Append(c, q, item, weight).signal != Some(Uncork)
    ensures weight <= 0.0 || q.closed ==> Append(c, q, item, weight).signal == None
  {
    var grown := q.items + [Entry(item, Max(0.0, weight))];
    assert grown[..|grown| - 1] == q.items;
  }

  /** A get keeps the invariant, and its clamp at zero changes nothing; the only notice it can produce is an uncork. */
  lemma {:induction false} TakeKeepsInv<T>(c: Config, q: Queue<T>)
    requires c.Valid() && Inv(c, q) && q.items != []
    ensures Inv(c, Take(c, q).queue)
    ensures Take(c, q).queue.depth == q.depth - q.items[0].weight
    ensures Take(c, q).signal in {None, Some(Uncork)}
  {
    WeightFront(q.items);
    WeightNonNegative(q.items[1..]);
  }

  /** A flush keeps the invariant, and the only notice it can produce is an uncork. */
  lemma {:induction false} FlushKeepsInv<T>(c: Config, q: Queue<T>, drop: T -> bool)
    requires c.Valid() && Inv(c, q)
    ensures Inv(c, Flush(c, q, drop).queue)
    ensures Flush(c, q, drop).queue.depth <= q.depth
    ensures Flush(c, q, drop).signal in {None, Some(Uncork)}
  {
    KeptWeight(q.items, drop);
  }
}
