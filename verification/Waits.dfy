/** Waits that a signal may cut short, counted in full by the loops that make them. */
module Waits {

  /** How long one wait lasts: its whole interval, unless a signal that arrives `after` so long ends it. */
  function Waited(woken: bool, after: real, interval: int): (w: real)
    requires interval >= 0
    ensures 0.0 <= w <= interval as real
    ensures !woken ==> w == interval as real
  {
    if !woken || after > interval as real then interval as real else if after < 0.0 then 0.0 else after
  }

  function Total(waits: seq<real>): real {
    if waits == [] then 0.0 else Total(waits[..|waits| - 1]) + waits[|waits| - 1]
  }

  /** By how much the waits together fell short of their intervals. */
  function CutShort(waits: seq<real>, interval: int): real {
    if waits == [] then 0.0
    else CutShort(waits[..|waits| - 1], interval) + (interval as real - waits[|waits| - 1])
  }

  /** What a loop counts for its waits. */
  function Counted(waits: seq<real>, interval: int): int {
    |waits| * interval
  }

  ghost predicate Fit(waits: seq<real>, interval: int) {
    forall k :: 0 <= k < |waits| ==> 0.0 <= waits[k] <= interval as real
  }

  lemma {:induction false} OneMoreCount(n: nat, interval: int)
    ensures (n + 1) * interval == n * interval + interval
  {
  }

  lemma {:induction false} WaitsAndCuts(waits: seq<real>, interval: int)
    ensures Total(waits) + CutShort(waits, interval) == Counted(waits, interval) as real
  {
    if waits != [] {
      WaitsAndCuts(waits[..|waits| - 1], interval);
      OneMoreCount(|waits| - 1, interval);
    }
  }

  lemma {:induction false} CutsAreNotNegative(waits: seq<real>, interval: int)
    requires Fit(waits, interval)
    ensures CutShort(waits, interval) >= 0.0
    ensures CutShort(waits, interval) == 0.0 <==> forall k :: 0 <= k < |waits| ==> waits[k] == interval as real
  {
    if waits != [] {
      CutsAreNotNegative(waits[..|waits| - 1], interval);
      assert waits == waits[..|waits| - 1] + [waits[|waits| - 1]];
    }
  }

  /** The time waited is never more than what was counted, and less than a limit exactly when the cuts exceed the slack. */
  lemma {:induction false} EarlyIffCut(waits: seq<real>, interval: int, limit: int)
    requires Fit(waits, interval)
    ensures Total(waits) <= Counted(waits, interval) as real
    ensures Total(waits) < limit as real <==> CutShort(waits, interval) > (Counted(waits, interval) - limit) as real
    ensures Total(waits) <= limit as real <==> CutShort(waits, interval) >= (Counted(waits, interval) - limit) as real
  {
    WaitsAndCuts(waits, interval);
    CutsAreNotNegative(waits, interval);
    hide Total;
    hide CutShort;
    hide Counted;
    hide Fit;
  }

  /** No wait at all, and all of it counted. */
  function NoTime(n: nat): seq<real> {
    if n == 0 then [] else NoTime(n - 1) + [0.0]
  }

  lemma {:induction false} NoTimeTotal(n: nat)
    ensures Total(NoTime(n)) == 0.0 && |NoTime(n)| == n
  {
    if n > 0 {
      NoTimeTotal(n - 1);
      assert NoTime(n)[..|NoTime(n)| - 1] == NoTime(n - 1);
    }
  }
}
