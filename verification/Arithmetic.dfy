/** The few facts about products that the counting arguments need. */
module Arithmetic {
  lemma {:induction false} Distribute(a: int, b: int, d: int)
    ensures (a + b) * d == a * d + b * d
  {
  }

  lemma {:induction false} Monotone(a: int, b: int, d: int)
    requires a <= b && d >= 0
    ensures a * d <= b * d
  {
  }

  lemma {:induction false} Cancel(a: int, b: int, d: int)
    requires d > 0 && a * d < b * d
    ensures a < b
  {
    if a >= b {
      Monotone(b, a, d);
    }
  }

  /** Division counts whole parts. */
  lemma {:induction false} Parts(n: int, d: int)
    requires d > 0
    ensures n / d * d <= n < n / d * d + d
  {
  }
}
