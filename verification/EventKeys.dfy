/** The idempotency key an event gets when its producer gives none: which events it tells apart. */
module EventKeys {

  function Digit(d: nat): char
    requires d < 10
  {
    "0123456789"[d]
  }

  function Digits(n: nat): string {
    if n < 10 then [Digit(n)] else Digits(n / 10) + [Digit(n % 10)]
  }

  function Key(call: string, turn: string, eventType: string, sequence: nat): string {
    call + ":" + turn + ":" + eventType + ":" + Digits(sequence)
  }

  predicate NoColon(s: string) {
    ':' !in s
  }

  lemma {:induction false} DigitsHaveNoColon(n: nat)
    ensures NoColon(Digits(n)) && |Digits(n)| >= 1
  {
    assert forall d: nat :: d < 10 ==> Digit(d) != ':';
    if n >= 10 {
      DigitsHaveNoColon(n / 10);
    }
  }

  lemma {:induction false} DigitsTellApart(m: nat, n: nat)
    requires Digits(m) == Digits(n)
    ensures m == n
    decreases m + n
  {
    DigitsHaveNoColon(m / 10);
    DigitsHaveNoColon(n / 10);
    assert forall d: nat, e: nat :: d < 10 && e < 10 && Digit(d) == Digit(e) ==> d == e;
    var s, t := Digits(m), Digits(n);
    assert s[|s| - 1] == Digit(m % 10) && t[|t| - 1] == Digit(n % 10);
    if m >= 10 && n >= 10 {
      assert s[..|s| - 1] == Digits(m / 10) && t[..|t| - 1] == Digits(n / 10);
      DigitsTellApart(m / 10, n / 10);
    }
  }

  /** Two strings that agree agree on both sides of their last colon. */
  lemma {:induction false} LastColon(a: string, b: string, c: string, d: string)
    requires a + ":" + b == c + ":" + d && NoColon(b) && NoColon(d)
    ensures a == c && b == d
  {
    var s := a + ":" + b;
    ColonAt(s, a, b);
    ColonAt(s, c, d);
    assert a == s[..|a|] && c == s[..|c|];
    assert b == s[|a| + 1..] && d == s[|c| + 1..];
  }

  lemma {:induction false} ColonAt(s: string, a: string, b: string)
    requires s == a + ":" + b && NoColon(b)
    ensures |a| < |s| && s[|a|] == ':' && forall k :: |a| < k < |s| ==> s[k] != ':'
  {
    assert forall k :: |a| < k < |s| ==> s[k] == b[k - |a| - 1];
  }

  /** Whatever the call is called, a key names its call, turn, type and number if turns and types have no colon. */
  lemma {:induction false} KeysTellEventsApart(
    call: string, turn: string, eventType: string, sequence: nat,
    call': string, turn': string, eventType': string, sequence': nat)
    requires NoColon(turn) && NoColon(turn') && NoColon(eventType) && NoColon(eventType')
    requires Key(call, turn, eventType, sequence) == Key(call', turn', eventType', sequence')
    ensures call == call' && turn == turn' && eventType == eventType' && sequence == sequence'
  {
    DigitsHaveNoColon(sequence);
    DigitsHaveNoColon(sequence');
    LastColon(call + ":" + turn + ":" + eventType, Digits(sequence), call' + ":" + turn' + ":" + eventType', Digits(sequence'));
    DigitsTellApart(sequence, sequence');
    LastColon(call + ":" + turn, eventType, call' + ":" + turn', eventType');
    LastColon(call, turn, call', turn');
  }

  /** A colon in a turn's name makes it collide with another call's turn: one of the two events would be dropped. */
  lemma {:induction false} ColonsCollide(call: string, before: string, after: string, eventType: string, sequence: nat)
    ensures Key(call, before + ":" + after, eventType, sequence) == Key(call + ":" + before, after, eventType, sequence)
    ensures call != call + ":" + before
  {
    assert call + ":" + (before + ":" + after) == (call + ":" + before) + ":" + after;
    assert |call| < |call + ":" + before|;
  }

  /** The number that decimal digits stand for. */
  function Value(s: string): nat
    requires forall k :: 0 <= k < |s| ==> '0' <= s[k] <= '9'
  {
    if s == [] then 0 else 10 * Value(s[..|s| - 1]) + (s[|s| - 1] as int - '0' as int)
  }

  /** The sequence number is written in decimal. */
  lemma {:induction false} DigitsAreDecimal(n: nat)
    ensures forall k :: 0 <= k < |Digits(n)| ==> '0' <= Digits(n)[k] <= '9'
    ensures Value(Digits(n)) == n
    ensures n > 0 ==> Digits(n)[0] != '0'
  {
    assert forall d: nat :: d < 10 ==> Digit(d) as int - '0' as int == d;
    var s := Digits(n);
    if n >= 10 {
      DigitsAreDecimal(n / 10);
      assert s[..|s| - 1] == Digits(n / 10);
    } else {
      assert s[..0] == [];
    }
  }

  /** What a key looks like. */
  lemma {:induction false} KeyOfAnEvent()
    ensures Key("call-1", "turn-2", "usage.recorded", 17) == "call-1:turn-2:usage.recorded:17"
  {
    assert Digits(17) == Digits(1) + [Digit(7)];
    assert Digits(17) == "17";
  }
}
