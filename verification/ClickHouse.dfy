/** The analytics writer and its retry loop: how often it tries, and what has been acknowledged when it returns. */
module ClickHouse {
  import opened Options
  import opened Arithmetic

  function Pow2(n: nat): nat {
    if n == 0 then 1 else 2 * Pow2(n - 1)
  }

  lemma {:induction false} Pow2Grows(m: nat, n: nat)
    requires m <= n
    ensures 1 <= Pow2(m) <= Pow2(n)
    ensures m < n ==> Pow2(m) < Pow2(n)
    decreases n
  {
    if m == n {
      if n > 0 {
        Pow2Grows(n - 1, n - 1);
      }
    } else {
      Pow2Grows(m, n - 1);
    }
  }

  /** How many attempts are made: the delay before the next one, doubled each time, must not exceed the limit. */
  function Attempts(maxDelay: nat): (k: nat)
    ensures k >= 1 && Pow2(k - 1) > maxDelay
    ensures k >= 2 ==> Pow2(k - 2) <= maxDelay
  {
    FirstAbove(maxDelay, 0) + 1
  }

  /** The first power of two above a limit, from the nth on. */
  function FirstAbove(limit: nat, n: nat): (k: nat)
    requires n == 0 || Pow2(n - 1) <= limit
    ensures k >= n && Pow2(k) > limit
    ensures k == 0 || Pow2(k - 1) <= limit
    decreases limit + 1 - Pow2(n)
  {
    if Pow2(n) > limit then n
    else
      Pow2Grows(n, n + 1);
      FirstAbove(limit, n + 1)
  }

  /** So the number of attempts is logarithmic in the limit: it is bracketed between powers of two. */
  lemma {:induction false} AttemptsAreLogarithmic(maxDelay: nat, k: nat)
    requires maxDelay >= 1
    ensures Attempts(maxDelay) <= k + 2 <==> maxDelay < Pow2(k + 1)
  {
    var a := Attempts(maxDelay);
    if a <= k + 2 {
      Pow2Grows(a - 1, k + 1);
    } else {
      Pow2Grows(k + 1, a - 2);
    }
  }

  function Flatten<T>(parts: seq<seq<T>>): seq<T> {
    if parts == [] then [] else Flatten(parts[..|parts| - 1]) + parts[|parts| - 1]
  }

  /** A number of rows that fills whole buffers. */
  predicate Whole(rows: nat, size: nat)
    requires size >= 1
  {
    rows % size == 0
  }

  lemma {:induction false} WholeNone(size: nat)
    requires size >= 1
    ensures Whole(0, size)
  {
  }

  lemma {:induction false} WholeNext(rows: nat, size: nat)
    requires size >= 1 && Whole(rows, size)
    ensures Whole(rows + size, size)
  {
    var q := rows / size;
    Distribute(q, 1, size);
    Parts(rows + size, size);
    var q' := (rows + size) / size;
    if q' < q + 1 {
      Monotone(q' + 1, q + 1, size);
      Distribute(q', 1, size);
    }
    if q' > q + 1 {
      Monotone(q + 2, q', size);
      Distribute(q, 2, size);
    }
  }

  /** What is acknowledged once `done` rows of a batch are. */
  function Sent<T>(before: seq<T>, batch: seq<T>, done: nat): seq<T>
    requires done <= |batch|
  {
    before + batch[..done]
  }

  /** What is buffered of a batch after `done` rows were flushed and `k` added. */
  function Held<T>(batch: seq<T>, done: nat, k: nat): seq<T>
    requires done <= k <= |batch|
  {
    batch[done..k]
  }

  lemma {:induction false} NothingSent<T>(before: seq<T>, batch: seq<T>)
    ensures Sent(before, batch, 0) == before && Held(batch, 0, 0) == []
  {
  }

  lemma {:induction false} HeldSnoc<T>(batch: seq<T>, done: nat, k: nat)
    requires done <= k < |batch|
    ensures Held(batch, done, k) + [batch[k]] == Held(batch, done, k + 1)
    ensures |Held(batch, done, k)| == k - done
  {
  }

  lemma {:induction false} HeldIsSent<T>(before: seq<T>, batch: seq<T>, done: nat, k: nat)
    requires done <= k <= |batch|
    ensures Sent(before, batch, done) + Held(batch, done, k) == Sent(before, batch, k)
    ensures |Held(batch, done, k)| == k - done && Held(batch, k, k) == []
  {
  }

  lemma {:induction false} FlattenSnoc<T>(parts: seq<seq<T>>, part: seq<T>)
    ensures Flatten(parts + [part]) == Flatten(parts) + part
  {
    assert (parts + [part])[..|parts|] == parts;
  }

  lemma {:induction false} Pow2Doubles(n: nat)
    ensures Pow2(n + 1) == 2 * Pow2(n)
  {
  }

  // ------------------------------------------------------ what attempts repeat

  /** The next insert is acknowledged; with no replies left every insert is. */
  predicate Acknowledges(replies: seq<bool>) {
    replies == [] || replies[0]
  }

  function Remaining(replies: seq<bool>): seq<bool> {
    if replies == [] then [] else replies[1..]
  }

  /** How one attempt ends: whether it succeeded, how many rows were acknowledged, and the replies it left. */
  datatype Try = Try(ok: bool, done: nat, left: seq<bool>)

  /** One attempt at `n` rows through a buffer of `size`. */
  function Attempt(n: nat, size: nat, replies: seq<bool>): (t: Try)
    requires size >= 1
    ensures t.done <= n && (t.ok ==> t.done == n)
  {
    if n == 0 then Try(true, 0, replies)
    else if !Acknowledges(replies) then Try(false, 0, Remaining(replies))
    else if n <= size then Try(true, n, Remaining(replies))
    else Plus(size, Attempt(n - size, size, Remaining(replies)))
  }

  function Plus(done: nat, t: Try): Try {
    t.(done := done + t.done)
  }

  /** The outcome of up to `left` attempts, and how many rows each of the failed ones had acknowledged. */
  function Tries(n: nat, size: nat, replies: seq<bool>, left: nat): (bool, seq<nat>)
    requires size >= 1
    decreases left
  {
    if left == 0 then (false, [])
    else
      var t := Attempt(n, size, replies);
      if t.ok then (true, []) else Prepend([t.done], Tries(n, size, t.left, left - 1))
  }

  function Prepend(dones: seq<nat>, r: (bool, seq<nat>)): (bool, seq<nat>) {
    (r.0, dones + r.1)
  }

  /** A batch that fits the buffer is acknowledged whole or not at all. */
  lemma {:induction false} FittingBatchesDoNotRepeat(n: nat, size: nat, replies: seq<bool>, left: nat)
    requires size >= 1 && n <= size
    ensures forall k :: 0 <= k < |Tries(n, size, replies, left).1| ==> Tries(n, size, replies, left).1[k] == 0
    decreases left
  {
    if left > 0 {
      FittingBatchesDoNotRepeat(n, size, Attempt(n, size, replies).left, left - 1);
    }
  }

  /** Some failed attempt had acknowledged rows, which a later one sends again. */
  ghost predicate Repeats(n: nat, size: nat, replies: seq<bool>, left: nat)
    requires size >= 1
  {
    exists k :: 0 <= k < |Tries(n, size, replies, left).1| && Tries(n, size, replies, left).1[k] > 0
  }

  /** Exactly which batches some sequence of replies makes the retries repeat: those larger than the buffer. */
  lemma {:induction false} RepeatsIffLarger(n: nat, size: nat, left: nat)
    requires size >= 1 && left >= 1
    ensures (exists replies :: Repeats(n, size, replies, left)) <==> n > size
  {
    if n > size {
      var replies := [true, false];
      assert replies[1..] == [false];
      assert Attempt(n - size, size, [false]).done == 0;
      assert Attempt(n, size, replies).done == size && !Attempt(n, size, replies).ok;
      assert Tries(n, size, replies, left).1[0] == size;
      assert Repeats(n, size, replies, left);
    } else {
      forall replies ensures !Repeats(n, size, replies, left) {
        FittingBatchesDoNotRepeat(n, size, replies, left);
      }
    }
  }

  lemma {:induction false} FlattenEmpty<T>(parts: seq<seq<T>>)
    requires forall k :: 0 <= k < |parts| ==> parts[k] == []
    ensures Flatten(parts) == []
  {
    if parts != [] {
      FlattenEmpty(parts[..|parts| - 1]);
    }
  }

  lemma {:induction false} PrependSnoc(dones: seq<nat>, done: nat, r: (bool, seq<nat>))
    ensures Prepend(dones, Prepend([done], r)) == Prepend(dones + [done], r)
  {
    assert dones + ([done] + r.1) == dones + [done] + r.1;
  }

  lemma {:induction false} PrependNothing(r: (bool, seq<nat>))
    ensures Prepend([], r) == r
  {
    assert [] + r.1 == r.1;
  }

  lemma {:induction false} LengthsSnoc<T>(parts: seq<seq<T>>, part: seq<T>)
    ensures Lengths(parts + [part]) == Lengths(parts) + [|part|]
    ensures Lengths<T>([]) == []
  {
  }

  /** A full buffer is flushed in the middle of an attempt. */
  lemma {:induction false} FullBuffer(done: nat, n: nat, size: nat, replies: seq<bool>)
    requires size >= 1 && n >= size
    ensures Plus(done, Attempt(n, size, replies)) ==
      if Acknowledges(replies) then Plus(done + size, Attempt(n - size, size, Remaining(replies)))
      else Try(false, done, Remaining(replies))
  {
    hide Acknowledges;
    hide Remaining;
  }

  /** What is left in the buffer is flushed at the end of an attempt. */
  lemma {:induction false} LastBuffer(done: nat, n: nat, size: nat, replies: seq<bool>)
    requires n < size
    ensures Plus(done, Attempt(n, size, replies)) ==
      if n == 0 then Try(true, done, replies)
      else if Acknowledges(replies) then Try(true, done + n, Remaining(replies))
      else Try(false, done, Remaining(replies))
  {
    hide Acknowledges;
    hide Remaining;
  }

  lemma {:induction false} OneMoreTry(n: nat, size: nat, replies: seq<bool>, left: nat)
    requires size >= 1 && left >= 1
    ensures var t := Attempt(n, size, replies);
      Tries(n, size, replies, left) ==
        if t.ok then (true, []) else Prepend([t.done], Tries(n, size, t.left, left - 1))
  {
    hide Attempt;
    hide Prepend;
  }

  lemma {:induction false} NoMoreTries(n: nat, size: nat, replies: seq<bool>)
    requires size >= 1
    ensures Tries(n, size, replies, 0) == (false, [])
  {
  }

  lemma {:induction false} PrependAll(dones: seq<nat>, ok: bool)
    ensures Prepend(dones, (ok, [])) == (ok, dones)
  {
    assert dones + [] == dones;
  }

  function Lengths<T>(parts: seq<seq<T>>): seq<nat> {
    seq(|parts|, k requires 0 <= k < |parts| => |parts[k]|)
  }

  class BatchWriter<T> {
    const maxRows: nat
    var rows: seq<T>
    /** Whether each coming insert is acknowledged; with none left they are. */
    var replies: seq<bool>
    /** What the server has acknowledged, in order. */
    ghost var acknowledged: seq<T>

    constructor (maxRows: nat, replies: seq<bool>)
      ensures this.maxRows == maxRows && rows == [] && acknowledged == []
    {
      this.maxRows := maxRows;
      this.replies := replies;
      rows := [];
      acknowledged := [];
    }

    method InsertRows(batch: seq<T>) returns (ok: bool)
      modifies this`replies, this`acknowledged
      ensures acknowledged == old(acknowledged) + (if ok then batch else [])
      ensures ok == Acknowledges(old(replies)) && replies == Remaining(old(replies))
    {
      ok := true;
      if replies != [] {
        ok := replies[0];
        replies := replies[1..];
      }
      acknowledged := acknowledged + (if ok then batch else []);
    }

    /** Empties the buffer, whether or not the insert succeeds. */
    method Flush() returns (ok: bool)
      modifies this
      ensures rows == [] && (old(rows) == [] ==> ok)
      ensures acknowledged == old(acknowledged) + (if ok then old(rows) else [])
      ensures old(rows) == [] ==> replies == old(replies)
      ensures old(rows) != [] ==> ok == Acknowledges(old(replies)) && replies == Remaining(old(replies))
    {
      var batch := rows;
      rows := [];
      if batch == [] {
        return true;
      }
      ok := InsertRows(batch);
    }

    method Add(row: T) returns (ok: bool)
      modifies this
      ensures |old(rows)| + 1 < maxRows ==> ok && rows == old(rows) + [row] && acknowledged == old(acknowledged)
      ensures |old(rows)| + 1 >= maxRows ==>
        rows == [] && acknowledged == old(acknowledged) + (if ok then old(rows) + [row] else [])
      ensures |old(rows)| + 1 < maxRows ==> replies == old(replies)
      ensures |old(rows)| + 1 >= maxRows ==> ok == Acknowledges(old(replies)) && replies == Remaining(old(replies))
    {
      rows := rows + [row];
      ok := true;
      if |rows| >= maxRows {
        ok := Flush();
      }
    }

    /** One attempt: add every row, then flush. A failure has acknowledged whole buffers of the batch only. */
    method InsertAll(batch: seq<T>) returns (ok: bool, ghost done: nat)
      requires rows == [] && maxRows >= 1
      modifies this
      ensures rows == [] && done <= |batch|
      ensures acknowledged == old(acknowledged) + batch[..done]
      ensures ok ==> done == |batch|
      ensures !ok ==> done < |batch| && Whole(done, maxRows)
      ensures Try(ok, done, replies) == Attempt(|batch|, maxRows, old(replies))
    {
      done := 0;
      Begins(batch, maxRows, replies, acknowledged);
      hide *;
      for k := 0 to |batch|
        invariant Midway(batch, maxRows, old(replies), old(acknowledged), done, k, rows, acknowledged, replies)
      {
        Fills(batch, maxRows, old(replies), old(acknowledged), done, k, rows, acknowledged, replies);
        ok := Add(batch[k]);
        if !ok {
          return;
        }
        if k - done + 1 >= maxRows {
          done := k + 1;
        }
      }
      Empties(batch, maxRows, old(replies), old(acknowledged), done, rows, acknowledged, replies);
      ok := Flush();
      if ok {
        done := |batch|;
      }
    }
  }

  /** In the middle of an attempt: `done` rows are acknowledged, those up to `k` buffered, and the rest is to come. */
  ghost predicate Midway<T>(
    batch: seq<T>, size: nat, first: seq<bool>, before: seq<T>, done: nat, k: nat, rows: seq<T>, acked: seq<T>,
    replies: seq<bool>)
    requires size >= 1
  {
    && done <= k <= |batch| && Whole(done, size) && k - done < size
    && rows == Held(batch, done, k) && acked == Sent(before, batch, done)
    && Attempt(|batch|, size, first) == Plus(done, Attempt(|batch| - done, size, replies))
  }

  lemma {:induction false} Begins<T>(batch: seq<T>, size: nat, first: seq<bool>, before: seq<T>)
    requires size >= 1
    ensures Midway(batch, size, first, before, 0, 0, [], before, first)
  {
    WholeNone(size);
    NothingSent(before, batch);
    hide Attempt;
    hide Whole;
    hide Held;
    hide Sent;
  }

  /** One more row is buffered, or fills the buffer, which is acknowledged or ends the attempt. */
  lemma {:induction false} Fills<T>(
    batch: seq<T>, size: nat, first: seq<bool>, before: seq<T>, done: nat, k: nat, rows: seq<T>, acked: seq<T>,
    replies: seq<bool>)
    requires size >= 1 && k < |batch| && Midway(batch, size, first, before, done, k, rows, acked, replies)
    ensures done <= k && |rows| == k - done && done < |batch| && Whole(done, size) && acked == before + batch[..done]
    ensures k - done + 1 < size ==>
      Midway(batch, size, first, before, done, k + 1, rows + [batch[k]], acked, replies)
    ensures k - done + 1 >= size && Acknowledges(replies) ==>
      Midway(batch, size, first, before, k + 1, k + 1, [], acked + (rows + [batch[k]]), Remaining(replies))
    ensures k - done + 1 >= size && !Acknowledges(replies) ==>
      Attempt(|batch|, size, first) == Try(false, done, Remaining(replies)) && acked + [] == before + batch[..done]
  {
    HeldSnoc(batch, done, k);
    HeldIsSent(before, batch, done, k + 1);
    SentIs(before, batch, done);
    if k - done + 1 >= size {
      FullBuffer(done, |batch| - done, size, replies);
      WholeNext(done, size);
    }
    hide Held;
    hide Sent;
    hide Whole;
    hide Attempt;
    hide Plus;
    hide Acknowledges;
    hide Remaining;
  }

  /** The rest of the buffer is acknowledged, or ends the attempt. */
  lemma {:induction false} Empties<T>(
    batch: seq<T>, size: nat, first: seq<bool>, before: seq<T>, done: nat, rows: seq<T>, acked: seq<T>,
    replies: seq<bool>)
    requires size >= 1 && Midway(batch, size, first, before, done, |batch|, rows, acked, replies)
    ensures done <= |batch| && (rows == [] <==> done == |batch|) && Whole(done, size)
    ensures acked + [] == before + batch[..done] && acked + rows == before + batch[..|batch|]
    ensures Attempt(|batch|, size, first) ==
      if rows == [] then Try(true, |batch|, replies)
      else if Acknowledges(replies) then Try(true, |batch|, Remaining(replies))
      else Try(false, done, Remaining(replies))
  {
    LastBuffer(done, |batch| - done, size, replies);
    HeldIsSent(before, batch, done, |batch|);
    SentIs(before, batch, done);
    SentIs(before, batch, |batch|);
    hide Held;
    hide Sent;
    hide Whole;
    hide Attempt;
    hide Plus;
    hide Acknowledges;
    hide Remaining;
  }

  lemma {:induction false} SentIs<T>(before: seq<T>, batch: seq<T>, done: nat)
    requires done <= |batch|
    ensures Sent(before, batch, done) == before + batch[..done]
  {
  }

  /** Each of the parts is a shorter prefix of the rows, in whole buffers. */
  ghost predicate ShorterPrefixes<T>(parts: seq<seq<T>>, rows: seq<T>, size: nat)
    requires size >= 1
  {
    forall k :: 0 <= k < |parts| ==> parts[k] < rows && Whole(|parts[k]|, size)
  }

  lemma {:induction false} OneMorePrefix<T>(parts: seq<seq<T>>, rows: seq<T>, size: nat, done: nat)
    requires size >= 1 && ShorterPrefixes(parts, rows, size) && done < |rows| && Whole(done, size)
    ensures ShorterPrefixes(parts + [rows[..done]], rows, size)
    ensures Flatten(parts + [rows[..done]]) == Flatten(parts) + rows[..done]
    ensures Lengths(parts + [rows[..done]]) == Lengths(parts) + [done]
  {
    FlattenSnoc(parts, rows[..done]);
    LengthsSnoc(parts, rows[..done]);
    hide Flatten;
    hide Lengths;
    hide Whole;
  }

  lemma {:induction false} NoPrefixes<T>(rows: seq<T>, size: nat)
    requires size >= 1
    ensures ShorterPrefixes([], rows, size)
  {
  }

  /** What is acknowledged after failed attempts that had acknowledged these parts. */
  function Acked<T>(before: seq<T>, repeats: seq<seq<T>>): seq<T> {
    before + Flatten(repeats)
  }

  /** The attempts so far, and those the remaining replies still allow. */
  ghost predicate Progress<T>(
    rows: seq<T>, size: nat, first: seq<bool>, limit: nat, repeats: seq<seq<T>>, replies: seq<bool>)
    requires size >= 1
  {
    && |repeats| <= limit && ShorterPrefixes(repeats, rows, size)
    && Tries(|rows|, size, first, limit) ==
         Prepend(Lengths(repeats), Tries(|rows|, size, replies, limit - |repeats|))
  }

  lemma {:induction false} Begun<T>(before: seq<T>, rows: seq<T>, size: nat, first: seq<bool>, limit: nat)
    requires size >= 1
    ensures Progress(rows, size, first, limit, [], first) && Acked(before, []) == before && Pow2(0) == 1
  {
    NoPrefixes(rows, size);
    LengthsSnoc<T>([], []);
    PrependNothing(Tries(|rows|, size, first, limit));
    hide Tries;
    hide Prepend;
    hide Lengths;
  }

  lemma {:induction false} NotDelivered<T>(
    before: seq<T>, rows: seq<T>, size: nat, first: seq<bool>, limit: nat, repeats: seq<seq<T>>, replies: seq<bool>)
    requires size >= 1 && Progress(rows, size, first, limit, repeats, replies) && |repeats| < limit
    requires var t := Attempt(|rows|, size, replies); !t.ok && t.done < |rows| && Whole(t.done, size)
    ensures var t := Attempt(|rows|, size, replies);
      && Progress(rows, size, first, limit, repeats + [rows[..t.done]], t.left)
      && Acked(before, repeats + [rows[..t.done]]) == Acked(before, repeats) + rows[..t.done]
  {
    var t := Attempt(|rows|, size, replies);
    OneMorePrefix(repeats, rows, size, t.done);
    OneMoreTry(|rows|, size, replies, limit - |repeats|);
    PrependSnoc(Lengths(repeats), t.done, Tries(|rows|, size, t.left, limit - |repeats| - 1));
    hide ShorterPrefixes;
    hide Tries;
    hide Prepend;
    hide Lengths;
    hide Flatten;
    hide Attempt;
    hide Whole;
    assert before + Flatten(repeats) + rows[..t.done] == before + (Flatten(repeats) + rows[..t.done]);
  }

  lemma {:induction false} AckedWith<T>(before: seq<T>, repeats: seq<seq<T>>, rows: seq<T>)
    ensures Acked(before, repeats) + rows[..|rows|] == before + Flatten(repeats) + rows
    ensures Flatten(repeats) == [] ==> Acked(before, repeats) + rows[..|rows|] == before + rows
  {
    hide Flatten;
    assert rows[..|rows|] == rows;
    if Flatten(repeats) == [] {
      assert before + [] == before;
    }
  }

  lemma {:induction false} Delivered<T>(
    before: seq<T>, rows: seq<T>, size: nat, first: seq<bool>, limit: nat, repeats: seq<seq<T>>, replies: seq<bool>)
    requires size >= 1 && Progress(rows, size, first, limit, repeats, replies) && |repeats| < limit
    requires Attempt(|rows|, size, replies).ok
    ensures ShorterPrefixes(repeats, rows, size) && (true, Lengths(repeats)) == Tries(|rows|, size, first, limit)
    ensures Acked(before, repeats) + rows[..|rows|] == before + Flatten(repeats) + rows
    ensures |rows| <= size ==> Acked(before, repeats) + rows[..|rows|] == before + rows
  {
    OneMoreTry(|rows|, size, replies, limit - |repeats|);
    PrependAll(Lengths(repeats), true);
    AckedWith(before, repeats, rows);
    hide Tries;
    hide Prepend;
    hide Attempt;
    hide ShorterPrefixes;
    hide Lengths;
    hide Flatten;
    hide Acked;
    NothingRepeated(rows, size, first, limit, repeats);
  }

  lemma {:induction false} Exhausted<T>(
    before: seq<T>, rows: seq<T>, size: nat, first: seq<bool>, limit: nat, repeats: seq<seq<T>>, replies: seq<bool>)
    requires size >= 1 && Progress(rows, size, first, limit, repeats, replies) && |repeats| == limit
    ensures ShorterPrefixes(repeats, rows, size) && (false, Lengths(repeats)) == Tries(|rows|, size, first, limit)
    ensures Acked(before, repeats) == before + Flatten(repeats) + []
    ensures |rows| <= size ==> Acked(before, repeats) == before + []
  {
    NoMoreTries(|rows|, size, replies);
    PrependAll(Lengths(repeats), false);
    hide Tries;
    hide Prepend;
    hide ShorterPrefixes;
    NothingRepeated(rows, size, first, limit, repeats);
    hide Lengths;
    hide Flatten;
  }

  lemma {:induction false} NothingRepeated<T>(rows: seq<T>, size: nat, replies: seq<bool>, left: nat, repeats: seq<seq<T>>)
    requires size >= 1 && Lengths(repeats) == Tries(|rows|, size, replies, left).1
    ensures |rows| <= size ==> Flatten(repeats) == []
  {
    hide Tries;
    if |rows| <= size {
      FittingBatchesDoNotRepeat(|rows|, size, replies, left);
      forall k | 0 <= k < |repeats| ensures repeats[k] == [] {
        assert Lengths(repeats)[k] == 0;
      }
      FlattenEmpty(repeats);
    }
  }

  lemma {:induction false} NoMoreRows<T>(batch: seq<Option<T>>)
    ensures |Normalized(batch)| <= |batch|
  {
    if batch != [] {
      NoMoreRows(batch[..|batch| - 1]);
    }
  }

  class AnalyticsConsumer<T> {
    const writer: BatchWriter<T>
    const maxRetrySeconds: nat

    constructor (writer: BatchWriter<T>, maxRetrySeconds: nat)
      ensures this.writer == writer && this.maxRetrySeconds == maxRetrySeconds
    {
      this.writer := writer;
      this.maxRetrySeconds := maxRetrySeconds;
    }

    /**
     * Tries until every row is acknowledged or the doubled delay passes the limit. Each failed attempt may have left a
     * shorter prefix of the batch acknowledged, in whole buffers, which the next attempt sends again.
     */
    method InsertWithRetry(rows: seq<T>) returns (delivered: bool, failures: nat, ghost repeats: seq<seq<T>>)
      requires writer.rows == [] && writer.maxRows >= 1
      modifies writer
      ensures writer.rows == []
      ensures writer.acknowledged == old(writer.acknowledged) + Flatten(repeats) + (if delivered then rows else [])
      ensures |repeats| == failures
      ensures ShorterPrefixes(repeats, rows, writer.maxRows)
      ensures delivered ==> failures < Attempts(maxRetrySeconds)
      ensures !delivered ==> failures == Attempts(maxRetrySeconds)
      ensures (delivered, Lengths(repeats))
        == Tries(|rows|, writer.maxRows, old(writer.replies), Attempts(maxRetrySeconds))
      ensures |rows| <= writer.maxRows ==>
        writer.acknowledged == old(writer.acknowledged) + (if delivered then rows else [])
    {
      failures, repeats := 0, [];
      var delay := 1;
      ghost var limit, first := Attempts(maxRetrySeconds), writer.replies;
      Begun(writer.acknowledged, rows, writer.maxRows, first, limit);
      ghost var before := writer.acknowledged;
      hide *;
      while true
        invariant writer.rows == [] && delay == Pow2(failures) && |repeats| == failures < limit
        invariant writer.acknowledged == Acked(before, repeats)
        invariant Progress(rows, writer.maxRows, first, limit, repeats, writer.replies)
        decreases limit - failures
      {
        ghost var done: nat;
        ghost var replies := writer.replies;
        delivered, done := writer.InsertAll(rows);
        if delivered {
          Delivered(before, rows, writer.maxRows, first, limit, repeats, replies);
          return;
        }
        NotDelivered(before, rows, writer.maxRows, first, limit, repeats, replies);
        Pow2Doubles(failures);
        repeats := repeats + [rows[..done]];
        failures := failures + 1;
        if delay > maxRetrySeconds {
          LimitReached(maxRetrySeconds, failures);
          Exhausted(before, rows, writer.maxRows, first, limit, repeats, writer.replies);
          return;
        }
        LimitNotReached(maxRetrySeconds, failures);
        delay := delay * 2;
      }
    }

    /** A batch is handled once every row that could be normalized is acknowledged; only then are offsets committed. */
    method HandleBatch(batch: seq<Option<T>>) returns (handled: bool, ghost repeats: seq<seq<T>>)
      requires writer.rows == [] && writer.maxRows >= 1
      modifies writer
      ensures writer.rows == []
      ensures writer.acknowledged
        == old(writer.acknowledged) + Flatten(repeats) + (if handled then Normalized(batch) else [])
      ensures |batch| <= writer.maxRows ==>
        writer.acknowledged == old(writer.acknowledged) + (if handled then Normalized(batch) else [])
    {
      NoMoreRows(batch);
      var rows: seq<T> := [];
      repeats := [];
      for k := 0 to |batch|
        invariant rows == Normalized(batch[..k])
        invariant unchanged(writer)
      {
        assert batch[..k + 1][..k] == batch[..k];
        if batch[k].Some? {
          rows := rows + [batch[k].value];
        }
      }
      assert batch[..|batch|] == batch;
      if rows == [] {
        return true, [];
      }
      var failures: nat;
      handled, failures, repeats := InsertWithRetry(rows);
    }
  }

  function Normalized<T>(batch: seq<Option<T>>): seq<T> {
    if batch == [] then []
    else
      Normalized(batch[..|batch| - 1])
        + (if batch[|batch| - 1].Some? then [batch[|batch| - 1].value] else [])
  }

  lemma {:induction false} LimitReached(limit: nat, failures: nat)
    requires 1 <= failures <= Attempts(limit) && Pow2(failures - 1) > limit
    ensures failures == Attempts(limit)
  {
    if failures < Attempts(limit) {
      Pow2Grows(failures - 1, Attempts(limit) - 2);
    }
  }

  lemma {:induction false} LimitNotReached(limit: nat, failures: nat)
    requires 1 <= failures <= Attempts(limit) && Pow2(failures - 1) <= limit
    ensures failures < Attempts(limit)
  {
  }
}
