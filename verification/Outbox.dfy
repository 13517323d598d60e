/** The outbox publisher: rows are sent and then marked, and what that leaves after failures and restarts. */
module Outbox {

  datatype Row = Row(id: nat, published: bool, attempts: nat)

  /** How far a row had come when the pass stopped. */
  datatype Point = BeforeSend | AfterSend | AfterMark

  /**
   * What happens to one row: it is sent and marked; the send is refused, or the mark after it, and that is recorded;
   * or the pass stops there, because the process dies or recording the failure fails too. With no replies left rows
   * are marked.
   */
  datatype Reply = Marked | Refused | Unmarked | Stops(at: Point)

  /** The table, what was sent so far, how many rows this pass counted, and whether it stopped. */
  datatype Box = Box(rows: seq<Row>, sent: seq<nat>, published: nat, stopped: bool)

  /** The indices of the oldest unpublished rows, at most `limit`. */
  function Selected(rows: seq<Row>, limit: nat): (s: seq<nat>)
    ensures forall k :: 0 <= k < |s| ==> s[k] < |rows|
  {
    if rows == [] then []
    else
      var front := Selected(rows[..|rows| - 1], limit);
      if |front| < limit && !rows[|rows| - 1].published then front + [|rows| - 1] else front
  }

  function ReplyTo(replies: seq<Reply>, k: nat): Reply {
    if k < |replies| then replies[k] else Marked
  }

  /** One row of the pass. */
  function Send(b: Box, i: nat, reply: Reply): (b': Box)
    requires i < |b.rows|
    ensures |b'.rows| == |b.rows|
  {
    var r := b.rows[i];
    if b.stopped then b
    else
      match reply
      case Marked =>
        Box(b.rows[i := r.(published := true, attempts := r.attempts + 1)], b.sent + [r.id], b.published + 1, false)
      case Refused => b.(rows := b.rows[i := r.(attempts := r.attempts + 1)])
      case Unmarked => b.(rows := b.rows[i := r.(attempts := r.attempts + 1)], sent := b.sent + [r.id])
      case Stops(at) =>
        b.(sent := if at == BeforeSend then b.sent else b.sent + [r.id],
           rows := if at == AfterMark then b.rows[i := r.(published := true, attempts := r.attempts + 1)] else b.rows,
           stopped := true)
  }

  function Pass(b: Box, s: seq<nat>, replies: seq<Reply>): (b': Box)
    requires forall k :: 0 <= k < |s| ==> s[k] < |b.rows|
    ensures |b'.rows| == |b.rows|
  {
    if s == [] then b else Send(Pass(b, s[..|s| - 1], replies), s[|s| - 1], ReplyTo(replies, |s| - 1))
  }

  // -------------------------------------------------------------------- the laws

  /** A published row was sent. */
  ghost predicate PublishedWereSent(b: Box) {
    forall k :: 0 <= k < |b.rows| && b.rows[k].published ==> b.rows[k].id in b.sent
  }

  /** Rows keep their identifiers, published rows do not change, and nothing sent is forgotten. */
  ghost predicate Follows(b: Box, b': Box) {
    && |b'.rows| == |b.rows| && b.sent <= b'.sent
    && forall k :: 0 <= k < |b.rows| ==> b'.rows[k].id == b.rows[k].id && (b.rows[k].published ==> b'.rows[k].published)
  }

  /** Whatever fails, and wherever a pass stops, a row is marked only after it was sent. */
  lemma {:induction false} PassMarksOnlySent(b: Box, s: seq<nat>, replies: seq<Reply>)
    requires PublishedWereSent(b) && forall k :: 0 <= k < |s| ==> s[k] < |b.rows|
    ensures PublishedWereSent(Pass(b, s, replies)) && Follows(b, Pass(b, s, replies))
  {
    if s != [] {
      PassMarksOnlySent(b, s[..|s| - 1], replies);
      SendMarksOnlySent(Pass(b, s[..|s| - 1], replies), s[|s| - 1], ReplyTo(replies, |s| - 1));
    }
  }

  lemma {:induction false} SendMarksOnlySent(b: Box, i: nat, reply: Reply)
    requires PublishedWereSent(b) && i < |b.rows|
    ensures PublishedWereSent(Send(b, i, reply)) && Follows(b, Send(b, i, reply))
  {
    if !b.stopped && reply != Refused && reply != Stops(BeforeSend) {
      assert (b.sent + [b.rows[i].id])[|b.sent|] == b.rows[i].id;
    }
  }

  lemma {:induction false} SelectedAreUnpublished(rows: seq<Row>, limit: nat)
    ensures forall k :: 0 <= k < |Selected(rows, limit)| ==> !rows[Selected(rows, limit)[k]].published
    ensures Selected(rows, limit) == [] <==> limit == 0 || forall k :: 0 <= k < |rows| ==> rows[k].published
  {
    if rows != [] {
      SelectedAreUnpublished(rows[..|rows| - 1], limit);
    }
  }

  /** A pass without failures marks every row it selected. */
  lemma {:induction false} HealthyPassMarksAll(b: Box, s: seq<nat>)
    requires !b.stopped && forall k :: 0 <= k < |s| ==> s[k] < |b.rows|
    ensures !Pass(b, s, []).stopped && Pass(b, s, []).published == b.published + |s|
    ensures forall k :: 0 <= k < |s| ==> Pass(b, s, []).rows[s[k]].published
    ensures forall i :: 0 <= i < |b.rows| && b.rows[i].published ==> Pass(b, s, []).rows[i].published
  {
    if s != [] {
      HealthyPassMarksAll(b, s[..|s| - 1]);
    }
  }

  lemma {:induction false} StoppedStays(b: Box, s: seq<nat>, n: nat, replies: seq<Reply>)
    requires n <= |s| && forall k :: 0 <= k < |s| ==> s[k] < |b.rows|
    requires Pass(b, s[..n], replies).stopped
    ensures Pass(b, s, replies) == Pass(b, s[..n], replies)
    decreases |s|
  {
    if n == |s| {
      assert s[..n] == s;
    } else {
      assert s[..|s| - 1][..n] == s[..n];
      StoppedStays(b, s[..|s| - 1], n, replies);
    }
  }

  /** What is selected are the oldest unpublished rows: every one of them, or as many as the limit, before all others. */
  lemma {:induction false} SelectedAreTheOldest(rows: seq<Row>, limit: nat)
    ensures var s := Selected(rows, limit);
      && |s| <= limit && (forall j, k :: 0 <= j < k < |s| ==> s[j] < s[k])
      && forall i :: 0 <= i < |rows| && !rows[i].published && i !in s ==>
           |s| == limit && forall k :: 0 <= k < |s| ==> s[k] < i
  {
    if rows != [] {
      SelectedAreTheOldest(rows[..|rows| - 1], limit);
      assert forall i :: 0 <= i < |rows| - 1 ==> rows[..|rows| - 1][i] == rows[i];
      var front, s := Selected(rows[..|rows| - 1], limit), Selected(rows, limit);
      if s != front {
        assert s[|front|] == |rows| - 1;
        assert forall i :: i in front ==> i in s;
      }
    }
  }

  /** What the first `n` replies of a pass let through to the broker, none of them stopping it. */
  function LetThrough(rows: seq<Row>, s: seq<nat>, replies: seq<Reply>, n: nat): seq<nat>
    requires n <= |s| && forall k :: 0 <= k < |s| ==> s[k] < |rows|
  {
    if n == 0 then []
    else
      LetThrough(rows, s, replies, n - 1)
        + if ReplyTo(replies, n - 1) == Refused then [] else [rows[s[n - 1]].id]
  }

  function MarkedAmong(replies: seq<Reply>, n: nat): nat {
    if n == 0 then 0 else MarkedAmong(replies, n - 1) + (if ReplyTo(replies, n - 1) == Marked then 1 else 0)
  }

  /** Rows that a pass works on: different ones, none of them published. */
  ghost predicate Workable(rows: seq<Row>, s: seq<nat>) {
    && (forall k :: 0 <= k < |s| ==> s[k] < |rows| && !rows[s[k]].published)
    && forall j, k :: 0 <= j < k < |s| ==> s[j] != s[k]
  }

  lemma {:induction false} SelectedAreWorkable(rows: seq<Row>, limit: nat)
    ensures Workable(rows, Selected(rows, limit))
  {
    SelectedAreTheOldest(rows, limit);
    SelectedAreUnpublished(rows, limit);
    hide Selected;
  }

  /** The first `n` rows got a reply each: they count an attempt, and those that were marked are published. */
  ghost predicate Answered(rows: seq<Row>, s: seq<nat>, replies: seq<Reply>, n: nat, rows': seq<Row>)
    requires Workable(rows, s) && n <= |s|
  {
    && |rows'| == |rows|
    && forall k :: 0 <= k < n ==>
         rows'[s[k]] == Row(rows[s[k]].id, ReplyTo(replies, k) == Marked, rows[s[k]].attempts + 1)
  }

  /** Only the first `n` rows may have changed. */
  ghost predicate Untouched(rows: seq<Row>, s: seq<nat>, n: nat, rows': seq<Row>)
    requires n <= |s| && |rows'| == |rows|
  {
    forall i :: 0 <= i < |rows| && i !in s[..n] ==> rows'[i] == rows[i]
  }

  lemma {:induction false} OneMoreAnswer(rows: seq<Row>, s: seq<nat>, replies: seq<Reply>, n: nat, rows': seq<Row>, r: Row)
    requires Workable(rows, s) && n < |s| && Answered(rows, s, replies, n, rows') && Untouched(rows, s, n, rows')
    ensures rows'[s[n]] == rows[s[n]]
    ensures Untouched(rows, s, n + 1, rows'[s[n] := r])
    ensures Answered(rows, s, replies, n, rows'[s[n] := r])
    ensures r == Row(rows[s[n]].id, ReplyTo(replies, n) == Marked, rows[s[n]].attempts + 1) ==>
      Answered(rows, s, replies, n + 1, rows'[s[n] := r])
  {
    assert s[..n + 1] == s[..n] + [s[n]];
    assert s[n] !in s[..n];
  }

  lemma {:induction false} SendIs(b: Box, i: nat, reply: Reply)
    requires i < |b.rows| && !b.stopped && !reply.Stops? && !b.rows[i].published
    ensures var r := b.rows[i];
      Send(b, i, reply) ==
        Box(b.rows[i := Row(r.id, reply == Marked, r.attempts + 1)],
            b.sent + (if reply == Refused then [] else [r.id]), b.published + (if reply == Marked then 1 else 0), false)
  {
    assert b.sent + [] == b.sent;
  }

  lemma {:induction false} PassSnoc(b: Box, s: seq<nat>, replies: seq<Reply>, n: nat)
    requires 1 <= n <= |s| && forall k :: 0 <= k < |s| ==> s[k] < |b.rows|
    ensures Pass(b, s[..n], replies) == Send(Pass(b, s[..n - 1], replies), s[n - 1], ReplyTo(replies, n - 1))
  {
    assert s[..n][..n - 1] == s[..n - 1];
    hide Send;
    hide ReplyTo;
  }

  /** The pass after `n` replies, none of which stopped it. */
  ghost predicate Worked(b: Box, s: seq<nat>, replies: seq<Reply>, n: nat, b': Box)
    requires Workable(b.rows, s) && n <= |s|
  {
    && Answered(b.rows, s, replies, n, b'.rows) && Untouched(b.rows, s, n, b'.rows)
    && b'.sent == b.sent + LetThrough(b.rows, s, replies, n)
    && b'.published == b.published + MarkedAmong(replies, n) && !b'.stopped
  }

  lemma {:induction false} OneMoreWorked(b: Box, s: seq<nat>, replies: seq<Reply>, n: nat, b': Box)
    requires Workable(b.rows, s) && n < |s| && Worked(b, s, replies, n, b') && !ReplyTo(replies, n).Stops?
    ensures Worked(b, s, replies, n + 1, Send(b', s[n], ReplyTo(replies, n)))
  {
    var r, reply := b.rows[s[n]], ReplyTo(replies, n);
    hide ReplyTo;
    OneMoreAnswer(b.rows, s, replies, n, b'.rows, Row(r.id, reply == Marked, r.attempts + 1));
    SendIs(b', s[n], reply);
    hide Answered;
    hide Untouched;
    hide Send;
    hide Workable;
    assert LetThrough(b.rows, s, replies, n + 1) ==
      LetThrough(b.rows, s, replies, n) + if reply == Refused then [] else [r.id];
    assert MarkedAmong(replies, n + 1) == MarkedAmong(replies, n) + if reply == Marked then 1 else 0;
    hide LetThrough;
    hide MarkedAmong;
  }

  lemma {:induction false} PassWorks(b: Box, s: seq<nat>, replies: seq<Reply>, n: nat)
    requires !b.stopped && Workable(b.rows, s) && n <= |s|
    requires forall k :: 0 <= k < n ==> !ReplyTo(replies, k).Stops?
    ensures Worked(b, s, replies, n, Pass(b, s[..n], replies))
  {
    if n == 0 {
      assert s[..0] == [] && b.sent + [] == b.sent;
    } else {
      PassWorks(b, s, replies, n - 1);
      PassSnoc(b, s, replies, n);
      OneMoreWorked(b, s, replies, n - 1, Pass(b, s[..n - 1], replies));
      hide Worked;
      hide ReplyTo;
      hide Pass;
      hide Send;
    }
  }

  /** The row a pass stops at: sent, and marked, as far as the pass came, and none but it and those before touched. */
  ghost predicate StoppedAt(b: Box, s: seq<nat>, replies: seq<Reply>, n: nat, at: Point, b': Box)
    requires Workable(b.rows, s) && n < |s|
  {
    var r := b.rows[s[n]];
    && Answered(b.rows, s, replies, n, b'.rows) && Untouched(b.rows, s, n + 1, b'.rows)
    && b'.rows[s[n]] == (if at == AfterMark then Row(r.id, true, r.attempts + 1) else r)
    && b'.sent == b.sent + LetThrough(b.rows, s, replies, n) + (if at == BeforeSend then [] else [r.id])
    && b'.published == b.published + MarkedAmong(replies, n) && b'.stopped
  }

  lemma {:induction false} StopsThere(b: Box, s: seq<nat>, replies: seq<Reply>, n: nat, at: Point, b': Box)
    requires Workable(b.rows, s) && n < |s| && Worked(b, s, replies, n, b')
    ensures StoppedAt(b, s, replies, n, at, Send(b', s[n], Stops(at)))
  {
    var r := b.rows[s[n]];
    OneMoreAnswer(b.rows, s, replies, n, b'.rows, r);
    OneMoreAnswer(b.rows, s, replies, n, b'.rows, Row(r.id, true, r.attempts + 1));
    assert b'.rows[s[n] := r] == b'.rows;
    assert b'.sent + [] == b'.sent;
    hide Answered;
    hide Untouched;
    hide LetThrough;
    hide MarkedAmong;
    hide ReplyTo;
  }

  /**
   * What a pass does, up to the row it stops at, if it stops: each row it came to counts an attempt, is sent unless
   * the send was refused, and is published exactly if it was marked; the row it stops at is sent or marked as far as
   * it came, and no other row is touched.
   */
  lemma {:induction false} PassIsTold(b: Box, s: seq<nat>, replies: seq<Reply>, n: nat)
    requires !b.stopped && Workable(b.rows, s) && n <= |s|
    requires forall k :: 0 <= k < n ==> !ReplyTo(replies, k).Stops?
    requires n < |s| ==> ReplyTo(replies, n).Stops?
    ensures if n == |s| then Worked(b, s, replies, n, Pass(b, s, replies))
            else StoppedAt(b, s, replies, n, ReplyTo(replies, n).at, Pass(b, s, replies))
  {
    hide Send;
    hide Worked;
    hide StoppedAt;
    PassWorks(b, s, replies, n);
    if n < |s| {
      PassSnoc(b, s, replies, n + 1);
      StopsThere(b, s, replies, n, ReplyTo(replies, n).at, Pass(b, s[..n], replies));
      StoppedIs(b, s, replies, n, ReplyTo(replies, n).at, Pass(b, s[..n + 1], replies));
      StoppedStays(b, s, n + 1, replies);
    } else {
      assert s[..n] == s;
    }
  }

  lemma {:induction false} StoppedIs(b: Box, s: seq<nat>, replies: seq<Reply>, n: nat, at: Point, b': Box)
    requires Workable(b.rows, s) && n < |s| && StoppedAt(b, s, replies, n, at, b')
    ensures b'.stopped
  {
  }

  function Unpublished(rows: seq<Row>): nat {
    if rows == [] then 0 else Unpublished(rows[..|rows| - 1]) + (if rows[|rows| - 1].published then 0 else 1)
  }

  lemma {:induction false} FewerUnpublished(rows: seq<Row>, rows': seq<Row>)
    requires |rows'| == |rows| && forall k :: 0 <= k < |rows| && rows[k].published ==> rows'[k].published
    ensures Unpublished(rows') <= Unpublished(rows)
    ensures (exists k :: 0 <= k < |rows| && !rows[k].published && rows'[k].published) ==> Unpublished(rows') < Unpublished(rows)
    ensures Unpublished(rows) == 0 <==> forall k :: 0 <= k < |rows| ==> rows[k].published
  {
    if rows != [] {
      FewerUnpublished(rows[..|rows| - 1], rows'[..|rows| - 1]);
    }
  }

  /** One pass after another, each with its own replies; what stopped before is started again. */
  function History(b: Box, limit: nat, passes: seq<seq<Reply>>): (b': Box)
    ensures |b'.rows| == |b.rows|
  {
    if passes == [] then b
    else
      var before := History(b, limit, passes[..|passes| - 1]).(published := 0, stopped := false);
      Pass(before, Selected(before.rows, limit), passes[|passes| - 1])
  }

  /** Whatever fails in any number of passes, a row is marked only after it was sent, and stays marked. */
  lemma {:induction false} HistoryMarksOnlySent(b: Box, limit: nat, passes: seq<seq<Reply>>)
    requires PublishedWereSent(b)
    ensures PublishedWereSent(History(b, limit, passes)) && Follows(b, History(b, limit, passes))
  {
    if passes != [] {
      var front := passes[..|passes| - 1];
      HistoryMarksOnlySent(b, limit, front);
      var before := History(b, limit, front).(published := 0, stopped := false);
      var s := Selected(before.rows, limit);
      hide Pass;
      hide Selected;
      assert PublishedWereSent(before) && Follows(b, before);
      PassMarksOnlySent(before, s, passes[|passes| - 1]);
      FollowsOn(b, before, Pass(before, s, passes[|passes| - 1]));
    }
  }

  /** The table after `n` passes without failures. */
  function Passes(b: Box, limit: nat, n: nat): (b': Box)
    ensures |b'.rows| == |b.rows|
  {
    if n == 0 then b
    else
      var b' := Passes(b, limit, n - 1);
      Pass(b', Selected(b'.rows, limit), [])
  }

  /** After any history, as many passes without failures as there are rows left publish them all. */
  lemma {:induction false} NothingStaysInTheOutbox(b: Box, limit: nat, passes: seq<seq<Reply>>, n: nat)
    requires limit >= 1 && PublishedWereSent(b) && n >= Unpublished(History(b, limit, passes).rows)
    ensures var end := Passes(History(b, limit, passes).(stopped := false), limit, n);
      forall k :: 0 <= k < |b.rows| ==> end.rows[k].published && end.rows[k].id == b.rows[k].id && b.rows[k].id in end.sent
  {
    HistoryMarksOnlySent(b, limit, passes);
    var from := History(b, limit, passes).(stopped := false);
    PassesLower(from, limit, n);
    var end := Passes(from, limit, n);
    FewerUnpublished(end.rows, end.rows);
    FollowsOn(b, from, end);
    hide Passes;
    hide History;
    hide Unpublished;
  }

  lemma {:induction false} OnePassLowers(b: Box, limit: nat)
    requires limit >= 1 && !b.stopped && PublishedWereSent(b)
    ensures var e := Pass(b, Selected(b.rows, limit), []);
      && !e.stopped && PublishedWereSent(e) && Follows(b, e)
      && Unpublished(e.rows) <= (if Unpublished(b.rows) > 0 then Unpublished(b.rows) - 1 else 0)
  {
    var s := Selected(b.rows, limit);
    SelectedAreUnpublished(b.rows, limit);
    HealthyPassMarksAll(b, s);
    PassMarksOnlySent(b, s, []);
    FewerUnpublished(b.rows, Pass(b, s, []).rows);
    hide Pass;
    hide Selected;
    hide Unpublished;
    hide PublishedWereSent;
    if s != [] {
      assert !b.rows[s[0]].published && Pass(b, s, []).rows[s[0]].published;
    }
  }

  lemma {:induction false} FollowsOn(b: Box, b': Box, b'': Box)
    requires Follows(b, b') && Follows(b', b'')
    ensures Follows(b, b'')
  {
  }

  lemma {:induction false} PassesLower(b: Box, limit: nat, n: nat)
    requires limit >= 1 && !b.stopped && PublishedWereSent(b)
    ensures var e := Passes(b, limit, n);
      && !e.stopped && PublishedWereSent(e) && Follows(b, e)
      && Unpublished(e.rows) <= (if Unpublished(b.rows) > n then Unpublished(b.rows) - n else 0)
  {
    if n > 0 {
      hide Pass;
      hide Selected;
      hide Unpublished;
      hide PublishedWereSent;
      hide Follows;
      PassesLower(b, limit, n - 1);
      OnePassLowers(Passes(b, limit, n - 1), limit);
      FollowsOn(b, Passes(b, limit, n - 1), Passes(b, limit, n));
    }
  }

  class OutboxPublisher {
    var rows: seq<Row>
    /** The identifiers sent to the broker, in order. */
    ghost var sent: seq<nat>

    ghost function State(published: nat, stopped: bool): Box
      reads this
    {
      Box(rows, sent, published, stopped)
    }

    constructor ()
      ensures rows == [] && sent == []
    {
      rows := [];
      sent := [];
    }

    /** One pass: the oldest unpublished rows are sent in order, and each is marked after it was sent. */
    method PublishBatch(limit: nat, replies: seq<Reply>) returns (published: nat, stopped: bool)
      modifies this
      ensures State(published, stopped) == Pass(old(State(0, false)), Selected(old(rows), limit), replies)
    {
      hide Selected;
      var s := Selected(rows, limit);
      published, stopped := 0, false;
      assert s[..0] == [];
      for k := 0 to |s|
        invariant |rows| == |old(rows)| && !stopped
        invariant State(published, false) == Pass(old(State(0, false)), s[..k], replies)
      {
        assert s[..k + 1][..k] == s[..k];
        var i, reply := s[k], ReplyTo(replies, k);
        var r := rows[i];
        if reply.Stops? {
          sent := sent + (if reply.at == BeforeSend then [] else [r.id]);
          if reply.at == AfterMark {
            rows := rows[i := r.(published := true, attempts := r.attempts + 1)];
          }
          StoppedStays(old(State(0, false)), s, k + 1, replies);
          return published, true;
        }
        if reply == Marked {
          sent := sent + [r.id];
          rows := rows[i := r.(published := true, attempts := r.attempts + 1)];
          published := published + 1;
        } else {
          sent := sent + (if reply == Unmarked then [r.id] else []);
          rows := rows[i := r.(attempts := r.attempts + 1)];
        }
      }
      assert s[..|s|] == s;
    }
  }
}
