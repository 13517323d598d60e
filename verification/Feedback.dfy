/** What the event worker publishes in answer to what it reads, and why the answers die out. */
module Feedback {
  import opened LedgerTables
  import opened LedgerOutbox
  import opened Projector

  /** A message waiting on the broker, as far as its answers go. */
  type Message = Event

  /** A message is new, with its call finalized before or not, or a repeat of an idempotency key. */
  datatype Reading = New(late: bool) | Repeat

  /**
   * What the answers to a message may be: the outbox row and the adjustment of a usage event, what the finalization
   * that a call's end starts announces, and the notice of a repeat.
   */
  function Answers(k: Kind, r: Reading): seq<Kind> {
    match r
    case Repeat => if k == DuplicateIgnored then [] else [DuplicateIgnored]
    case New(late) =>
      match k
      case UsageRecorded(_, _, _) => [BillingUsageRecorded] + (if late then [ADJUSTMENT_CREATED] else [])
      case CallEnded(_) => [BILLING_FINALIZED]
      case _ => []
  }

  // Neither is looked at by the projection.
  const BILLING_FINALIZED := OtherEvent
  const ADJUSTMENT_CREATED := OtherEvent

  function Weight(k: Kind): nat {
    match k
    case UsageRecorded(_, _, _) => 5
    case CallEnded(_) => 3
    case DuplicateIgnored => 1
    case _ => 2
  }

  function Weights(kinds: seq<Kind>): nat {
    if kinds == [] then 0 else Weights(kinds[..|kinds| - 1]) + Weight(kinds[|kinds| - 1])
  }

  /** All the answers to a message together weigh less than it does. */
  lemma {:induction false} AnswersWeighLess(k: Kind, r: Reading)
    ensures Weights(Answers(k, r)) < Weight(k)
  {
    var all := Answers(k, r);
    if |all| == 1 {
      WeightOfOne(all[0]);
      assert all == [all[0]];
    } else if |all| == 2 {
      assert all == [all[0]] + [all[1]];
      WeightsConcat([all[0]], [all[1]]);
      WeightOfOne(all[0]);
      WeightOfOne(all[1]);
    }
  }

  /** What a batch of one new message reports. */
  lemma {:induction false} ReportOfOne(seen: set<string>, finals: set<string>, x: Consumed)
    requires x.event.key !in seen
    ensures var report := Report(seen, finals, [x]);
      && (x in report.lateUsage <==> x.event.kind.UsageRecorded? && x.event.call in finals)
      && (x in report.callEnded <==> x.event.kind.CallEnded?)
  {
    assert [x][..0] == [];
    assert Inserted(seen, [x]) == [x];
    LateIsExact(finals, [x], x);
    EndsAreExact([x], x);
    hide Inserted;
    hide Late;
    hide CallEnds;
  }

  /**
   * The answers are what the projection of a message leads to: a billing message if it put a row in the outbox, the
   * announcement of an adjustment if the batch reports it as late usage, and that of a finalization if the batch
   * reports it as a call's end.
   */
  lemma {:induction false} AnswersFollowTheProjection(c: Config, t: Tables, x: Consumed, finals: set<string>)
    requires x.event.key !in t.keys && Apply(c, t, x).Some?
    requires forall k :: 0 <= k < |t.outbox| ==> t.outbox[k].source != x.event.id
    ensures var (report, t') := (Report(t.keys, finals, [x]), Apply(c, t, x).value);
      Answers(x.event.kind, New(x.event.call in finals)) ==
        (if |t'.outbox| > |t.outbox| then [BillingUsageRecorded] else [])
          + (if x in report.lateUsage then [ADJUSTMENT_CREATED] else [])
          + (if x in report.callEnded then [BILLING_FINALIZED] else [])
  {
    hide Apply;
    hide Report;
    AnnouncesTheBill(c, t, x);
    ReportOfOne(t.keys, finals, x);
  }

  predicate NoticeOf(cause: Message, notice: Message) {
    notice.call == cause.call && notice.turn == cause.turn && [notice.kind] == Answers(cause.kind, Repeat)
  }

  /** The loop over a batch's duplicates; `ids` and `times` are what the notices are given,
      and `name` is how an identifier is written. */
  method NoticeDuplicates(duplicates: seq<Message>, ids: seq<nat>, times: seq<real>, name: nat -> string)
    returns (notices: seq<Message>, origins: seq<nat>)
    requires |ids| == |times| == |duplicates|
    ensures |origins| == |notices|
    ensures forall k :: 0 <= k < |notices| ==>
      && origins[k] < |duplicates| && NoticeOf(duplicates[origins[k]], notices[k])
      && notices[k].key == "duplicate:" + name(duplicates[origins[k]].id)
    ensures forall j :: 0 <= j < |duplicates| ==> (j in origins <==> Answers(duplicates[j].kind, Repeat) != [])
    ensures forall j :: 0 <= j < |duplicates| ==> (j in origins <==> duplicates[j].kind != DuplicateIgnored)
    ensures forall k :: 0 <= k < |notices| ==> notices[k].kind == DuplicateIgnored && notices[k].stage == "idempotency"
    ensures forall j, k :: 0 <= j < k < |origins| ==> origins[j] < origins[k]
  {
    notices, origins := [], [];
    for j := 0 to |duplicates|
      invariant |origins| == |notices|
      invariant forall k :: 0 <= k < |notices| ==>
        && origins[k] < j && NoticeOf(duplicates[origins[k]], notices[k])
        && notices[k].key == "duplicate:" + name(duplicates[origins[k]].id)
      invariant forall i :: 0 <= i < j ==> (i in origins <==> Answers(duplicates[i].kind, Repeat) != [])
      invariant forall i :: 0 <= i < j ==> (i in origins <==> duplicates[i].kind != DuplicateIgnored)
      invariant forall k :: 0 <= k < |notices| ==> notices[k].kind == DuplicateIgnored && notices[k].stage == "idempotency"
      invariant forall i, k :: 0 <= i < k < |origins| ==> origins[i] < origins[k]
    {
      var e := duplicates[j];
      if e.kind != DuplicateIgnored {
        var key := "duplicate:" + name(e.id);
        notices := notices + [Event(ids[j], key, e.call, e.turn, "idempotency", times[j], DuplicateIgnored)];
        origins := origins + [j];
      }
    }
  }

  // ------------------------------------------------------------- dying out

  /**
   * A message is read, and some of its answers are on their way, the adjustment only after the outbox row; or a
   * message is delivered once more after a crash, a retried activity or a second publication.
   */
  datatype Turn = Read(index: nat, reading: Reading, answers: seq<Kind>) | Redelivered(kind: Kind)

  predicate Enabled(pending: seq<Kind>, t: Turn) {
    t.Read? ==> t.index < |pending| && t.answers <= Answers(pending[t.index], t.reading)
  }

  function After(pending: seq<Kind>, t: Turn): seq<Kind> {
    match t
    case Read(i, _, answers) => if i >= |pending| then pending else pending[..i] + pending[i + 1..] + answers
    case Redelivered(k) => pending + [k]
  }

  function Turns(pending: seq<Kind>, turns: seq<Turn>): seq<Kind> {
    if turns == [] then pending else After(Turns(pending, turns[..|turns| - 1]), turns[|turns| - 1])
  }

  predicate Possible(pending: seq<Kind>, turns: seq<Turn>) {
    turns == [] ||
    (Possible(pending, turns[..|turns| - 1]) && Enabled(Turns(pending, turns[..|turns| - 1]), turns[|turns| - 1]))
  }

  function Reads(turns: seq<Turn>): nat {
    if turns == [] then 0 else Reads(turns[..|turns| - 1]) + (if turns[|turns| - 1].Read? then 1 else 0)
  }

  function Redeliveries(turns: seq<Turn>): seq<Kind> {
    if turns == [] then []
    else
      Redeliveries(turns[..|turns| - 1]) + (if turns[|turns| - 1].Redelivered? then [turns[|turns| - 1].kind] else [])
  }

  /** What was read, and what was answered, over all turns. */
  function Taken(pending: seq<Kind>, turns: seq<Turn>): seq<Kind> {
    if turns == [] then []
    else
      var front, t, at := turns[..|turns| - 1], turns[|turns| - 1], Turns(pending, turns[..|turns| - 1]);
      Taken(pending, front) + (if t.Read? && t.index < |at| then [at[t.index]] else [])
  }

  function Given(turns: seq<Turn>): seq<Kind> {
    if turns == [] then []
    else Given(turns[..|turns| - 1]) + (if turns[|turns| - 1].Read? then turns[|turns| - 1].answers else [])
  }

  lemma {:induction false} OneOut<T>(at: seq<T>, i: nat)
    requires i < |at|
    ensures multiset(at) == multiset(at[..i] + at[i + 1..]) + multiset{at[i]}
  {
    assert at == at[..i] + [at[i]] + at[i + 1..];
  }

  /** Moving a part from one summand to the other, and adding one on both sides, keeps two sums equal. */
  lemma {:induction false} Balance<T>(
    rest: multiset<T>, part: multiset<T>, taken: multiset<T>, total: multiset<T>, more: multiset<T>)
    requires rest + part + taken == total
    ensures rest + more + (taken + part) == total + more
  {
    forall x: T ensures (rest + more + (taken + part))[x] == (total + more)[x] {
      assert (rest + part + taken)[x] == total[x];
    }
  }

  lemma {:induction false} ReadBalances<T>(
    at: seq<T>, i: nat, answers: seq<T>, taken: seq<T>, start: multiset<T>, given: seq<T>)
    requires i < |at| && multiset(at) + multiset(taken) == start + multiset(given)
    ensures multiset(at[..i] + at[i + 1..] + answers) + multiset(taken + [at[i]]) == start + multiset(given + answers)
  {
    OneOut(at, i);
    var rest := at[..i] + at[i + 1..];
    Balance(multiset(rest), multiset{at[i]}, multiset(taken), start + multiset(given), multiset(answers));
    assert multiset(rest + answers) == multiset(rest) + multiset(answers);
    assert multiset(taken + [at[i]]) == multiset(taken) + multiset{at[i]};
    assert multiset(given + answers) == multiset(given) + multiset(answers);
    assert start + multiset(given) + multiset(answers) == start + (multiset(given) + multiset(answers));
  }

  lemma {:induction false} AgainBalances<T>(
    at: seq<T>, k: T, taken: multiset<T>, start: multiset<T>, again: seq<T>, given: multiset<T>)
    requires multiset(at) + taken == start + multiset(again) + given
    ensures multiset(at + [k]) + taken == start + multiset(again + [k]) + given
  {
    assert multiset(at + [k]) == multiset(at) + multiset{k};
    assert multiset(again + [k]) == multiset(again) + multiset{k};
    forall x: T ensures (multiset(at + [k]) + taken)[x] == (start + multiset(again + [k]) + given)[x] {
      assert (multiset(at) + taken)[x] == (start + multiset(again) + given)[x];
    }
  }

  /** No message is lost: what is pending and what was read is what there was, what came again and what was answered. */
  lemma {:induction false} MessagesAreConserved(pending: seq<Kind>, turns: seq<Turn>)
    requires Possible(pending, turns)
    ensures multiset(Turns(pending, turns)) + multiset(Taken(pending, turns)) ==
      multiset(pending) + multiset(Redeliveries(turns)) + multiset(Given(turns))
  {
    if turns != [] {
      var front, t := turns[..|turns| - 1], turns[|turns| - 1];
      MessagesAreConserved(pending, front);
      var at, taken := Turns(pending, front), Taken(pending, front);
      var start, again, given := multiset(pending), Redeliveries(front), Given(front);
      assert taken + [] == taken && again + [] == again && given + [] == given;
      match t
      case Read(i, _, answers) => ReadBalances(at, i, answers, taken, start + multiset(again), given);
      case Redelivered(k) => AgainBalances(at, k, multiset(taken), start, again, multiset(given));
      hide Answers;
    }
  }

  lemma {:induction false} WeightsConcat(xs: seq<Kind>, ys: seq<Kind>)
    ensures Weights(xs + ys) == Weights(xs) + Weights(ys)
  {
    if ys == [] {
      assert xs + ys == xs;
    } else {
      assert (xs + ys)[..|xs + ys| - 1] == xs + ys[..|ys| - 1];
      WeightsConcat(xs, ys[..|ys| - 1]);
    }
  }

  lemma {:induction false} WeightOfOne(k: Kind)
    ensures Weights([k]) == Weight(k)
  {
    assert [k][..0] == [];
  }

  lemma {:induction false} PrefixWeighsNoMore(xs: seq<Kind>, ys: seq<Kind>)
    requires xs <= ys
    ensures Weights(xs) <= Weights(ys)
  {
    assert ys == xs + ys[|xs|..];
    WeightsConcat(xs, ys[|xs|..]);
    hide Weights;
  }

  lemma {:induction false} WithoutOne(kinds: seq<Kind>, i: nat)
    requires i < |kinds|
    ensures Weights(kinds) == Weights(kinds[..i] + kinds[i + 1..]) + Weight(kinds[i])
  {
    hide Weights;
    hide Weight;
    var before, after := kinds[..i], kinds[i + 1..];
    assert kinds == before + ([kinds[i]] + after);
    WeightsConcat(before, [kinds[i]] + after);
    WeightsConcat([kinds[i]], after);
    WeightsConcat(before, after);
    WeightOfOne(kinds[i]);
  }

  /** Reading a message lowers the total weight of what is pending. */
  lemma {:induction false} ReadingLowers(pending: seq<Kind>, t: Turn)
    requires t.Read? && Enabled(pending, t)
    ensures Weights(After(pending, t)) < Weights(pending)
  {
    hide Answers;
    hide Weight;
    hide Weights;
    WithoutOne(pending, t.index);
    WeightsConcat(pending[..t.index] + pending[t.index + 1..], t.answers);
    AnswersWeighLess(pending[t.index], t.reading);
    PrefixWeighsNoMore(t.answers, Answers(pending[t.index], t.reading));
  }

  /** However messages are ordered, repeated and answered, the reads are bounded by the weights put in. */
  lemma {:induction false} AnswersDieOut(pending: seq<Kind>, turns: seq<Turn>)
    requires Possible(pending, turns)
    ensures Reads(turns) + Weights(Turns(pending, turns)) <= Weights(pending) + Weights(Redeliveries(turns))
  {
    if turns != [] {
      var front, t := turns[..|turns| - 1], turns[|turns| - 1];
      AnswersDieOut(pending, front);
      var at := Turns(pending, front);
      match t
      case Read(_, _, _) =>
        ReadingLowers(at, t);
        assert Redeliveries(front) + [] == Redeliveries(front);
      case Redelivered(k) =>
        WeightsConcat(at, [k]);
        WeightsConcat(Redeliveries(front), [k]);
    }
  }
}
