/** What a durable action may do, as an automaton over its steps, and what that rules out. */
module ActionTrace {
  import opened Waits

  datatype State =
    Requested | CreateInFlight | Active | CancelInFlight | Cancelled | CannotCancel | Completed | Failed | TimedOut

  predicate Terminal(s: State) {
    s in {Cancelled, CannotCancel, Completed, Failed, TimedOut}
  }

  /**
   * How many poll rounds fit the run time, how long a round's wait is at most, which requests the tool has, and which
   * statuses it calls final.
   */
  datatype Limits = Limits(rounds: nat, interval: int, hasCancel: bool, hasStatus: bool, finals: set<string>)

  /** A status payload; an empty one is not looked at. */
  datatype Payload = Empty | Status(status: string)

  /**
   * A step: entering a state; the create request returning; the head of a poll round, reached with run time left;
   * the end of its wait, which a signal may have woken, after the time it took; a status request; the status a round
   * is left with, pushed or asked for; the cancel request and its reply; an await that raised; and the handler
   * entering a state. The flags are whether a cancel was recorded by then.
   */
  datatype Step =
    | Became(state: State)
    | CreateReturned(cancelRequested: bool)
    | Head(cancelRequested: bool)
    | Woke(cancelRequested: bool, woken: bool, waited: real)
    | StatusAsked
    | StatusSeen(payload: Payload)
    | CancelSent
    | CancelReplied(payload: Payload)
    | Raised(timeout: bool)
    | Handled(state: State)

  /** `awaiting` is whether the step before left an await that may still raise; polling is being at a loop head. */
  datatype Stage =
    | Start | Asked | Creating | Accepting | Polling(rounds: nat, awaiting: bool) | Waiting(rounds: nat)
    | Awake(rounds: nat, awaiting: bool) | Concluding(payload: Payload)
    | MustCancel | Cancelling | CancelAsked | CancelAnswered(payload: Payload) | Ended
    | Caught(timeout: bool) | Faulted | Escaped | Broken

  /** A wait takes no longer than its interval, and exactly that if nothing wakes it. */
  predicate Takes(interval: int, woken: bool, waited: real) {
    0.0 <= waited <= interval as real && (!woken ==> waited == interval as real)
  }

  /** Statuses with a meaning of their own, whatever the tool calls final. */
  const NAMED: set<string> := {"cancelled", "cannot_cancel", "failed", "rejected"}

  predicate Decides(finals: set<string>, p: Payload) {
    p.Status? && p.status in NAMED + finals
  }

  /** The state a status puts an action in. */
  predicate Gives(finals: set<string>, p: Payload, s: State) {
    match s
    case Cancelled => p == Status("cancelled")
    case CannotCancel => p == Status("cannot_cancel")
    case Failed => p == Status("failed") || p == Status("rejected")
    case Completed => p.Status? && p.status in finals - NAMED
    case _ => false
  }

  /** The state the reply to a cancel request puts it in. */
  predicate CancelGives(p: Payload, s: State) {
    match s
    case CannotCancel => p == Status("cannot_cancel")
    case Failed => p == Status("failed")
    case Cancelled => p != Status("cannot_cancel") && p != Status("failed")
    case _ => false
  }

  function Next(l: Limits, stage: Stage, step: Step): Stage {
    match (stage, step)
    case (Start, Became(Requested)) => Asked
    case (Asked, Became(CreateInFlight)) => Creating
    case (Asked, Raised(_)) => Escaped
    case (Creating, CreateReturned(cancel)) => if cancel then MustCancel else Accepting
    case (Accepting, Became(Active)) => Polling(0, true)
    case (Polling(r, _), Head(cancel)) => if r >= l.rounds then Broken else if cancel then MustCancel else Waiting(r)
    case (Waiting(r), Woke(_, woken, waited)) =>
      if Takes(l.interval, woken, waited) then Awake(r + 1, false) else Broken
    case (Awake(r, false), StatusAsked) => if l.hasStatus then Awake(r, true) else Broken
    case (Awake(r, _), StatusSeen(p)) => if Decides(l.finals, p) then Concluding(p) else Polling(r, false)
    case (Concluding(p), Became(s)) => if Gives(l.finals, p, s) then Ended else Broken
    case (Polling(r, _), Became(s)) => if s == TimedOut && r == l.rounds then Ended else Broken
    case (MustCancel, Became(s)) =>
      if s == CannotCancel && !l.hasCancel then Ended
      else if s == CancelInFlight && l.hasCancel then Cancelling else Broken
    case (Cancelling, CancelSent) => CancelAsked
    case (CancelAsked, CancelReplied(p)) => CancelAnswered(p)
    case (CancelAnswered(p), Became(s)) => if CancelGives(p, s) then Ended else Broken
    case (Creating, Raised(t)) => Caught(t)
    case (Polling(_, true), Raised(t)) => Caught(t)
    case (Awake(_, true), Raised(t)) => Caught(t)
    case (Cancelling, Raised(t)) => Caught(t)
    case (CancelAsked, Raised(t)) => Caught(t)
    case (Ended, Raised(t)) => Caught(t)
    case (Caught(t), Handled(s)) => if s == (if t then TimedOut else Failed) then Faulted else Broken
    case (Faulted, Raised(_)) => Escaped
    case _ => Broken
  }

  function Where(l: Limits, trace: seq<Step>): Stage {
    if trace == [] then Start else Next(l, Where(l, trace[..|trace| - 1]), trace[|trace| - 1])
  }

  predicate Lawful(l: Limits, trace: seq<Step>) {
    Where(l, trace) != Broken
  }

  function Rounds(trace: seq<Step>): nat {
    if trace == [] then 0
    else Rounds(trace[..|trace| - 1]) + (if trace[|trace| - 1].Woke? then 1 else 0)
  }

  /** How long the waits of a trace took. */
  function WaitsOf(trace: seq<Step>): seq<real> {
    if trace == [] then []
    else
      WaitsOf(trace[..|trace| - 1]) + (if trace[|trace| - 1].Woke? then [trace[|trace| - 1].waited] else [])
  }

  /** The number of rounds that cover a run time. */
  function Ceil(maxRuntime: int, pollInterval: int): nat
    requires maxRuntime >= 1 && pollInterval >= 1
  {
    (maxRuntime + pollInterval - 1) / pollInterval
  }

  lemma {:induction false} LawfulPrefix(l: Limits, trace: seq<Step>, n: nat)
    requires Lawful(l, trace) && n <= |trace|
    ensures Lawful(l, trace[..n])
    decreases |trace|
  {
    if n == |trace| {
      assert trace[..n] == trace;
    } else {
      assert trace[..|trace| - 1][..n] == trace[..n];
      LawfulPrefix(l, trace[..|trace| - 1], n);
    }
  }

  /** One step of a lawful trace. */
  lemma {:induction false} StepAt(l: Limits, trace: seq<Step>, k: nat)
    requires Lawful(l, trace) && k < |trace|
    ensures Lawful(l, trace[..k]) && Lawful(l, trace[..k + 1])
    ensures Where(l, trace[..k + 1]) == Next(l, Where(l, trace[..k]), trace[k])
  {
    LawfulPrefix(l, trace, k);
    LawfulPrefix(l, trace, k + 1);
    assert trace[..k + 1][..k] == trace[..k] && trace[..k + 1][k] == trace[k];
  }

  // ------------------------------------------------------------------- cancels

  /** A cancel was on record when the create request returned, or at the head of a round. */
  ghost predicate SeenInTime(trace: seq<Step>) {
    exists k :: 0 <= k < |trace| && trace[k] in {CreateReturned(true), Head(true)}
  }

  ghost predicate Sent(trace: seq<Step>) {
    exists k :: 0 <= k < |trace| && trace[k] == CancelSent
  }

  predicate BeforeCancel(stage: Stage) {
    || stage in {Start, Asked, Creating, Accepting} || stage.Polling? || stage.Waiting? || stage.Awake?
    || stage.Concluding?
  }

  lemma {:induction false} SeenSnoc(trace: seq<Step>, step: Step)
    ensures SeenInTime(trace + [step]) <==> SeenInTime(trace) || step in {CreateReturned(true), Head(true)}
    ensures Sent(trace + [step]) <==> Sent(trace) || step == CancelSent
  {
    assert (trace + [step])[|trace|] == step;
    assert forall k :: 0 <= k < |trace| ==> (trace + [step])[k] == trace[k];
  }

  /** What the stages say of the cancel so far. */
  lemma {:induction false} CancelSoFar(l: Limits, trace: seq<Step>)
    requires Lawful(l, trace)
    ensures BeforeCancel(Where(l, trace)) ==> !SeenInTime(trace) && !Sent(trace)
    ensures Where(l, trace) in {MustCancel, Cancelling} ==> SeenInTime(trace) && !Sent(trace)
    ensures Where(l, trace) == Cancelling ==> l.hasCancel
    ensures Where(l, trace) == CancelAsked || Where(l, trace).CancelAnswered? ==>
      SeenInTime(trace) && Sent(trace) && l.hasCancel
    ensures Where(l, trace) == Ended ==> (Sent(trace) <==> SeenInTime(trace) && l.hasCancel)
    ensures Sent(trace) ==> SeenInTime(trace) && l.hasCancel
  {
    if trace != [] {
      var front, step := trace[..|trace| - 1], trace[|trace| - 1];
      assert trace == front + [step];
      CancelSoFar(l, front);
      SeenSnoc(front, step);
      hide Decides;
      hide Gives;
      hide CancelGives;
      hide Takes;
      hide SeenInTime;
      hide Sent;
    }
  }

  /**
   * Exactly which cancels are sent: of an action that ended by itself, those on record when its create request
   * returned or at the head of a poll round with run time left, if the tool can cancel at all.
   */
  lemma {:induction false} CancelIsSentIffSeenInTime(l: Limits, trace: seq<Step>)
    requires Where(l, trace) == Ended
    ensures Sent(trace) <==> SeenInTime(trace) && l.hasCancel
  {
    CancelSoFar(l, trace);
  }

  /** The cancel request is sent at most once, and only after the create request returned. */
  lemma {:induction false} CancelIsSentOnce(l: Limits, trace: seq<Step>, k: nat)
    requires Lawful(l, trace) && k < |trace| && trace[k] == CancelSent
    ensures exists j :: 0 <= j < k && trace[j].CreateReturned?
    ensures forall j :: 0 <= j < |trace| && trace[j] == CancelSent ==> j == k
  {
    StepAt(l, trace, k);
    CreatedBefore(l, trace[..k]);
    forall j | 0 <= j < |trace| && trace[j] == CancelSent ensures j == k {
      StepAt(l, trace, j);
      if j < k {
        NotSentYet(l, trace, k, j);
      } else if k < j {
        NotSentYet(l, trace, j, k);
      }
    }
  }

  lemma {:induction false} NotSentYet(l: Limits, trace: seq<Step>, k: nat, j: nat)
    requires Lawful(l, trace) && j < k < |trace| && trace[k] == CancelSent
    ensures trace[j] != CancelSent
  {
    StepAt(l, trace, k);
    CancelSoFar(l, trace[..k]);
    assert trace[..k][j] == trace[j];
  }

  /** Past creation the create request has returned. */
  lemma {:induction false} CreatedBefore(l: Limits, trace: seq<Step>)
    requires var s := Where(l, trace);
      || s in {Accepting, MustCancel, Cancelling, CancelAsked, Ended} || s.CancelAnswered? || s.Polling?
      || s.Waiting? || s.Awake? || s.Concluding?
    ensures exists j :: 0 <= j < |trace| && trace[j].CreateReturned?
  {
    var front, step := trace[..|trace| - 1], trace[|trace| - 1];
    if !step.CreateReturned? {
      CreatedBefore(l, front);
      var j :| 0 <= j < |front| && front[j].CreateReturned?;
      assert trace[j] == front[j];
    }
  }

  /** An action cancelled before its create request returned is never active. */
  lemma {:induction false} EarlyCancelIsNeverActive(l: Limits, trace: seq<Step>, k: nat, j: nat)
    requires Lawful(l, trace) && k < |trace| && trace[k] == CreateReturned(true) && j < |trace|
    ensures trace[j] != Became(Active)
  {
    StepAt(l, trace, k);
    if k < j {
      NeverActiveFrom(l, trace, k, j);
    } else if j < k {
      BeforeCreated(l, trace[..k], j);
      assert trace[..k][j] == trace[j];
    }
  }

  predicate PastActive(stage: Stage) {
    stage !in {Start, Asked, Creating, Accepting}
  }

  lemma {:induction false} NeverActiveFrom(l: Limits, trace: seq<Step>, k: nat, j: nat)
    requires Lawful(l, trace) && k < j < |trace| && PastActive(Where(l, trace[..k + 1]))
    ensures trace[j] != Became(Active) && PastActive(Where(l, trace[..j]))
    decreases j
  {
    hide Where;
    StepAt(l, trace, j);
    if j > k + 1 {
      NeverActiveFrom(l, trace, k, j - 1);
      StepAt(l, trace, j - 1);
    }
  }

  lemma {:induction false} BeforeCreated(l: Limits, trace: seq<Step>, j: nat)
    requires Where(l, trace) in {Start, Asked, Creating} && j < |trace|
    ensures trace[j] != Became(Active)
  {
    if j < |trace| - 1 {
      BeforeCreated(l, trace[..|trace| - 1], j);
    }
  }

  // ------------------------------------------------------------------- statuses

  /**
   * What a status does: "failed" and "rejected" fail the action, "cancelled" and "cannot_cancel" say so, any other that
   * the tool calls final completes it, and nothing else ends it.
   */
  lemma {:induction false} StatusDecides(l: Limits, trace: seq<Step>, k: nat)
    requires Lawful(l, trace) && k + 1 < |trace| && trace[k].StatusSeen?
    ensures var (p, next) := (trace[k].payload, trace[k + 1]);
      && (next == Became(Failed) <==> p in {Status("failed"), Status("rejected")})
      && (next == Became(Cancelled) <==> p == Status("cancelled"))
      && (next == Became(CannotCancel) <==> p == Status("cannot_cancel"))
      && (next == Became(Completed) <==>
            p.Status? && p.status in l.finals && p.status !in {"cancelled", "cannot_cancel", "failed", "rejected"})
      && (next.Head? || next == Became(TimedOut) <==>
            p == Empty || (p.status !in l.finals && p.status !in {"cancelled", "cannot_cancel", "failed", "rejected"}))
  {
    StepAt(l, trace, k);
    StepAt(l, trace, k + 1);
    NextAfterStatus(l, Where(l, trace[..k]), trace[k].payload, trace[k + 1]);
    hide Where;
    hide Next;
  }

  lemma {:induction false} NextAfterStatus(l: Limits, stage: Stage, p: Payload, next: Step)
    requires Next(l, Next(l, stage, StatusSeen(p)), next) != Broken
    ensures if Decides(l.finals, p) then next.Became? && Gives(l.finals, p, next.state)
            else next.Head? || next == Became(TimedOut)
  {
    hide Decides;
    hide Gives;
    hide CancelGives;
    hide Takes;
  }

  /** What the reply to a cancel request does. */
  lemma {:induction false} CancelReplyDecides(l: Limits, trace: seq<Step>, k: nat)
    requires Lawful(l, trace) && k + 1 < |trace| && trace[k].CancelReplied?
    ensures var (p, next) := (trace[k].payload, trace[k + 1]);
      && (next == Became(Failed) <==> p == Status("failed"))
      && (next == Became(CannotCancel) <==> p == Status("cannot_cancel"))
      && (next == Became(Cancelled) <==> p !in {Status("failed"), Status("cannot_cancel")})
  {
    StepAt(l, trace, k);
    StepAt(l, trace, k + 1);
    NextAfterReply(l, Where(l, trace[..k]), trace[k].payload, trace[k + 1]);
    hide Where;
    hide Next;
  }

  lemma {:induction false} NextAfterReply(l: Limits, stage: Stage, p: Payload, next: Step)
    requires Next(l, Next(l, stage, CancelReplied(p)), next) != Broken
    ensures next.Became? && CancelGives(p, next.state)
  {
    hide Decides;
    hide Gives;
    hide CancelGives;
    hide Takes;
  }

  /** A terminal state that is entered was given by a status or a reply, was the time-out, or there is no cancelling. */
  lemma {:induction false} EndsForAReason(l: Limits, trace: seq<Step>, k: nat)
    requires Lawful(l, trace) && k < |trace| && trace[k].Became? && Terminal(trace[k].state)
    ensures k > 0
    ensures || trace[k].state == TimedOut
            || trace[k - 1].StatusSeen? || trace[k - 1].CancelReplied?
            || (trace[k].state == CannotCancel && !l.hasCancel && trace[k - 1] in {CreateReturned(true), Head(true)})
  {
    StepAt(l, trace, k);
    if k > 0 {
      StepAt(l, trace, k - 1);
      BeforeTheEnd(l, Where(l, trace[..k - 1]), trace[k - 1], trace[k].state);
    }
    hide Next;
  }

  lemma {:induction false} BeforeTheEnd(l: Limits, stage: Stage, step: Step, s: State)
    requires Terminal(s) && Next(l, Next(l, stage, step), Became(s)) != Broken
    ensures || s == TimedOut || step.StatusSeen? || step.CancelReplied?
            || (s == CannotCancel && !l.hasCancel && step in {CreateReturned(true), Head(true)})
  {
    hide Decides;
    hide Gives;
    hide CancelGives;
    hide Takes;
  }

  // -------------------------------------------------------------------- rounds

  /** While polling the rounds are counted, and there are never more than fit the run time. */
  lemma {:induction false} RoundsAreCounted(l: Limits, trace: seq<Step>)
    requires Lawful(l, trace)
    ensures Where(l, trace).Polling? ==> Rounds(trace) == Where(l, trace).rounds
    ensures Where(l, trace).Waiting? ==> Rounds(trace) == Where(l, trace).rounds < l.rounds
    ensures Where(l, trace).Awake? ==> Rounds(trace) == Where(l, trace).rounds
    ensures Where(l, trace) in {Start, Asked, Creating, Accepting} ==> Rounds(trace) == 0
    ensures Rounds(trace) <= l.rounds
  {
    hide Decides;
    hide Gives;
    hide CancelGives;
    hide Takes;
    if trace != [] {
      RoundsAreCounted(l, trace[..|trace| - 1]);
    }
  }

  /** An action that is timed out by the loop made every round there was, and no head of them saw a cancel. */
  lemma {:induction false} TimedOutMadeEveryRound(l: Limits, trace: seq<Step>)
    requires trace != [] && trace[|trace| - 1] == Became(TimedOut) && Lawful(l, trace)
    ensures Where(l, trace) == Ended && Rounds(trace) == l.rounds && !SeenInTime(trace) && !Sent(trace)
  {
    var front := trace[..|trace| - 1];
    assert trace == front + [Became(TimedOut)];
    RoundsAreCounted(l, front);
    CancelSoFar(l, front);
    SeenSnoc(front, Became(TimedOut));
  }

  ghost predicate SomethingWoke(trace: seq<Step>) {
    exists k :: 0 <= k < |trace| && trace[k].Woke? && trace[k].woken
  }

  /** The waits of a lawful trace are those of its rounds, and cut short only where something woke them. */
  lemma {:induction false} WaitsFit(l: Limits, trace: seq<Step>)
    requires Lawful(l, trace)
    ensures |WaitsOf(trace)| == Rounds(trace) && Fit(WaitsOf(trace), l.interval)
    ensures CutShort(WaitsOf(trace), l.interval) > 0.0 ==> SomethingWoke(trace)
  {
    if trace != [] {
      var front, step := trace[..|trace| - 1], trace[|trace| - 1];
      WaitsFit(l, front);
      assert step.Woke? ==> Takes(l.interval, step.woken, step.waited);
      hide Where;
      var before := WaitsOf(front);
      if step.Woke? {
        assert (before + [step.waited])[..|before|] == before;
      } else {
        assert before + [] == before;
      }
      if SomethingWoke(front) {
        var k :| 0 <= k < |front| && front[k].Woke? && front[k].woken;
        assert trace[k] == front[k];
      }
    }
  }

  /**
   * When the loop times an action out, the time it waited is at most what it counted, and it gives up before its run
   * time has passed exactly when its waits were cut short by more than the last round exceeded the run time.
   */
  lemma {:induction false} TimesOutEarlyIffCut(l: Limits, trace: seq<Step>, maxRuntime: int)
    requires trace != [] && trace[|trace| - 1] == Became(TimedOut) && Lawful(l, trace)
    ensures var waits := WaitsOf(trace);
      && |waits| == l.rounds && Fit(waits, l.interval)
      && Total(waits) <= Counted(waits, l.interval) as real
      && (Total(waits) < maxRuntime as real <==>
            CutShort(waits, l.interval) > (Counted(waits, l.interval) - maxRuntime) as real)
  {
    TimedOutMadeEveryRound(l, trace);
    WaitsFit(l, trace);
    EarlyIffCut(WaitsOf(trace), l.interval, maxRuntime);
    hide *;
  }

  // ------------------------------------------------------------------ failures

  /** Once the handler has run, a lawful trace has not gone back. */
  lemma {:induction false} HandledAfterEnd(l: Limits, trace: seq<Step>, k: nat)
    requires Lawful(l, trace) && k < |trace| && Where(l, trace[..k + 1]) == Ended
    ensures k + 1 == |trace| <==> Where(l, trace) == Ended
    ensures k + 1 < |trace| ==> trace[k + 1].Raised?
    ensures k + 2 == |trace| <==> Where(l, trace).Caught?
    ensures k + 2 < |trace| ==> trace[k + 2] == Handled(if trace[k + 1].timeout then TimedOut else Failed)
    ensures k + 2 < |trace| ==> Where(l, trace) in {Faulted, Escaped}
    decreases |trace|
  {
    if k + 1 == |trace| {
      assert trace[..k + 1] == trace;
    } else {
      var front := trace[..|trace| - 1];
      assert front[..k + 1] == trace[..k + 1];
      HandledAfterEnd(l, front, k);
      LawfulPrefix(l, trace, |front|);
      assert Where(l, trace) == Next(l, Where(l, front), trace[|front|]);
      hide Where;
    }
  }

  /** In a run that is over, a terminal state gives way to the handler's exactly when its own transition raised. */
  lemma {:induction false} TerminalFailsIffItRaises(l: Limits, trace: seq<Step>, k: nat)
    requires Lawful(l, trace) && !Where(l, trace).Caught?
    requires k < |trace| && trace[k].Became? && Terminal(trace[k].state)
    ensures (exists j :: k < j < |trace| && trace[j].Handled?) <==> k + 1 < |trace| && trace[k + 1].Raised?
    ensures k + 1 < |trace| ==> k + 2 < |trace| && trace[k + 2].Handled?
  {
    StepAt(l, trace, k);
    assert Where(l, trace[..k + 1]) == Ended by {
      hide Where;
    }
    HandledAfterEnd(l, trace, k);
    hide Where;
  }
}
