/** Runs of the durable action: a cancel that comes too late, a run time used up without a wait, and a terminal state that
    cannot be announced. */
module ActionCases {
  import opened Options
  import opened ActionTrace
  import opened ActionRun
  import opened Waits

  const QUIET := Await([], Answer(Empty), 0.0)
  const CANCELLED := Await([CancelRequested], Answer(Empty), 0.0)

  lemma {:induction false} QuietAwait(m: Machine, rest: seq<Await>)
    requires m.script == [QUIET] + rest
    ensures Suspended(m) == (m.(script := rest), Answer(Empty))
  {
    assert m.script[1..] == rest && m.script[0] == QUIET;
  }

  function ThenQuiet(n: nat, rest: seq<Await>): seq<Await> {
    if n == 0 then rest else [QUIET] + ThenQuiet(n - 1, rest)
  }

  lemma {:induction false} QuietTransition(m: Machine, s: State, step: Step, n: nat, rest: seq<Await>)
    requires m.script == ThenQuiet(n + 2, rest)
    ensures Entered(m, s, step) == (Noted(m, step).(state := s, script := ThenQuiet(n, rest)), Done)
  {
    var m0 := Noted(m, step).(state := s);
    assert ThenQuiet(n + 2, rest) == [QUIET] + ThenQuiet(n + 1, rest);
    assert ThenQuiet(n + 1, rest) == [QUIET] + ThenQuiet(n, rest);
    hide ThenQuiet;
    QuietAwait(m0, ThenQuiet(n + 1, rest));
    QuietAwait(m0.(script := ThenQuiet(n + 1, rest)), ThenQuiet(n, rest));
    hide Suspended;
  }

  lemma {:induction false} CancelledAwait(m: Machine, rest: seq<Await>)
    requires m.script == [CANCELLED] + rest
    ensures Suspended(m) == (m.(script := rest, cancelRequested := true), Answer(Empty))
  {
    assert m.script[1..] == rest && m.script[0] == CANCELLED;
    assert [CancelRequested][..0] == [] && Signalled(m.(script := rest), []) == m.(script := rest);
  }

  lemma {:induction false} RaisingAwait(m: Machine, rest: seq<Await>)
    requires m.script == [Await([], Raises(false), 0.0)] + rest
    ensures Suspended(m) == (m.(script := rest), Raises(false))
  {
    assert m.script[1..] == rest && m.script[0] == Await([], Raises(false), 0.0);
  }

  /** A run that is undisturbed until its create request is out. */
  lemma {:induction false} UndisturbedStart(c: Config, m: Machine, rest: seq<Await>)
    requires c.Valid() && m.script == ThenQuiet(4, rest)
    ensures var m2 := Noted(Noted(m, Became(Requested)), Became(CreateInFlight)).(state := CreateInFlight, script := rest);
      && Transitioned(m, Requested).1 == Done
      && Transitioned(Transitioned(m, Requested).0, CreateInFlight) == (m2, Done)
  {
    QuietTransition(m, Requested, Became(Requested), 2, rest);
    var m1 := Noted(m, Became(Requested)).(state := Requested, script := ThenQuiet(2, rest));
    QuietTransition(m1, CreateInFlight, Became(CreateInFlight), 0, rest);
    assert ThenQuiet(0, rest) == rest;
    hide ThenQuiet;
    hide Entered;
  }

  lemma {:induction false} AttemptFrom(c: Config, m: Machine, m2: Machine, m3: Machine)
    requires c.Valid() && Transitioned(m, CreateInFlight) == (m2, Done) && Suspended(m2) == (m3, Answer(Empty))
    ensures Attempt(c, m) == Created(c, Noted(m3, CreateReturned(m3.cancelRequested)))
  {
    hide Transitioned;
    hide Suspended;
    hide Created;
  }

  lemma {:induction false} RunFrom(c: Config, m: Machine)
    requires c.Valid() && Transitioned(m, Requested).1 == Done
    ensures var (m2, outcome) := Attempt(c, Transitioned(m, Requested).0);
      outcome == Done ==> Run(c, m) == (m2, true)
  {
    hide Transitioned;
    hide Attempt;
  }

  lemma {:induction false} FailingRunFrom(c: Config, m: Machine)
    requires c.Valid() && Transitioned(m, Requested).1 == Done
    ensures var (m2, outcome) := Attempt(c, Transitioned(m, Requested).0);
      outcome == Threw(false) ==>
        Run(c, m) == (Entered(m2, Failed, Handled(Failed)).0, Entered(m2, Failed, Handled(Failed)).1 == Done)
  {
    hide Transitioned;
    hide Attempt;
    hide Entered;
  }

  /** A tool that can cancel, with time for a single round. */
  const ONE_ROUND := Config(true, false, {}, 1, 1)

  /** The cancel arrives during the wait of the only round. */
  const LATE_CANCEL := ThenQuiet(4, [QUIET] + ThenQuiet(2, [CANCELLED] + ThenQuiet(2, [])))

  lemma {:induction false} LateRound(m: Machine, rest: seq<Await>)
    requires m.script == [CANCELLED] + rest && m.externalStatus == None && !m.cancelRequested
    ensures Round(ONE_ROUND, m) ==
      (Noted(Noted(Noted(m, Head(false)), Woke(true, true, 0.0)), StatusSeen(Empty)).(script := rest, cancelRequested := true), Answer(Empty))
  {
    CancelledAwait(Noted(m, Head(false)), rest);
    hide Suspended;
  }

  lemma {:induction false} OneRoundThenTimedOut(m: Machine, m': Machine)
    requires !m.cancelRequested && Round(ONE_ROUND, m) == (m', Answer(Empty))
    ensures Poll(ONE_ROUND, m, 0) == Transitioned(m', TimedOut)
  {
    hide Round;
    hide Transitioned;
    hide CancelAfterCreate;
    assert Poll(ONE_ROUND, m', 1) == Transitioned(m', TimedOut);
    assert FinalState(ONE_ROUND, Empty) == None;
  }

  lemma {:induction false} LateCancelInPoll(m: Machine)
    requires m.script == [CANCELLED] + ThenQuiet(2, []) && m.externalStatus == None && !m.cancelRequested
    ensures Poll(ONE_ROUND, m, 0) ==
      (Machine(TimedOut, true, None, [], m.trace + [Head(false)] + [Woke(true, true, 0.0)] + [StatusSeen(Empty)] + [Became(TimedOut)]), Done)
  {
    LateRound(m, ThenQuiet(2, []));
    var m' := Noted(Noted(Noted(m, Head(false)), Woke(true, true, 0.0)), StatusSeen(Empty)).(script := ThenQuiet(2, []), cancelRequested := true);
    OneRoundThenTimedOut(m, m') by {
      hide Round;
    }
    QuietTransition(m', TimedOut, Became(TimedOut), 0, []);
    assert ThenQuiet(0, []) == [];
    hide ThenQuiet;
    hide Entered;
    hide Poll;
    hide Round;
  }

  lemma {:induction false} AcceptedQuietly(c: Config, m: Machine, rest: seq<Await>)
    requires c.Valid() && m.script == ThenQuiet(2, rest) && !m.cancelRequested
    ensures Created(c, m) == Poll(c, Noted(m, Became(Active)).(state := Active, script := rest), 0)
  {
    QuietTransition(m, Active, Became(Active), 0, rest);
    assert ThenQuiet(0, rest) == rest;
    hide ThenQuiet;
    hide Entered;
    hide Poll;
    hide CancelAfterCreate;
  }

  const LATE_TRACE := [Became(Requested), Became(CreateInFlight), CreateReturned(false), Became(Active), Head(false),
                       Woke(true, true, 0.0), StatusSeen(Empty), Became(TimedOut)]

  /** Everything before the only round, without a cancel. */
  lemma {:induction false} QuietUntilPolling(c: Config, rest: seq<Await>)
    requires c.Valid()
    ensures var m := Initial(ThenQuiet(4, [QUIET] + ThenQuiet(2, rest)));
      && Transitioned(m, Requested).1 == Done
      && Attempt(c, Transitioned(m, Requested).0) == Poll(c, Machine(Active, false, None, rest, CREATED_TRACE), 0)
  {
    var later := [QUIET] + ThenQuiet(2, rest);
    var m := Initial(ThenQuiet(4, later));
    UndisturbedStart(c, m, later);
    var m2 := Machine(CreateInFlight, false, None, later, [] + [Became(Requested)] + [Became(CreateInFlight)]);
    var m3 := m2.(script := ThenQuiet(2, rest));
    QuietAwait(m2, ThenQuiet(2, rest));
    AttemptFrom(c, Transitioned(m, Requested).0, m2, m3);
    AcceptedQuietly(c, Noted(m3, CreateReturned(false)), rest);
    assert CREATED_TRACE == m3.trace + [CreateReturned(false)] + [Became(Active)];
    hide *;
  }

  const CREATED_TRACE := [Became(Requested), Became(CreateInFlight), CreateReturned(false), Became(Active)]

  /** A cancel recorded in the last round's wait is not sent: the action is timed out. */
  lemma {:induction false} LateCancelTimesOut()
    ensures var (m, returned) := Run(ONE_ROUND, Initial(LATE_CANCEL));
      returned && m.state == TimedOut && m.cancelRequested && m.trace == LATE_TRACE && CancelSent !in m.trace
  {
    var last := [CANCELLED] + ThenQuiet(2, []);
    QuietUntilPolling(ONE_ROUND, last);
    LateCancelInPoll(Machine(Active, false, None, last, CREATED_TRACE));
    RunFrom(ONE_ROUND, Initial(LATE_CANCEL));
    LateTraceIs();
    hide *;
  }

  lemma {:induction false} LateTraceIs()
    ensures CREATED_TRACE + [Head(false)] + [Woke(true, true, 0.0)] + [StatusSeen(Empty)] + [Became(TimedOut)] == LATE_TRACE
  {
  }

  // ------------------------------------------------------------ used-up time

  /** A status that is not final, pushed at once. */
  function Burst(status: string): Await {
    Await([StatusUpdated(Status(status))], Answer(Empty), 0.0)
  }

  function Bursts(n: nat, status: string): seq<Await> {
    if n == 0 then ThenQuiet(2, []) else [Burst(status)] + Bursts(n - 1, status)
  }

  function AfterBurst(m: Machine, status: string, rest: seq<Await>): Machine {
    Noted(Noted(Noted(m, Head(false)), Woke(false, true, 0.0)), StatusSeen(Status(status))).(script := rest)
  }

  lemma {:induction false} BurstAwait(m: Machine, status: string, rest: seq<Await>)
    requires m.script == [Burst(status)] + rest
    ensures Suspended(m) == (m.(script := rest, externalStatus := Some(Status(status))), Answer(Empty)) && After(m) == 0.0
  {
    assert m.script[1..] == rest && m.script[0] == Burst(status);
    assert Burst(status).signals[..0] == [] && Signalled(m.(script := rest), []) == m.(script := rest);
  }

  lemma {:induction false} BurstRound(c: Config, m: Machine, status: string, rest: seq<Await>)
    requires c.Valid() && m.script == [Burst(status)] + rest && m.externalStatus == None && !m.cancelRequested
    ensures Round(c, m) == (AfterBurst(m, status, rest), Answer(Status(status)))
  {
    BurstAwait(Noted(m, Head(false)), status, rest);
    hide Suspended;
  }

  lemma {:induction false} BurstTurn(c: Config, m: Machine, elapsed: int, status: string, rest: seq<Await>)
    requires c.Valid() && m.script == [Burst(status)] + rest && m.externalStatus == None && !m.cancelRequested
    requires FinalState(c, Status(status)) == None && elapsed < c.maxRuntime
    ensures PollTurn(c, m, elapsed) == Again(AfterBurst(m, status, rest))
  {
    BurstRound(c, m, status, rest);
    hide Round;
    hide AfterBurst;
    hide Transitioned;
    hide CancelAfterCreate;
    hide FinalState;
  }

  lemma {:induction false} NoTimeMore(trace: seq<Step>, step: Step)
    ensures WaitsOf(trace + [step]) == WaitsOf(trace) + (if step.Woke? then [step.waited] else [])
    ensures (step.Woke? ==> step.waited == 0.0) ==> Total(WaitsOf(trace + [step])) == Total(WaitsOf(trace))
  {
    assert (trace + [step])[..|trace|] == trace;
    var waits := WaitsOf(trace);
    if step.Woke? {
      assert (waits + [step.waited])[..|waits|] == waits;
    } else {
      assert waits + [] == waits;
    }
    hide WaitsOf;
  }

  /** What a round that a burst ends leaves as it was. */
  lemma {:induction false} BurstTakesNoTime(m: Machine, status: string, rest: seq<Await>)
    ensures var m' := AfterBurst(m, status, rest);
      && m'.script == rest && m'.externalStatus == m.externalStatus && m'.cancelRequested == m.cancelRequested
      && Total(WaitsOf(m'.trace)) == Total(WaitsOf(m.trace))
  {
    NoTimeMore(m.trace, Head(false));
    NoTimeMore(m.trace + [Head(false)], Woke(false, true, 0.0));
    NoTimeMore(m.trace + [Head(false)] + [Woke(false, true, 0.0)], StatusSeen(Status(status)));
    hide WaitsOf;
    hide Total;
  }

  lemma {:induction false} TimesOutQuietly(c: Config, m: Machine, elapsed: int)
    requires c.Valid() && elapsed >= c.maxRuntime && m.script == ThenQuiet(2, [])
    ensures var (m', outcome) := Poll(c, m, elapsed);
      outcome == Done && m'.state == TimedOut && Total(WaitsOf(m'.trace)) == Total(WaitsOf(m.trace))
  {
    QuietTransition(m, TimedOut, Became(TimedOut), 0, []);
    NoTimeMore(m.trace, Became(TimedOut));
    hide Entered;
    hide ThenQuiet;
    hide WaitsOf;
    hide Total;
  }

  lemma {:induction false} PollGoesOn(c: Config, m: Machine, elapsed: int, m': Machine)
    requires c.Valid() && PollTurn(c, m, elapsed) == Again(m')
    ensures Poll(c, m, elapsed) == Poll(c, m', elapsed + c.pollInterval)
  {
    hide PollTurn;
  }

  lemma {:induction false} BurstsLeft(n: nat, status: string)
    ensures Bursts(n, status) == if n == 0 then ThenQuiet(2, []) else [Burst(status)] + Bursts(n - 1, status)
  {
    hide ThenQuiet;
  }

  lemma {:induction false} BurstsTimeOut(c: Config, m: Machine, r: nat, elapsed: int, status: string)
    requires c.Valid() && AtRound(c, r, elapsed) && r <= c.Limits().rounds
    requires m.script == Bursts(c.Limits().rounds - r, status) && m.externalStatus == None && !m.cancelRequested
    requires FinalState(c, Status(status)) == None
    ensures var (m', outcome) := Poll(c, m, elapsed);
      outcome == Done && m'.state == TimedOut && Total(WaitsOf(m'.trace)) == Total(WaitsOf(m.trace))
    decreases c.Limits().rounds - r
  {
    hide *;
    RoundsFit(c, r, elapsed);
    var n := c.Limits().rounds - r;
    BurstsLeft(n, status);
    if n == 0 {
      TimesOutQuietly(c, m, elapsed);
    } else {
      var rest := Bursts(n - 1, status);
      var m' := AfterBurst(m, status, rest);
      BurstTurn(c, m, elapsed, status, rest);
      BurstTakesNoTime(m, status, rest);
      PollGoesOn(c, m, elapsed, m');
      BurstsTimeOut(c, m', r + 1, elapsed + c.pollInterval, status);
    }
  }

  /** Whatever the run time, pushed statuses that are not final can use it up: the action is timed out without a wait. */
  lemma {:induction false} PushesUseUpTheRunTime(c: Config, status: string)
    requires c.Valid() && FinalState(c, Status(status)) == None
    ensures var bursts := Bursts(Ceil(c.maxRuntime, c.pollInterval), status);
      var (m, returned) := Run(c, Initial(ThenQuiet(4, [QUIET] + ThenQuiet(2, bursts))));
      returned && m.state == TimedOut && Total(WaitsOf(m.trace)) == 0.0
  {
    var bursts := Bursts(c.Limits().rounds, status);
    QuietUntilPolling(c, bursts);
    assert AtRound(c, 0, 0);
    CreatedTakesNoTime();
    hide *;
    BurstsTimeOut(c, Machine(Active, false, None, bursts, CREATED_TRACE), 0, 0, status) by {
      assert c.Limits().rounds - 0 == c.Limits().rounds;
    }
    RunFrom(c, Initial(ThenQuiet(4, [QUIET] + ThenQuiet(2, bursts))));
  }

  lemma {:induction false} CreatedTakesNoTime()
    ensures Total(WaitsOf(CREATED_TRACE)) == 0.0
  {
    assert CREATED_TRACE ==
      [] + [Became(Requested)] + [Became(CreateInFlight)] + [CreateReturned(false)] + [Became(Active)];
    NoTimeMore([], Became(Requested));
    NoTimeMore([] + [Became(Requested)], Became(CreateInFlight));
    NoTimeMore([] + [Became(Requested)] + [Became(CreateInFlight)], CreateReturned(false));
    NoTimeMore([] + [Became(Requested)] + [Became(CreateInFlight)] + [CreateReturned(false)], Became(Active));
    assert WaitsOf([]) == [] && Total([]) == 0.0;
    hide WaitsOf;
    hide Total;
  }

  // ------------------------------------------------------- a failed announcement

  /** The cancel arrives before the create request returns, the tool cannot cancel, and saying so raises. */
  const FAILED_ANNOUNCEMENT := ThenQuiet(4, [CANCELLED] + ([Await([], Raises(false), 0.0)] + ThenQuiet(2, [])))

  const CANNOT := Config(false, false, {}, 1, 1)

  const FAILED_TRACE := [Became(Requested), Became(CreateInFlight), CreateReturned(true), Became(CannotCancel),
                         Raised(false), Handled(Failed)]

  lemma {:induction false} CannotCancelRaises(m: Machine, rest: seq<Await>)
    requires m.script == [Await([], Raises(false), 0.0)] + rest && m.cancelRequested
    ensures Created(CANNOT, m) ==
      (Noted(Noted(m, Became(CannotCancel)), Raised(false)).(state := CannotCancel, script := rest), Threw(false))
  {
    RaisingAwait(Noted(m, Became(CannotCancel)).(state := CannotCancel), rest);
    hide Suspended;
    hide Poll;
  }

  lemma {:induction false} AttemptFails(rest: seq<Await>)
    ensures var m := Initial(ThenQuiet(4, [CANCELLED] + ([Await([], Raises(false), 0.0)] + rest)));
      && Transitioned(m, Requested).1 == Done
      && Attempt(CANNOT, Transitioned(m, Requested).0) ==
           (Machine(CannotCancel, true, None, rest, ANNOUNCED_TRACE), Threw(false))
  {
    var raising := [Await([], Raises(false), 0.0)] + rest;
    var later := [CANCELLED] + raising;
    var m := Initial(ThenQuiet(4, later));
    UndisturbedStart(CANNOT, m, later);
    var m2 := Machine(CreateInFlight, false, None, later, [] + [Became(Requested)] + [Became(CreateInFlight)]);
    var m3 := m2.(script := raising, cancelRequested := true);
    CancelledAwait(m2, raising);
    AttemptFrom(CANNOT, Transitioned(m, Requested).0, m2, m3);
    CannotCancelRaises(Noted(m3, CreateReturned(true)), rest);
    assert ANNOUNCED_TRACE == m3.trace + [CreateReturned(true)] + [Became(CannotCancel)] + [Raised(false)];
    hide *;
  }

  const ANNOUNCED_TRACE :=
    [Became(Requested), Became(CreateInFlight), CreateReturned(true), Became(CannotCancel), Raised(false)]

  /** A terminal state that could not be announced is failed. */
  lemma {:induction false} TerminalBecomesFailed()
    ensures var (m, returned) := Run(CANNOT, Initial(FAILED_ANNOUNCEMENT));
      returned && m.state == Failed && m.trace == FAILED_TRACE
  {
    AttemptFails(ThenQuiet(2, []));
    QuietTransition(Machine(CannotCancel, true, None, ThenQuiet(2, []), ANNOUNCED_TRACE), Failed, Handled(Failed), 0, []);
    FailingRunFrom(CANNOT, Initial(FAILED_ANNOUNCEMENT));
    assert ANNOUNCED_TRACE + [Handled(Failed)] == FAILED_TRACE;
    hide *;
  }
}
