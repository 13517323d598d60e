/** The durable action as a function of everything the outside does, and what all its runs keep. */
module ActionRun {
  import opened Options
  import opened ActionTrace
  import opened Arithmetic
  import opened Waits

  /** `hasCancel` and `hasStatus` say which requests the tool configures. */
  datatype Config = Config(
    hasCancel: bool, hasStatus: bool, terminalStates: set<string>, pollInterval: int, maxRuntime: int)
  {
    predicate Valid() {
      pollInterval >= 1 && maxRuntime >= 1
    }

    function Limits(): Limits
      requires Valid()
    {
      ActionTrace.Limits.Limits(Ceil(maxRuntime, pollInterval), pollInterval, hasCancel, hasStatus, terminalStates)
    }
  }

  datatype Signal = CancelRequested | StatusUpdated(payload: Payload)

  datatype Reply = Answer(payload: Payload) | Raises(timeout: bool)

  /** What the outside does while the workflow is suspended, and after what time it does so. */
  datatype Await = Await(signals: seq<Signal>, reply: Reply, after: real)

  datatype Outcome = Done | Threw(timeout: bool)

  /** The workflow's fields, what the outside still has in store, and the steps taken. */
  datatype Machine = Machine(
    state: State, cancelRequested: bool, externalStatus: Option<Payload>, script: seq<Await>, trace: seq<Step>)

  function Initial(script: seq<Await>): Machine {
    Machine(Requested, false, None, script, [])
  }

  function Signalled(m: Machine, signals: seq<Signal>): Machine {
    if signals == [] then m
    else
      var m' := Signalled(m, signals[..|signals| - 1]);
      match signals[|signals| - 1]
      case CancelRequested => m'.(cancelRequested := true)
      case StatusUpdated(payload) => m'.(externalStatus := Some(payload))
  }

  /** Every await; with nothing left in store the outside answers with empty payloads. */
  function Suspended(m: Machine): (Machine, Reply) {
    if m.script == [] then (m, Answer(Empty))
    else (Signalled(m.(script := m.script[1..]), m.script[0].signals), m.script[0].reply)
  }

  function After(m: Machine): real {
    if m.script == [] then 0.0 else m.script[0].after
  }

  function Noted(m: Machine, step: Step): Machine {
    m.(trace := m.trace + [step])
  }

  function Thrown(m: Machine, timeout: bool): (Machine, Outcome) {
    (Noted(m, Raised(timeout)), Threw(timeout))
  }

  /** Enters a state, then persists it and emits its event, either of which may raise. */
  function Entered(m: Machine, s: State, step: Step): (Machine, Outcome) {
    var (m1, persisted) := Suspended(Noted(m, step).(state := s));
    if persisted.Raises? then Thrown(m1, persisted.timeout)
    else
      var (m2, emitted) := Suspended(m1);
      if emitted.Raises? then Thrown(m2, emitted.timeout) else (m2, Done)
  }

  function Transitioned(m: Machine, s: State): (Machine, Outcome) {
    Entered(m, s, Became(s))
  }

  /** How the answer to a cancel request ends the action. */
  function CancelResult(payload: Payload): State {
    if payload == Status("cannot_cancel") then CannotCancel
    else if payload == Status("failed") then Failed
    else Cancelled
  }

  function Answered(m: Machine, payload: Payload): (Machine, Outcome) {
    Transitioned(Noted(m, CancelReplied(payload)), CancelResult(payload))
  }

  function CancelAfterCreate(c: Config, m: Machine): (Machine, Outcome) {
    if !c.hasCancel then Transitioned(m, CannotCancel)
    else
      var (m1, entered) := Transitioned(m, CancelInFlight);
      if entered.Threw? then (m1, entered)
      else
        var (m2, reply) := Suspended(Noted(m1, CancelSent));
        if reply.Raises? then Thrown(m2, reply.timeout) else Answered(m2, reply.payload)
  }

  /** The state a status payload ends the action in, if it does. */
  function FinalState(c: Config, payload: Payload): Option<State> {
    match payload
    case Empty => None
    case Status(status) =>
      if status == "cancelled" then Some(Cancelled)
      else if status == "cannot_cancel" then Some(CannotCancel)
      else if status == "failed" || status == "rejected" then Some(Failed)
      else if status in c.terminalStates then Some(Completed)
      else None
  }

  /** How a wait ends: at once for a status that was there before, and otherwise with a cancel, a status or its interval. */
  function Wake(c: Config, m: Machine, m': Machine): Step
    requires c.Valid()
  {
    var woken := m'.cancelRequested || m'.externalStatus.Some?;
    Woke(m'.cancelRequested, woken, Waited(woken, if m.externalStatus.Some? then 0.0 else After(m), c.pollInterval))
  }

  /** The round is left with an answer, unless it raised. */
  function Seen(r: (Machine, Reply)): (Machine, Reply) {
    if r.1.Raises? then r else (Noted(r.0, StatusSeen(r.1.payload)), r.1)
  }

  /** The wait of one round, and the payload it is left with: the pushed one, or the answer to a status request. */
  function Round(c: Config, m: Machine): (Machine, Reply)
    requires c.Valid()
  {
    var (m1, _) := Suspended(Noted(m, Head(false)));
    var m2 := Noted(m1, Wake(c, m, m1)).(externalStatus := None);
    var pushed := if m1.externalStatus.Some? then m1.externalStatus.value else Empty;
    if pushed == Empty && c.hasStatus then Seen(Suspended(Noted(m2, StatusAsked))) else Seen((m2, Answer(pushed)))
  }

  /** One turn of the poll loop: the action is over, or another turn follows. */
  datatype Turn = Over(result: (Machine, Outcome)) | Again(machine: Machine)

  function PollTurn(c: Config, m: Machine, elapsed: int): Turn
    requires c.Valid()
  {
    if elapsed >= c.maxRuntime then Over(Transitioned(m, TimedOut))
    else if m.cancelRequested then Over(CancelAfterCreate(c, Noted(m, Head(true))))
    else
      var (m1, reply) := Round(c, m);
      match reply
      case Raises(timeout) => Over(Thrown(m1, timeout))
      case Answer(payload) =>
        match FinalState(c, payload)
        case Some(s) => Over(Transitioned(m1, s))
        case None => Again(m1)
  }

  function Poll(c: Config, m: Machine, elapsed: int): (Machine, Outcome)
    requires c.Valid()
    decreases c.maxRuntime - elapsed
  {
    match PollTurn(c, m, elapsed)
    case Over(result) => result
    case Again(m') => Poll(c, m', elapsed + c.pollInterval)
  }

  /** The body of the try block. */
  function Attempt(c: Config, m: Machine): (Machine, Outcome)
    requires c.Valid()
  {
    var (m1, entered) := Transitioned(m, CreateInFlight);
    if entered.Threw? then (m1, entered)
    else
      var (m2, reply) := Suspended(m1);
      if reply.Raises? then Thrown(m2, reply.timeout)
      else Created(c, Noted(m2, CreateReturned(m2.cancelRequested)))
  }

  function Created(c: Config, m: Machine): (Machine, Outcome)
    requires c.Valid()
  {
    if m.cancelRequested then CancelAfterCreate(c, m)
    else
      var (m1, active) := Transitioned(m, Active);
      if active.Threw? then (m1, active) else Poll(c, m1, 0)
  }

  /** The state the handler enters after an exception. */
  function HandlerState(timeout: bool): State {
    if timeout then TimedOut else Failed
  }

  /** The whole run, and whether it returned. */
  function Run(c: Config, m: Machine): (Machine, bool)
    requires c.Valid()
  {
    var (m1, requested) := Transitioned(m, Requested);
    if requested.Threw? then (m1, false)
    else
      var (m2, outcome) := Attempt(c, m1);
      match outcome
      case Done => (m2, true)
      case Threw(timeout) =>
        var (m3, handled) := Entered(m2, HandlerState(timeout), Handled(HandlerState(timeout)));
        (m3, handled == Done)
  }

  // ------------------------------------------------------------------- lawfulness

  lemma {:induction false} SignalsTouchNothingElse(m: Machine, signals: seq<Signal>)
    ensures var m' := Signalled(m, signals);
      m'.state == m.state && m'.trace == m.trace && m'.script == m.script && (m.cancelRequested ==> m'.cancelRequested)
  {
    if signals != [] {
      SignalsTouchNothingElse(m, signals[..|signals| - 1]);
    }
  }

  /** Nothing after the signal `k` pushes a status. */
  ghost predicate LastPush(signals: seq<Signal>, k: int) {
    && 0 <= k < |signals| && signals[k].StatusUpdated?
    && forall j :: k < j < |signals| ==> !signals[j].StatusUpdated?
  }

  /** Signals are handled in order: a cancel is recorded for good, and the last status pushed is the one that is kept. */
  lemma {:induction false} SignalsAreRecorded(m: Machine, signals: seq<Signal>)
    ensures Signalled(m, signals).cancelRequested <==> m.cancelRequested || CancelRequested in signals
    ensures forall k :: LastPush(signals, k) ==> Signalled(m, signals).externalStatus == Some(signals[k].payload)
    ensures (forall j :: 0 <= j < |signals| ==> !signals[j].StatusUpdated?) ==>
      Signalled(m, signals).externalStatus == m.externalStatus
  {
    if signals != [] {
      var front, last := signals[..|signals| - 1], signals[|signals| - 1];
      SignalsAreRecorded(m, front);
      assert signals == front + [last];
      assert forall j :: 0 <= j < |front| ==> front[j] == signals[j];
      assert forall k :: LastPush(signals, k) && k < |front| ==> LastPush(front, k) && !last.StatusUpdated?;
    }
  }

  lemma {:induction false} SuspendedKeeps(m: Machine)
    ensures var m' := Suspended(m).0;
      m'.state == m.state && m'.trace == m.trace && (m.cancelRequested ==> m'.cancelRequested)
  {
    if m.script != [] {
      SignalsTouchNothingElse(m.(script := m.script[1..]), m.script[0].signals);
    }
  }

  /**
   * What a round is left with: the status on record when its wait ends, if it is not empty, and only otherwise the
   * answer to a status request, if the tool has one; either way the status on record is used up by the wait's end.
   */
  lemma {:induction false} RoundSees(c: Config, m: Machine)
    requires c.Valid()
    ensures var (woken, (m', reply)) := (Suspended(m).0, Round(c, m));
      var before := m.trace + [Head(false), Wake(c, m, woken)];
      if woken.externalStatus.Some? && woken.externalStatus.value != Empty then
        && reply == Answer(woken.externalStatus.value)
        && m' == woken.(externalStatus := None, trace := before + [StatusSeen(woken.externalStatus.value)])
      else if !c.hasStatus then
        reply == Answer(Empty) && m' == woken.(externalStatus := None, trace := before + [StatusSeen(Empty)])
      else
        var asked := Suspended(woken.(externalStatus := None, trace := before + [StatusAsked]));
        && reply == asked.1
        && m' == if reply.Raises? then asked.0 else asked.0.(trace := asked.0.trace + [StatusSeen(reply.payload)])
  {
    SuspendedNoted(m, Head(false));
    var woken := Suspended(m).0;
    var step := Wake(c, m, woken);
    assert Wake(c, m, Noted(woken, Head(false))) == step;
    SuspendedKeeps(m);
    hide Suspended;
    hide Wake;
    assert m.trace + [Head(false)] + [step] == m.trace + [Head(false), step];
  }

  /** What happens during an await. */
  function Heard(m: Machine): seq<Signal> {
    if m.script == [] then [] else m.script[0].signals
  }

  /**
   * How long the wait of a round lasts: no time if a status is on record already, its whole interval if nothing is
   * signalled, and otherwise until the first signal, within the interval.
   */
  lemma {:induction false} WaitLasts(c: Config, m: Machine)
    requires c.Valid() && !m.cancelRequested
    ensures var w := Wake(c, m, Suspended(m).0).waited;
      && (m.externalStatus.Some? ==> w == 0.0)
      && (m.externalStatus == None && Heard(m) == [] ==> w == c.pollInterval as real)
      && (m.externalStatus == None && Heard(m) != [] ==>
            w == if After(m) > c.pollInterval as real then c.pollInterval as real
                 else if After(m) < 0.0 then 0.0 else After(m))
  {
    if m.script != [] {
      var signals := m.script[0].signals;
      SomethingIsRecorded(m.(script := m.script[1..]), signals);
    }
  }

  lemma {:induction false} SomethingIsRecorded(m: Machine, signals: seq<Signal>)
    ensures var m' := Signalled(m, signals);
      (m.externalStatus.Some? ==> m'.externalStatus.Some?) &&
      (signals != [] ==> m'.cancelRequested || m'.externalStatus.Some?)
  {
    if signals != [] {
      SomethingIsRecorded(m, signals[..|signals| - 1]);
    }
  }

  /** An await leaves the steps so far alone. */
  lemma {:induction false} SuspendedNoted(m: Machine, step: Step)
    ensures Suspended(Noted(m, step)) == (Noted(Suspended(m).0, step), Suspended(m).1)
  {
    if m.script != [] {
      SignalledNoted(m.(script := m.script[1..]), step, m.script[0].signals);
    }
  }

  lemma {:induction false} SignalledNoted(m: Machine, step: Step, signals: seq<Signal>)
    ensures Signalled(Noted(m, step), signals) == Noted(Signalled(m, signals), step)
  {
    if signals != [] {
      SignalledNoted(m, step, signals[..|signals| - 1]);
    }
  }

  lemma {:induction false} NotedAt(l: Limits, m: Machine, step: Step)
    ensures Where(l, Noted(m, step).trace) == Next(l, Where(l, m.trace), step)
  {
    assert (m.trace + [step])[..|m.trace|] == m.trace;
  }

  /** Where a transition leads: to the next stage if it is done, and to what a raise makes of that if it threw. */
  lemma {:induction false} EnteredAt(l: Limits, m: Machine, s: State, step: Step)
    ensures var (m', outcome) := Entered(m, s, step);
      && m'.state == s && (m.cancelRequested ==> m'.cancelRequested)
      && Where(l, m'.trace) ==
           match outcome
           case Done => Next(l, Where(l, m.trace), step)
           case Threw(t) => Next(l, Next(l, Where(l, m.trace), step), Raised(t))
  {
    hide Suspended;
    hide Next;
    var m0 := Noted(m, step).(state := s);
    NotedAt(l, m, step);
    SuspendedKeeps(m0);
    var (m1, persisted) := Suspended(m0);
    if persisted.Raises? {
      NotedAt(l, m1, Raised(persisted.timeout));
    } else {
      SuspendedKeeps(m1);
      var (m2, emitted) := Suspended(m1);
      if emitted.Raises? {
        NotedAt(l, m2, Raised(emitted.timeout));
      }
    }
    hide Where;
    hide Noted;
  }

  // What the automaton says of the steps a run can take, stage by stage.

  lemma {:induction false} CreateSteps(l: Limits, cancel: bool)
    ensures Next(l, Start, Became(Requested)) == Asked
    ensures Next(l, Asked, Became(CreateInFlight)) == Creating
    ensures Next(l, Creating, CreateReturned(cancel)) == if cancel then MustCancel else Accepting
    ensures Next(l, Accepting, Became(Active)) == Polling(0, true)
  {
  }

  /** The stages whose last step left an await that may raise inside the try block. */
  predicate MayRaise(stage: Stage) {
    stage in {Creating, Cancelling, CancelAsked, Ended} || ((stage.Polling? || stage.Awake?) && stage.awaiting)
  }

  lemma {:induction false} RaiseIsCaught(l: Limits, stage: Stage, t: bool)
    requires MayRaise(stage)
    ensures Next(l, stage, Raised(t)) == Caught(t)
  {
  }

  lemma {:induction false} RaiseEscapes(l: Limits, stage: Stage, t: bool)
    requires stage in {Asked, Faulted}
    ensures Next(l, stage, Raised(t)) == Escaped
  {
  }

  lemma {:induction false} HandlerStep(l: Limits, t: bool)
    ensures Next(l, Caught(t), Handled(HandlerState(t))) == Faulted
  {
  }

  lemma {:induction false} CancelSteps(l: Limits, p: Payload)
    ensures !l.hasCancel ==> Next(l, MustCancel, Became(CannotCancel)) == Ended
    ensures l.hasCancel ==> Next(l, MustCancel, Became(CancelInFlight)) == Cancelling
    ensures Next(l, Cancelling, CancelSent) == CancelAsked
    ensures Next(l, CancelAsked, CancelReplied(p)) == CancelAnswered(p)
    ensures Next(l, CancelAnswered(p), Became(CancelResult(p))) == Ended
  {
  }

  lemma {:induction false} HeadSteps(l: Limits, r: nat, awaiting: bool)
    ensures r == l.rounds ==> Next(l, Polling(r, awaiting), Became(TimedOut)) == Ended
    ensures r < l.rounds ==> Next(l, Polling(r, awaiting), Head(true)) == MustCancel
    ensures r < l.rounds ==> Next(l, Polling(r, awaiting), Head(false)) == Waiting(r)
  {
  }

  lemma {:induction false} RoundSteps(l: Limits, r: nat, seen: bool, woken: bool, waited: real)
    requires Takes(l.interval, woken, waited)
    ensures Next(l, Waiting(r), Woke(seen, woken, waited)) == Awake(r + 1, false)
    ensures l.hasStatus ==> Next(l, Awake(r + 1, false), StatusAsked) == Awake(r + 1, true)
  {
    hide Takes;
  }

  /** What a round is left with decides as the automaton says. */
  lemma {:induction false} SeenStep(c: Config, l: Limits, p: Payload, r: nat, awaiting: bool)
    requires l.finals == c.terminalStates
    ensures Next(l, Awake(r, awaiting), StatusSeen(p)) ==
      if FinalState(c, p).Some? then Concluding(p) else Polling(r, false)
  {
    hide Gives;
    hide CancelGives;
    hide Takes;
  }

  lemma {:induction false} FinalStep(c: Config, l: Limits, p: Payload)
    requires l.finals == c.terminalStates && FinalState(c, p).Some?
    ensures Next(l, Concluding(p), Became(FinalState(c, p).value)) == Ended
    ensures Terminal(FinalState(c, p).value)
  {
    hide Decides;
    hide CancelGives;
    hide Takes;
  }

  lemma {:induction false} EndsAreTerminal(s: State)
    requires s in {Cancelled, CannotCancel, Completed, Failed, TimedOut}
    ensures Terminal(s)
  {
  }

  /** Where the body of the try block may stop. */
  predicate Stops(stage: Stage, outcome: Outcome) {
    match outcome
    case Done => stage == Ended
    case Threw(t) => stage == Caught(t)
  }

  predicate StopsIn(l: Limits, result: (Machine, Outcome)) {
    Stops(Where(l, result.0.trace), result.1) && (result.1 == Done ==> Terminal(result.0.state))
  }

  lemma {:induction false} ThrownStops(l: Limits, m: Machine, t: bool)
    requires MayRaise(Where(l, m.trace))
    ensures StopsIn(l, Thrown(m, t))
  {
    NotedAt(l, m, Raised(t));
    RaiseIsCaught(l, Where(l, m.trace), t);
    hide Where;
    hide Next;
  }

  /** A transition inside the try block is done, or throws and so stops it. */
  lemma {:induction false} EntersOrStops(l: Limits, m: Machine, s: State, stage: Stage)
    requires Next(l, Where(l, m.trace), Became(s)) == stage && MayRaise(stage)
    ensures var (m', outcome) := Transitioned(m, s);
      && m'.state == s && (m.cancelRequested ==> m'.cancelRequested)
      && (outcome == Done ==> Where(l, m'.trace) == stage)
      && (outcome.Threw? ==> StopsIn(l, (m', outcome)))
  {
    EnteredAt(l, m, s, Became(s));
    var outcome := Transitioned(m, s).1;
    if outcome.Threw? {
      RaiseIsCaught(l, stage, outcome.timeout);
    }
    hide Where;
    hide Next;
    hide Entered;
  }

  lemma {:induction false} EndStops(l: Limits, m: Machine, s: State)
    requires Next(l, Where(l, m.trace), Became(s)) == Ended && Terminal(s)
    ensures StopsIn(l, Transitioned(m, s))
  {
    hide Where;
    hide Next;
    hide Entered;
    hide Terminal;
    EntersOrStops(l, m, s, Ended);
  }

  lemma {:induction false} AnsweredIs(m: Machine, payload: Payload)
    ensures Answered(m, payload) == Transitioned(Noted(m, CancelReplied(payload)), CancelResult(payload))
  {
  }

  lemma {:induction false} AskedToCancelStops(l: Limits, m: Machine)
    requires Where(l, m.trace) == Cancelling
    ensures var (m', reply) := Suspended(Noted(m, CancelSent));
      StopsIn(l, if reply.Raises? then Thrown(m', reply.timeout) else Answered(m', reply.payload))
  {
    var p := Noted(m, CancelSent);
    NotedAt(l, m, CancelSent);
    SuspendedKeeps(p);
    var (m', reply) := Suspended(p);
    var payload := if reply.Raises? then Empty else reply.payload;
    EndsAreTerminal(CancelResult(payload));
    CancelSteps(l, payload);
    assert MayRaise(CancelAsked);
    NotedAt(l, m', CancelReplied(payload));
    AnsweredIs(m', payload);
    hide *;
    if reply.Raises? {
      ThrownStops(l, m', reply.timeout);
    } else {
      EndStops(l, Noted(m', CancelReplied(payload)), CancelResult(payload));
    }
  }

  lemma {:induction false} CancelStops(c: Config, m: Machine)
    requires c.Valid() && Where(c.Limits(), m.trace) == MustCancel
    ensures StopsIn(c.Limits(), CancelAfterCreate(c, m))
  {
    var l := c.Limits();
    CancelSteps(l, Empty);
    assert l.hasCancel == c.hasCancel;
    assert Terminal(CannotCancel);
    hide Next;
    hide Where;
    hide Entered;
    hide Suspended;
    hide Noted;
    hide Terminal;
    hide StopsIn;
    if !c.hasCancel {
      EndStops(l, m, CannotCancel);
    } else {
      EntersOrStops(l, m, CancelInFlight, Cancelling);
      var (m1, entered) := Transitioned(m, CancelInFlight);
      if entered == Done {
        AskedToCancelStops(l, m1);
      }
    }
  }

  /** How a round is left: at an await that raised, or with what its payload makes of it. */
  predicate RoundLeft(c: Config, l: Limits, r: nat, m: Machine, reply: Reply) {
    Where(l, m.trace) ==
      match reply
      case Raises(_) => Awake(r, true)
      case Answer(payload) => if FinalState(c, payload).Some? then Concluding(payload) else Polling(r, false)
  }

  lemma {:induction false} SeenAt(c: Config, l: Limits, r: nat, awaiting: bool, m: Machine, reply: Reply)
    requires l.finals == c.terminalStates && Where(l, m.trace) == Awake(r, awaiting)
    requires reply.Raises? ==> awaiting
    ensures var (m', reply') := Seen((m, reply)); reply' == reply && RoundLeft(c, l, r, m', reply)
  {
    if reply.Answer? {
      NotedAt(l, m, StatusSeen(reply.payload));
      SeenStep(c, l, reply.payload, r, awaiting);
    }
    hide Next;
    hide Where;
    hide FinalState;
  }

  lemma {:induction false} RoundAt(c: Config, l: Limits, m: Machine, r: nat, awaiting: bool)
    requires c.Valid() && l == c.Limits() && Where(l, m.trace) == Polling(r, awaiting) && r < l.rounds
    ensures var (m', reply) := Round(c, m); RoundLeft(c, l, r + 1, m', reply)
  {
    HeadSteps(l, r, awaiting);
    NotedAt(l, m, Head(false));
    SuspendedKeeps(Noted(m, Head(false)));
    var (m1, _) := Suspended(Noted(m, Head(false)));
    var wake := Wake(c, m, m1);
    RoundSteps(l, r, m1.cancelRequested, wake.woken, wake.waited);
    NotedAt(l, m1, wake);
    var m2 := Noted(m1, wake).(externalStatus := None);
    hide Next;
    hide Where;
    hide Ceil;
    hide RoundLeft;
    var pushed := if m1.externalStatus.Some? then m1.externalStatus.value else Empty;
    if pushed == Empty && c.hasStatus {
      NotedAt(l, m2, StatusAsked);
      SuspendedKeeps(Noted(m2, StatusAsked));
      hide Suspended;
      var (m3, reply) := Suspended(Noted(m2, StatusAsked));
      SeenAt(c, l, r + 1, true, m3, reply);
    } else {
      SeenAt(c, l, r + 1, false, m2, Answer(pushed));
    }
    hide Seen;
    hide Suspended;
  }

  /** `elapsed` is that of `r` rounds. */
  predicate AtRound(c: Config, r: nat, elapsed: int) {
    elapsed == r * c.pollInterval
  }

  /** Another round fits exactly while the run time is not covered. */
  lemma {:induction false} RoundsFit(c: Config, r: nat, elapsed: int)
    requires c.Valid() && AtRound(c, r, elapsed)
    ensures elapsed < c.maxRuntime <==> r < c.Limits().rounds
    ensures AtRound(c, r + 1, elapsed + c.pollInterval)
  {
    var n := Ceil(c.maxRuntime, c.pollInterval);
    Distribute(r, 1, c.pollInterval);
    Parts(c.maxRuntime + c.pollInterval - 1, c.pollInterval);
    if r >= n {
      Monotone(n, r, c.pollInterval);
    } else {
      Monotone(r + 1, n, c.pollInterval);
    }
  }

  /** A round that raises or brings a final status stops; any other leads to the next head. */
  lemma {:induction false} RoundStops(c: Config, l: Limits, m: Machine, r: nat, awaiting: bool, elapsed: int)
    requires c.Valid() && l == c.Limits() && Where(l, m.trace) == Polling(r, awaiting) && r < l.rounds
    requires elapsed < c.maxRuntime && !m.cancelRequested
    ensures match PollTurn(c, m, elapsed)
      case Over(result) => StopsIn(l, result)
      case Again(m') => Where(l, m'.trace) == Polling(r + 1, false)
  {
    RoundAt(c, l, m, r, awaiting);
    var (m', reply) := Round(c, m);
    assert l.finals == c.terminalStates;
    hide Ceil;
    hide Round;
    hide Where;
    hide Next;
    hide StopsIn;
    hide FinalState;
    hide Transitioned;
    hide Thrown;
    if reply.Raises? {
      ThrownStops(l, m', reply.timeout);
    } else if FinalState(c, reply.payload).Some? {
      FinalStep(c, l, reply.payload);
      EndStops(l, m', FinalState(c, reply.payload).value);
    }
  }

  lemma {:induction false} TurnStops(c: Config, l: Limits, m: Machine, r: nat, awaiting: bool, elapsed: int)
    requires c.Valid() && l == c.Limits() && Where(l, m.trace) == Polling(r, awaiting) && r <= l.rounds
    requires AtRound(c, r, elapsed)
    ensures match PollTurn(c, m, elapsed)
      case Over(result) => StopsIn(l, result)
      case Again(m') => Where(l, m'.trace) == Polling(r + 1, false) && elapsed < c.maxRuntime && r < l.rounds
  {
    RoundsFit(c, r, elapsed);
    HeadSteps(l, r, awaiting);
    hide Next;
    hide Where;
    hide Ceil;
    hide AtRound;
    hide Transitioned;
    hide CancelAfterCreate;
    hide Round;
    hide FinalState;
    hide StopsIn;
    hide Thrown;
    hide Noted;
    if r == l.rounds {
      EndsAreTerminal(TimedOut);
      EndStops(l, m, TimedOut);
    } else if m.cancelRequested {
      NotedAt(l, m, Head(true));
      CancelStops(c, Noted(m, Head(true)));
    } else {
      RoundStops(c, l, m, r, awaiting, elapsed);
    }
  }

  lemma {:induction false} PollStops(c: Config, l: Limits, m: Machine, r: nat, awaiting: bool, elapsed: int)
    requires c.Valid() && l == c.Limits() && Where(l, m.trace) == Polling(r, awaiting) && r <= l.rounds
    requires AtRound(c, r, elapsed)
    ensures StopsIn(l, Poll(c, m, elapsed))
    decreases l.rounds - r
  {
    TurnStops(c, l, m, r, awaiting, elapsed);
    RoundsFit(c, r, elapsed);
    hide PollTurn;
    hide Where;
    hide Ceil;
    hide AtRound;
    hide StopsIn;
    match PollTurn(c, m, elapsed)
    case Over(_) =>
    case Again(m') => PollStops(c, l, m', r + 1, false, elapsed + c.pollInterval);
  }

  lemma {:induction false} CreatedStops(c: Config, m: Machine)
    requires c.Valid() && Where(c.Limits(), m.trace) == (if m.cancelRequested then MustCancel else Accepting)
    ensures StopsIn(c.Limits(), Created(c, m))
  {
    var l := c.Limits();
    CreateSteps(l, false);
    hide Next;
    hide Where;
    hide Ceil;
    hide Entered;
    hide CancelAfterCreate;
    hide Poll;
    hide StopsIn;
    if m.cancelRequested {
      CancelStops(c, m);
    } else {
      EntersOrStops(l, m, Active, Polling(0, true));
      var (m1, active) := Transitioned(m, Active);
      if active == Done {
        PollStops(c, l, m1, 0, true, 0);
      }
    }
  }

  lemma {:induction false} AttemptStops(c: Config, m: Machine)
    requires c.Valid() && Where(c.Limits(), m.trace) == Asked
    ensures StopsIn(c.Limits(), Attempt(c, m))
  {
    var l := c.Limits();
    CreateSteps(l, false);
    CreateSteps(l, true);
    hide Next;
    hide Where;
    hide Ceil;
    hide Entered;
    hide Suspended;
    hide Created;
    hide Noted;
    hide StopsIn;
    EntersOrStops(l, m, CreateInFlight, Creating);
    var (m1, entered) := Transitioned(m, CreateInFlight);
    if entered == Done {
      SuspendedKeeps(m1);
      var (m2, reply) := Suspended(m1);
      if reply.Raises? {
        ThrownStops(l, m2, reply.timeout);
      } else {
        NotedAt(l, m2, CreateReturned(m2.cancelRequested));
        CreatedIs(m2);
        CreatedStops(c, Noted(m2, CreateReturned(m2.cancelRequested)));
      }
    }
  }

  lemma {:induction false} CreatedIs(m: Machine)
    ensures Noted(m, CreateReturned(m.cancelRequested)).cancelRequested == m.cancelRequested
  {
  }

  /** Where a run may stop, and whether it returns from there. */
  predicate Stopped(l: Limits, m: Machine, returned: bool) {
    && Where(l, m.trace) in {Ended, Faulted, Escaped}
    && (returned <==> Where(l, m.trace) != Escaped)
    && (returned ==> Terminal(m.state))
  }

  lemma {:induction false} HandlerStops(l: Limits, m: Machine, timeout: bool)
    requires Where(l, m.trace) == Caught(timeout)
    ensures var s := HandlerState(timeout);
      var (m', handled) := Entered(m, s, Handled(s));
      Stopped(l, m', handled == Done)
  {
    var s := HandlerState(timeout);
    HandlerStep(l, timeout);
    EndsAreTerminal(s);
    EnteredAt(l, m, s, Handled(s));
    var handled := Entered(m, s, Handled(s)).1;
    if handled.Threw? {
      RaiseEscapes(l, Faulted, handled.timeout);
    }
    hide Next;
    hide Where;
    hide Entered;
    hide Terminal;
    hide HandlerState;
  }

  lemma {:induction false} RequestedOrEscaped(l: Limits, m: Machine)
    requires Where(l, m.trace) == Start
    ensures var (m', requested) := Transitioned(m, Requested);
      && (requested == Done ==> Where(l, m'.trace) == Asked)
      && (requested.Threw? ==> Stopped(l, m', false))
  {
    CreateSteps(l, false);
    EnteredAt(l, m, Requested, Became(Requested));
    var requested := Transitioned(m, Requested).1;
    if requested.Threw? {
      RaiseEscapes(l, Asked, requested.timeout);
    }
    hide Next;
    hide Where;
    hide Entered;
    hide Terminal;
  }

  lemma {:induction false} RunStops(c: Config, m: Machine)
    requires c.Valid() && Where(c.Limits(), m.trace) == Start
    ensures var (m', returned) := Run(c, m); Stopped(c.Limits(), m', returned)
  {
    var l := c.Limits();
    RequestedOrEscaped(l, m);
    hide Next;
    hide Where;
    hide Ceil;
    hide Entered;
    hide Attempt;
    hide Terminal;
    hide HandlerState;
    var (m1, requested) := Transitioned(m, Requested);
    if requested == Done {
      AttemptStops(c, m1);
      var (m2, outcome) := Attempt(c, m1);
      if outcome.Threw? {
        HandlerStops(l, m2, outcome.timeout);
      }
    }
  }

  /**
   * Whatever the outside answers, raises and signals: every run's steps are lawful, and it returns, in a terminal
   * state, unless its first or its handler's transition raised.
   */
  lemma {:induction false} RunIsLawful(c: Config, script: seq<Await>)
    requires c.Valid()
    ensures var (m, returned) := Run(c, Initial(script));
      && Where(c.Limits(), m.trace) in {Ended, Faulted, Escaped}
      && (returned <==> Where(c.Limits(), m.trace) != Escaped)
      && (returned ==> Terminal(m.state))
  {
    assert Where(c.Limits(), Initial(script).trace) == Start;
    RunStops(c, Initial(script));
    hide Run;
    hide Where;
    hide Terminal;
  }

  ghost predicate HandledLater(trace: seq<Step>, k: nat) {
    exists j :: k < j < |trace| && trace[j].Handled?
  }

  /** A terminal state that is entered gives way to the handler's exactly when the transition into it raised. */
  ghost predicate FailsIffItRaises(trace: seq<Step>) {
    forall k :: 0 <= k < |trace| && trace[k].Became? && Terminal(trace[k].state) ==>
      (HandledLater(trace, k) <==> k + 1 < |trace| && trace[k + 1].Raised?)
  }

  lemma {:induction false} EveryStopFailsIffItRaises(l: Limits, trace: seq<Step>)
    requires Where(l, trace) in {Ended, Faulted, Escaped}
    ensures FailsIffItRaises(trace)
  {
    hide Where;
    hide Terminal;
    forall k | 0 <= k < |trace| && trace[k].Became? && Terminal(trace[k].state)
      ensures HandledLater(trace, k) <==> k + 1 < |trace| && trace[k + 1].Raised?
    {
      TerminalFailsIffItRaises(l, trace, k);
    }
  }

  /** Every run: which cancels are sent, how many rounds are made, and when a terminal state gives way. */
  lemma {:induction false} EveryRun(c: Config, script: seq<Await>)
    requires c.Valid()
    ensures var trace := Run(c, Initial(script)).0.trace;
      && Rounds(trace) <= Ceil(c.maxRuntime, c.pollInterval)
      && (Where(c.Limits(), trace) == Ended ==> (Sent(trace) <==> SeenInTime(trace) && c.hasCancel))
      && FailsIffItRaises(trace)
  {
    RunIsLawful(c, script);
    var l, trace := c.Limits(), Run(c, Initial(script)).0.trace;
    assert l.rounds == Ceil(c.maxRuntime, c.pollInterval) && l.hasCancel == c.hasCancel;
    hide *;
    EveryStopFailsIffItRaises(l, trace);
    NotBroken(l, trace);
    RoundsAreCounted(l, trace);
    CancelSoFar(l, trace);
  }

  /** Every run: what each status it saw and each reply to its cancel request did. */
  lemma {:induction false} EveryStatusDecides(c: Config, script: seq<Await>, k: nat)
    requires c.Valid() && k < |Run(c, Initial(script)).0.trace|
    ensures var trace := Run(c, Initial(script)).0.trace;
      trace[k].StatusSeen? ==>
        && k + 1 < |trace|
        && var (p, next) := (trace[k].payload, trace[k + 1]);
           && (next == Became(Failed) <==> p in {Status("failed"), Status("rejected")})
           && (next == Became(Cancelled) <==> p == Status("cancelled"))
           && (next == Became(CannotCancel) <==> p == Status("cannot_cancel"))
           && (next == Became(Completed) <==>
                 && p.Status? && p.status in c.terminalStates
                 && p.status !in {"cancelled", "cannot_cancel", "failed", "rejected"})
           && (next.Head? || next == Became(TimedOut) <==>
                 p == Empty
                 || (p.status !in c.terminalStates && p.status !in {"cancelled", "cannot_cancel", "failed", "rejected"}))
    ensures var trace := Run(c, Initial(script)).0.trace;
      trace[k].CancelReplied? ==>
        && k + 1 < |trace|
        && var (p, next) := (trace[k].payload, trace[k + 1]);
           && (next == Became(Failed) <==> p == Status("failed"))
           && (next == Became(CannotCancel) <==> p == Status("cannot_cancel"))
           && (next == Became(Cancelled) <==> p !in {Status("failed"), Status("cannot_cancel")})
  {
    RunIsLawful(c, script);
    var l, trace := c.Limits(), Run(c, Initial(script)).0.trace;
    assert l.finals == c.terminalStates;
    hide *;
    NotBroken(l, trace);
    if trace[k].StatusSeen? || trace[k].CancelReplied? {
      NotLast(l, trace, k);
      if trace[k].StatusSeen? {
        StatusDecides(l, trace, k);
      } else {
        CancelReplyDecides(l, trace, k);
      }
    }
  }

  lemma {:induction false} NotLast(l: Limits, trace: seq<Step>, k: nat)
    requires Where(l, trace) in {Ended, Faulted, Escaped} && k < |trace|
    requires trace[k].StatusSeen? || trace[k].CancelReplied?
    ensures k + 1 < |trace|
  {
    hide Decides;
    hide Gives;
    hide CancelGives;
    hide Takes;
  }

  /**
   * Every run that is timed out by the loop: it made all its rounds, waited no longer than it counted, and gave up
   * before its run time had passed exactly when signals cut its waits by more than the last round exceeded that time.
   */
  lemma {:induction false} GivesUpEarlyIffCut(c: Config, script: seq<Await>, k: nat)
    requires c.Valid() && k < |Run(c, Initial(script)).0.trace|
    requires Run(c, Initial(script)).0.trace[k] == Became(TimedOut)
    ensures var waits := WaitsOf(Run(c, Initial(script)).0.trace[..k + 1]);
      && |waits| == Ceil(c.maxRuntime, c.pollInterval) && Fit(waits, c.pollInterval)
      && Total(waits) <= Counted(waits, c.pollInterval) as real
      && (Total(waits) < c.maxRuntime as real <==>
            CutShort(waits, c.pollInterval) > (Counted(waits, c.pollInterval) - c.maxRuntime) as real)
  {
    RunIsLawful(c, script);
    var l, trace := c.Limits(), Run(c, Initial(script)).0.trace;
    assert l.rounds == Ceil(c.maxRuntime, c.pollInterval) && l.interval == c.pollInterval;
    hide *;
    NotBroken(l, trace);
    LawfulPrefix(l, trace, k + 1);
    TimesOutEarlyIffCut(l, trace[..k + 1], c.maxRuntime);
  }

  lemma {:induction false} NotBroken(l: Limits, trace: seq<Step>)
    requires Where(l, trace) in {Ended, Faulted, Escaped}
    ensures Lawful(l, trace)
  {
    hide Where;
  }
}
