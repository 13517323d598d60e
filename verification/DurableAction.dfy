/** The durable action workflow, run against any sequence of replies, failures and signals. */
module DurableAction {
  import opened Options
  import opened ActionTrace
  import opened ActionRun

  class DurableActionWorkflow {
    const config: Config
    var state: State
    var cancelRequested: bool
    var externalStatus: Option<Payload>
    /** What the outside still has in store; with nothing left it answers with empty payloads. */
    var script: seq<Await>
    /** The steps taken so far. */
    ghost var trace: seq<Step>

    ghost function Now(): Machine
      reads this
    {
      Machine(state, cancelRequested, externalStatus, script, trace)
    }

    constructor (config: Config, script: seq<Await>)
      requires config.Valid()
      ensures this.config == config && Now() == Initial(script)
    {
      this.config := config;
      this.script := script;
      state := Requested;
      cancelRequested := false;
      externalStatus := None;
      trace := [];
    }

    /** Every await: signals arrive while the reply is awaited. */
    method Suspend() returns (reply: Reply)
      modifies this`script, this`cancelRequested, this`externalStatus
      ensures (Now(), reply) == Suspended(old(Now()))
    {
      if script == [] {
        return Answer(Empty);
      }
      var next := script[0];
      script := script[1..];
      ghost var m := Now();
      assert next.signals[..0] == [];
      for k := 0 to |next.signals|
        invariant Now() == Signalled(m, next.signals[..k])
      {
        assert next.signals[..k + 1][..k] == next.signals[..k];
        match next.signals[k]
        case CancelRequested => cancelRequested := true;
        case StatusUpdated(payload) => externalStatus := Some(payload);
      }
      assert next.signals[..|next.signals|] == next.signals;
      return next.reply;
    }

    ghost method Note(step: Step)
      modifies this`trace
      ensures Now() == Noted(old(Now()), step)
    {
      trace := trace + [step];
    }

    method Raise(timeout: bool) returns (outcome: Outcome)
      modifies this`trace
      ensures (Now(), outcome) == Thrown(old(Now()), timeout)
    {
      Note(Raised(timeout));
      return Threw(timeout);
    }

    /** Enters a state, then persists it and emits its event, either of which may raise. */
    method Transition(s: State, ghost step: Step) returns (outcome: Outcome)
      modifies this
      ensures (Now(), outcome) == Entered(old(Now()), s, step)
    {
      state := s;
      Note(step);
      var persisted := Suspend();
      if persisted.Raises? {
        outcome := Raise(persisted.timeout);
        return;
      }
      var emitted := Suspend();
      if emitted.Raises? {
        outcome := Raise(emitted.timeout);
        return;
      }
      return Done;
    }

    method CancelAfterCreate() returns (outcome: Outcome)
      modifies this
      ensures (Now(), outcome) == ActionRun.CancelAfterCreate(config, old(Now()))
    {
      hide Suspended;
      hide Entered;
      if !config.hasCancel {
        outcome := Transition(CannotCancel, Became(CannotCancel));
        return;
      }
      outcome := Transition(CancelInFlight, Became(CancelInFlight));
      if outcome.Threw? {
        return;
      }
      Note(CancelSent);
      var reply := Suspend();
      if reply.Raises? {
        outcome := Raise(reply.timeout);
        return;
      }
      Note(CancelReplied(reply.payload));
      var status := if reply.payload.Status? then reply.payload.status else "";
      if status == "cannot_cancel" {
        outcome := Transition(CannotCancel, Became(CannotCancel));
      } else if status == "failed" {
        outcome := Transition(Failed, Became(Failed));
      } else {
        outcome := Transition(Cancelled, Became(Cancelled));
      }
    }

    /** The wait of one round, and the payload the round is left with. */
    method AwaitStatus() returns (reply: Reply)
      requires config.Valid() && !cancelRequested
      modifies this
      ensures (Now(), reply) == Round(config, old(Now()))
    {
      hide Suspended;
      ghost var before := Now();
      Note(Head(false));
      var _ := Suspend();
      Note(Wake(config, before, Now()));
      var payload := if externalStatus.Some? then externalStatus.value else Empty;
      externalStatus := None;
      if payload == Empty && config.hasStatus {
        Note(StatusAsked);
        reply := Suspend();
        if reply.Raises? {
          return;
        }
      } else {
        reply := Answer(payload);
      }
      Note(StatusSeen(reply.payload));
    }

    /** Ends the action if a status payload says so. */
    method Conclude(payload: Payload) returns (ended: bool, outcome: Outcome)
      modifies this
      ensures ended <==> FinalState(config, payload).Some?
      ensures ended ==> (Now(), outcome) == Transitioned(old(Now()), FinalState(config, payload).value)
      ensures !ended ==> Now() == old(Now())
    {
      hide Entered;
      if payload == Empty {
        return false, Done;
      }
      ended := true;
      if payload.status == "cancelled" {
        outcome := Transition(Cancelled, Became(Cancelled));
      } else if payload.status == "cannot_cancel" {
        outcome := Transition(CannotCancel, Became(CannotCancel));
      } else if payload.status == "failed" || payload.status == "rejected" {
        outcome := Transition(Failed, Became(Failed));
      } else if payload.status in config.terminalStates {
        outcome := Transition(Completed, Became(Completed));
      } else {
        return false, Done;
      }
    }

    /** The poll loop. */
    method PollUntilTerminal() returns (outcome: Outcome)
      requires config.Valid()
      modifies this
      ensures (Now(), outcome) == Poll(config, old(Now()), 0)
    {
      hide Entered;
      hide ActionRun.CancelAfterCreate;
      hide Round;
      hide FinalState;
      var elapsed := 0;
      while elapsed < config.maxRuntime
        invariant Poll(config, Now(), elapsed) == Poll(config, old(Now()), 0)
        decreases config.maxRuntime - elapsed
      {
        if cancelRequested {
          Note(Head(true));
          outcome := CancelAfterCreate();
          return;
        }
        var reply := AwaitStatus();
        elapsed := elapsed + config.pollInterval;
        if reply.Raises? {
          outcome := Raise(reply.timeout);
          return;
        }
        var ended;
        ended, outcome := Conclude(reply.payload);
        if ended {
          return;
        }
      }
      outcome := Transition(TimedOut, Became(TimedOut));
    }

    /** The body of the try block. */
    method Attempt() returns (outcome: Outcome)
      requires config.Valid()
      modifies this
      ensures (Now(), outcome) == ActionRun.Attempt(config, old(Now()))
    {
      hide Entered;
      hide Suspended;
      hide ActionRun.CancelAfterCreate;
      hide Poll;
      outcome := Transition(CreateInFlight, Became(CreateInFlight));
      if outcome.Threw? {
        return;
      }
      var created := Suspend();
      if created.Raises? {
        outcome := Raise(created.timeout);
        return;
      }
      Note(CreateReturned(cancelRequested));
      if cancelRequested {
        outcome := CancelAfterCreate();
        return;
      }
      outcome := Transition(Active, Became(Active));
      if outcome.Threw? {
        return;
      }
      outcome := PollUntilTerminal();
    }

    /**
     * The whole run. Whatever is answered, raised and signalled, a run that returns is in a terminal state after at
     * most one round for each interval of the run time.
     */
    method Run() returns (returned: bool)
      requires config.Valid() && Now() == Initial(script)
      modifies this
      ensures (Now(), returned) == ActionRun.Run(config, old(Now()))
      ensures Lawful(config.Limits(), trace) && Rounds(trace) <= Ceil(config.maxRuntime, config.pollInterval)
      ensures returned ==> Terminal(state)
    {
      ghost var all := script;
      RunIsLawful(config, all);
      EveryRun(config, all);
      hide Entered;
      hide ActionRun.Attempt;
      hide Where;
      hide Rounds;
      hide Ceil;
      hide Terminal;
      hide FailsIffItRaises;
      hide Sent;
      hide SeenInTime;
      var outcome := Transition(Requested, Became(Requested));
      if outcome.Threw? {
        return false;
      }
      outcome := Attempt();
      if outcome.Threw? {
        var s := if outcome.timeout then TimedOut else Failed;
        outcome := Transition(s, Handled(s));
      }
      return outcome == Done;
    }
  }
}
