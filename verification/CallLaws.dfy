/** A call's status, times, duration and fee: a fold over its own events, whatever other calls do. */
module CallLaws {
  import opened Options
  import opened LedgerTables
  import opened ExactlyOnce

  /** What the ledger says of one call, its costs aside. */
  datatype CallView = CallView(status: Option<CallStatus>, duration: real, fee: real, finalized: bool, times: Option<Times>)

  function ViewOf(t: Tables, call: string): CallView {
    var b := BillingOf(t, call);
    CallView(if call in t.calls then Some(t.calls[call]) else None, b.duration, b.platformFee, b.finalized,
             if call in t.times then Some(t.times[call]) else None)
  }

  const UNKNOWN := CallView(None, 0.0, 0.0, false, None)

  function EndedAt(times: Option<Times>, at: real): Option<Times> {
    match times
    case None => None
    case Some(ts) => Some(Times(ts.started, Some(at)))
  }

  /** How one event of the call moves it. */
  function Moves(c: Config, v: CallView, e: Event): CallView {
    match e.kind
    case BillingUsageRecorded => v
    case CallStarted(_, _) =>
      v.(status := Some(Started), times := if v.times.Some? then v.times else Some(Times(e.at, None)))
    case CallEnded(duration) =>
      if v.status in {None, Some(Failed)} then v
      else CallView(Some(Completed), duration, Cost(duration / 60.0, c.platformRate), true, EndedAt(v.times, e.at))
    case CallFailed =>
      if v.status == None then v.(finalized := true)
      else v.(status := Some(Failed), finalized := true, times := EndedAt(v.times, e.at))
    case _ => if v.status == Some(Started) then v.(status := Some(InProgress)) else v
  }

  function Fold(c: Config, xs: seq<Consumed>): CallView {
    if xs == [] then UNKNOWN else Moves(c, Fold(c, xs[..|xs| - 1]), xs[|xs| - 1].event)
  }

  /** The events of one call, in order. */
  function OfCall(xs: seq<Consumed>, call: string): seq<Consumed> {
    if xs == [] then []
    else OfCall(xs[..|xs| - 1], call) + (if xs[|xs| - 1].event.call == call then [xs[|xs| - 1]] else [])
  }

  lemma {:induction false} UpdateShows(c: Config, t: Tables, e: string, duration: Option<real>, finalized: bool, call: string)
    ensures var (v, v') := (ViewOf(t, call), ViewOf(UpdateCallBilling(c, t, e, duration, finalized), call));
      v' == if e != call then v
            else match duration
              case None => v.(finalized := v.finalized || finalized)
              case Some(d) => CallView(v.status, d, Cost(d / 60.0, c.platformRate), v.finalized || finalized, v.times)
  {
    hide CostOf;
    hide Cost;
  }

  lemma {:induction false} StartShows(
    t: Tables, e: string, at: real, organization: Reference, agent: Reference, call: string)
    ensures var v := ViewOf(t, call);
      ViewOf(StartCall(t, e, at, organization, agent), call) ==
        if e != call then v
        else v.(status := Some(Started), times := if v.times.Some? then v.times else Some(Times(at, None)))
  {
  }

  lemma {:induction false} CallMoves(c: Config, t: Tables, e: Event, call: string)
    ensures ViewOf(ProjectCall(c, t, e), call) == if e.call == call then Moves(c, ViewOf(t, call), e) else ViewOf(t, call)
  {
    StatusKnown(t, e.call);
    hide Cost;
    hide UpdateCallBilling;
    hide StartCall;
    hide SetStatus;
    hide EndCall;
    hide FailCall;
    hide EndedAt;
    hide ViewOf;
    match e.kind
    case CallStarted(organization, agent) => StartShows(t, e.call, e.at, organization, agent, call);
    case CallEnded(duration) =>
      EndShows(t, e.call, Completed, e.at, call);
      UpdateShows(c, EndCall(t, e.call, Completed, e.at), e.call, Some(duration), true, call);
    case CallFailed =>
      FailShows(t, e.call, e.at, call);
      UpdateShows(c, FailCall(t, e.call, e.at), e.call, None, true, call);
    case _ => StatusShows(t, e.call, InProgress, call);
  }

  lemma {:induction false} EndShows(t: Tables, e: string, status: CallStatus, at: real, call: string)
    ensures var v := ViewOf(t, call);
      ViewOf(EndCall(t, e, status, at), call) ==
        if e == call then v.(status := Some(status), times := EndedAt(v.times, at)) else v
  {
  }

  lemma {:induction false} FailShows(t: Tables, e: string, at: real, call: string)
    ensures var v := ViewOf(t, call);
      ViewOf(FailCall(t, e, at), call) ==
        if e == call && v.status.Some? then v.(status := Some(Failed), times := EndedAt(v.times, at)) else v
  {
  }

  lemma {:induction false} StatusKnown(t: Tables, call: string)
    ensures ViewOf(t, call).status == if call in t.calls then Some(t.calls[call]) else None
  {
  }

  lemma {:induction false} StatusShows(t: Tables, e: string, status: CallStatus, call: string)
    ensures ViewOf(SetStatus(t, e, status), call) ==
      if e == call then ViewOf(t, call).(status := Some(status)) else ViewOf(t, call)
  {
  }

  lemma {:induction false} UsageShowsNothing(c: Config, t: Tables, x: Consumed, call: string)
    ensures ProjectUsage(c, t, x).Some? ==> ViewOf(ProjectUsage(c, t, x).value, call) == ViewOf(t, call)
  {
    var e := x.event;
    hide RecordAll;
    hide UpdateCallBilling;
    if e.kind.UsageRecorded? {
      RecordAllKeepsKeys(c, t, e, e.kind.provider, e.kind.model, e.kind.measurements);
      var r := RecordAll(c, t, e, e.kind.provider, e.kind.model, e.kind.measurements);
      if r.Some? {
        UpdateShows(c, r.value, e.call, None, false, call);
      }
    }
  }

  lemma {:induction false} ApplyMoves(c: Config, t: Tables, x: Consumed, call: string)
    requires Apply(c, t, x).Some?
    ensures ViewOf(Apply(c, t, x).value, call) ==
      if x.event.call == call then Moves(c, ViewOf(t, call), x.event) else ViewOf(t, call)
  {
    hide ProjectCall;
    hide ProjectUsage;
    hide Refused;
    hide Moves;
    var t0 := InsertEvent(t.(keys := t.keys + {x.event.key}), x.event);
    assert ViewOf(t0, call) == ViewOf(t, call);
    CallMoves(c, t0, x.event, call);
    UsageShowsNothing(c, ProjectCall(c, t0, x.event), x, call);
  }

  /** A call's status, times, duration, fee and finalization are a fold over its own events: no other call shows in them. */
  lemma {:induction false} ACallIsItsOwnEvents(c: Config, xs: seq<Consumed>, call: string)
    requires ApplyAll(c, NoRows(), xs).Some?
    ensures ViewOf(ApplyAll(c, NoRows(), xs).value, call) == Fold(c, OfCall(xs, call))
  {
    hide Apply;
    hide Moves;
    if xs != [] {
      var front, x := xs[..|xs| - 1], xs[|xs| - 1];
      ACallIsItsOwnEvents(c, front, call);
      ApplyMoves(c, ApplyAll(c, NoRows(), front).value, x, call);
      var mine := OfCall(front, call);
      assert (mine + [x])[..|mine|] == mine;
      assert mine + [] == mine;
      hide ViewOf;
    }
  }

  /** An end event takes effect when the call is known and has not failed. */
  predicate EndsAt(c: Config, xs: seq<Consumed>, k: nat)
    requires k < |xs|
  {
    xs[k].event.kind.CallEnded? && Fold(c, xs[..k]).status !in {None, Some(Failed)}
  }

  predicate FinalizesAt(c: Config, xs: seq<Consumed>, k: nat)
    requires k < |xs|
  {
    xs[k].event.kind.CallFailed? || EndsAt(c, xs, k)
  }

  /** A bill is finalized exactly when the call failed, or ended while it was known and had not failed. */
  lemma {:induction false} FinalizedMeans(c: Config, xs: seq<Consumed>)
    ensures Fold(c, xs).finalized <==> exists k :: 0 <= k < |xs| && FinalizesAt(c, xs, k)
  {
    if xs != [] {
      var front, n := xs[..|xs| - 1], |xs| - 1;
      FinalizedMeans(c, front);
      assert Fold(c, xs).finalized <==> Fold(c, front).finalized || FinalizesAt(c, xs, n);
      forall k | 0 <= k < n ensures FinalizesAt(c, xs, k) <==> FinalizesAt(c, front, k) {
        assert front[..k] == xs[..k] && front[k] == xs[k];
      }
      hide Fold;
      if Fold(c, front).finalized {
        var k :| 0 <= k < |front| && FinalizesAt(c, front, k);
        assert FinalizesAt(c, xs, k);
      }
    }
  }

  /** The billed duration is that of the last end event that took effect, and nothing before there is one. */
  lemma {:induction false} DurationIsTheLastEnds(c: Config, xs: seq<Consumed>, k: nat)
    requires k < |xs| && EndsAt(c, xs, k)
    requires forall j :: k < j < |xs| ==> !EndsAt(c, xs, j)
    ensures Fold(c, xs).duration == xs[k].event.kind.duration
    ensures Fold(c, xs).fee == Cost(xs[k].event.kind.duration / 60.0, c.platformRate)
  {
    hide Cost;
    var front := xs[..|xs| - 1];
    if k < |front| {
      assert front[..k] == xs[..k] && front[k] == xs[k];
      forall j | k < j < |front| ensures !EndsAt(c, front, j) {
        assert front[..j] == xs[..j] && front[j] == xs[j];
        assert !EndsAt(c, xs, j);
      }
      assert !EndsAt(c, xs, |front|);
      DurationIsTheLastEnds(c, front, k);
    }
  }

  lemma {:induction false} NoDurationBeforeAnEnd(c: Config, xs: seq<Consumed>)
    requires forall j :: 0 <= j < |xs| ==> !EndsAt(c, xs, j)
    ensures Fold(c, xs).duration == 0.0 && Fold(c, xs).fee == 0.0
  {
    hide Cost;
    if xs != [] {
      var front := xs[..|xs| - 1];
      forall j | 0 <= j < |front| ensures !EndsAt(c, front, j) {
        assert front[..j] == xs[..j] && front[j] == xs[j];
        assert !EndsAt(c, xs, j);
      }
      assert !EndsAt(c, xs, |front|);
      NoDurationBeforeAnEnd(c, front);
    }
  }

  /** A failed call stays failed until it is started again. */
  lemma {:induction false} FailureSticks(c: Config, xs: seq<Consumed>, k: nat)
    requires k <= |xs| && Fold(c, xs[..k]).status == Some(Failed)
    requires forall j :: k <= j < |xs| ==> !xs[j].event.kind.CallStarted?
    ensures Fold(c, xs).status == Some(Failed)
    decreases |xs|
  {
    if k == |xs| {
      assert xs[..k] == xs;
    } else {
      assert xs[..|xs| - 1][..k] == xs[..k];
      FailureSticks(c, xs[..|xs| - 1], k);
    }
  }

  /** The event ends the call: an end that takes effect, or a failure once it was started. */
  predicate ClosesAt(c: Config, xs: seq<Consumed>, k: nat)
    requires k < |xs|
  {
    EndsAt(c, xs, k) || (xs[k].event.kind.CallFailed? && exists j :: 0 <= j < k && xs[j].event.kind.CallStarted?)
  }

  /** A call has a status, and a time, from its first start on. */
  lemma {:induction false} KnownOnceStarted(c: Config, xs: seq<Consumed>)
    ensures Fold(c, xs).status.Some? <==> exists j :: 0 <= j < |xs| && xs[j].event.kind.CallStarted?
    ensures Fold(c, xs).times.Some? <==> Fold(c, xs).status.Some?
  {
    hide Cost;
    if xs != [] {
      var front, x := xs[..|xs| - 1], xs[|xs| - 1];
      KnownOnceStarted(c, front);
      assert forall j :: 0 <= j < |front| ==> front[j] == xs[j];
      if Fold(c, front).status.Some? {
        var j :| 0 <= j < |front| && front[j].event.kind.CallStarted?;
        assert xs[j].event.kind.CallStarted?;
      }
      hide EndedAt;
    }
  }

  /** A call's start is the time of its first start event, whatever comes later. */
  lemma {:induction false} StartIsTheFirst(c: Config, xs: seq<Consumed>, k: nat)
    requires k < |xs| && xs[k].event.kind.CallStarted?
    requires forall j :: 0 <= j < k ==> !xs[j].event.kind.CallStarted?
    ensures Fold(c, xs).times.Some? && Fold(c, xs).times.value.started == xs[k].event.at
  {
    hide Cost;
    var front := xs[..|xs| - 1];
    assert forall j :: 0 <= j < |front| ==> front[j] == xs[j];
    if k < |front| {
      StartIsTheFirst(c, front, k);
    } else {
      KnownOnceStarted(c, front);
    }
  }

  /** Its end is the time of the last event that ended it, and there is none before one does. */
  lemma {:induction false} EndIsTheLast(c: Config, xs: seq<Consumed>, k: nat)
    requires k < |xs| && ClosesAt(c, xs, k)
    requires forall j :: k < j < |xs| ==> !ClosesAt(c, xs, j)
    ensures Fold(c, xs).times.Some? && Fold(c, xs).times.value.ended == Some(xs[k].event.at)
  {
    var front, x := xs[..|xs| - 1], xs[|xs| - 1];
    KnownOnceStarted(c, front);
    assert forall j :: 0 <= j < |front| ==> front[j] == xs[j];
    if k < |front| {
      forall j | 0 <= j < |front| ensures ClosesAt(c, front, j) <==> ClosesAt(c, xs, j) {
        assert front[..j] == xs[..j];
      }
      EndIsTheLast(c, front, k);
      assert !ClosesAt(c, xs, |front|);
    }
    MovesTimes(c, Fold(c, front), x.event);
    hide Moves;
  }

  lemma {:induction false} NoEndBeforeOne(c: Config, xs: seq<Consumed>)
    requires forall j :: 0 <= j < |xs| ==> !ClosesAt(c, xs, j)
    ensures Fold(c, xs).times.Some? ==> Fold(c, xs).times.value.ended == None
  {
    if xs != [] {
      var front, x := xs[..|xs| - 1], xs[|xs| - 1];
      KnownOnceStarted(c, front);
      assert forall j :: 0 <= j < |front| ==> front[j] == xs[j];
      forall j | 0 <= j < |front| ensures !ClosesAt(c, front, j) {
        assert front[..j] == xs[..j];
        assert !ClosesAt(c, xs, j);
      }
      NoEndBeforeOne(c, front);
      assert !ClosesAt(c, xs, |front|);
      MovesTimes(c, Fold(c, front), x.event);
      hide Moves;
    }
  }

  /** What an event does to a call's times. */
  lemma {:induction false} MovesTimes(c: Config, v: CallView, e: Event)
    ensures var times := Moves(c, v, e).times;
      if e.kind.CallStarted? then times == if v.times.Some? then v.times else Some(Times(e.at, None))
      else if (e.kind.CallEnded? && v.status !in {None, Some(Failed)}) || (e.kind.CallFailed? && v.status.Some?) then
        times == match v.times case None => None case Some(ts) => Some(Times(ts.started, Some(e.at)))
      else times == v.times
  {
    hide Cost;
  }
}
