/** The billing finalization workflow: how often it looks at the ledger, and what it may report. */
module BillingWorkflow {
  import opened Options
  import opened LedgerTables
  import opened FinalBilling
  import opened Cents
  import opened Readiness
  import opened ReadinessWatch
  import opened Waits

  datatype State =
    | WaitingForCallEnd | WaitingForManifest | WaitingForProjection | WaitingForUsage | Finalizing
    | Finalized | FinalizedWithWarnings | FailedBilling | NeedsReview

  datatype Input = Input(call: string, waitTimeout: int, settle: int, missingUsagePolicy: State)

  /** How a state is written in a final record. */
  function Name(s: State): string {
    match s
    case WaitingForCallEnd => "WAITING_FOR_CALL_END"
    case WaitingForManifest => "WAITING_FOR_MANIFEST"
    case WaitingForProjection => "WAITING_FOR_PROJECTION"
    case WaitingForUsage => "WAITING_FOR_USAGE"
    case Finalizing => "FINALIZING"
    case Finalized => "FINALIZED"
    case FinalizedWithWarnings => "FINALIZED_WITH_WARNINGS"
    case FailedBilling => "FAILED"
    case NeedsReview => "NEEDS_REVIEW"
  }

  /** Names tell states apart, and one of them says finalized. */
  lemma {:induction false} NamesTellStatesApart(s: State, s': State)
    ensures Name(s) == Name(s') <==> s == s'
    ensures Name(s) == "FINALIZED" <==> s == Finalized
  {
  }

  lemma {:induction false} StatusIsRecorded(rs: Records, t: Tables, call: string, status: string)
    requires call in t.calls
    ensures var finals := FinalizeOn(rs, t, call, status).0.finals;
      call in finals && finals[call].status == status
  {
    hide CostsOf;
    hide ToCents;
    hide UsageFor;
    hide DurationOf;
  }

  /** What a call that is not ready waits for: its manifest first, then the projection, then its usage. */
  predicate WaitsFor(r: Report, s: State) {
    && !(r.manifestPresent && r.caughtUp && r.missing == {} && r.missingExpectations == {})
    && (s == WaitingForManifest <==> !r.manifestPresent)
    && (s == WaitingForProjection <==> r.manifestPresent && !r.caughtUp)
    && (s == WaitingForUsage <==> r.manifestPresent && r.caughtUp)
  }

  /** The state is what the last look that was not ready waits for, and the first one before there is any. */
  ghost predicate Shows(looked: seq<Report>, before: State, now: State) {
    var n := if looked != [] && Ready(looked[|looked| - 1]) then |looked| - 1 else |looked|;
    if n == 0 then now == before else WaitsFor(looked[n - 1], now)
  }

  lemma {:induction false} ShowsOn(looked: seq<Report>, r: Report, before: State, now: State)
    requires NoneReady(looked) && Shows(looked, before, now)
    ensures Ready(r) ==> Shows(looked + [r], before, now)
    ensures !Ready(r) ==>
      Shows(looked + [r], before,
            if !r.manifestPresent then WaitingForManifest
            else if !r.caughtUp then WaitingForProjection else WaitingForUsage)
  {
  }

  /** Only the last look may have been ready, and the loop's answer says whether it was. */
  ghost predicate Answers(ready: Option<bool>, looked: seq<Report>) {
    && (ready == Some(true) <==> looked != [] && Ready(looked[|looked| - 1]))
    && forall k :: 0 <= k < |looked| - 1 ==> !Ready(looked[k])
  }

  lemma {:induction false} AnswersOn(looked: seq<Report>, r: Report, ready: Option<bool>)
    requires NoneReady(looked)
    ensures ready != Some(true) ==> Answers(ready, looked)
    ensures Ready(r) ==> Answers(Some(true), looked + [r])
  {
    hide Ready;
  }

  class BillingFinalizationWorkflow {
    const input: Input
    var state: State
    var callEnded: bool
    var updates: nat
    /** The readiness reports the ledger will give, and what happens while the workflow is suspended. */
    var reports: seq<Report>
    var script: seq<Await>
    /** The reports looked at, and the status of the final record, if one was written. */
    ghost var looked: seq<Report>
    ghost var written: Option<State>
    /** How long the waits between looks took. */
    ghost var waits: seq<real>
    /** How many activities raised. */
    ghost var faults: nat

    constructor (input: Input, reports: seq<Report>, script: seq<Await>, callEnded: bool)
      ensures this.input == input && this.reports == reports && looked == [] && written == None
      ensures this.script == script && waits == [] && state == WaitingForCallEnd && this.callEnded == callEnded && faults == 0
    {
      this.input := input;
      this.reports := reports;
      this.script := script;
      this.callEnded := callEnded;
      state := WaitingForCallEnd;
      updates := 0;
      looked := [];
      written := None;
      waits := [];
      faults := 0;
    }

    method Suspend() returns (raised: bool, tookEffect: bool)
      modifies this`script, this`callEnded, this`updates
      ensures script == Rest(old(script)) && updates == old(updates) + First(old(script)).updates
      ensures callEnded == (old(callEnded) || First(old(script)).callEnded)
      ensures raised == First(old(script)).raises && tookEffect == First(old(script)).tookEffect
    {
      var next := First(script);
      script := Rest(script);
      callEnded := callEnded || next.callEnded;
      updates := updates + next.updates;
      return next.raises, next.tookEffect;
    }

    /** Awaits an activity, which may raise, and may have done its work all the same. */
    method Execute() returns (raised: bool, tookEffect: bool)
      modifies this`script, this`callEnded, this`updates, this`faults
      ensures script == Rest(old(script)) && (old(callEnded) ==> callEnded)
      ensures raised == First(old(script)).raises && tookEffect == First(old(script)).tookEffect
      ensures faults == old(faults) + if raised then 1 else 0
    {
      raised, tookEffect := Suspend();
      faults := faults + if raised then 1 else 0;
    }

    method LoadReadiness() returns (report: Option<Report>)
      modifies this
      ensures report.None? <==> First(old(script)).raises
      ensures script == Rest(old(script)) && waits == old(waits)
      ensures report.Some? ==> report.value == ReportAt(old(reports), 0) && looked == old(looked) + [report.value]
      ensures report.Some? ==> reports == ReportsLeft(old(reports), 1)
      ensures report.None? ==> looked == old(looked)
      ensures written == old(written) && state == old(state)
      ensures faults == old(faults) + if report.None? then 1 else 0
    {
      var raised, _ := Execute();
      if raised {
        return None;
      }
      var r := ReportAt(reports, 0);
      reports := ReportsLeft(reports, 1);
      looked := looked + [r];
      return Some(r);
    }

    /** The wait for an update: it ends with the first, or after its interval. */
    method AwaitUpdate(wait: int)
      requires wait >= 1
      modifies this`script, this`callEnded, this`updates, this`waits
      ensures script == Rest(old(script))
      ensures var w := First(old(script)); waits == old(waits) + [Waited(w.updates > 0, w.after, wait)]
    {
      var observed := updates;
      ghost var next := First(script);
      var _, _ := Suspend();
      waits := waits + [Waited(updates > observed, next.after, wait)];
    }

    /** One turn of the loop: it raises, finds the call ready, or waits for an update after noting what is missing. */
    method Look(wait: int, ghost first: State) returns (ready: Option<bool>)
      requires wait >= 1 && NoneReady(looked) && Shows(looked, first, state)
      modifies this
      ensures written == old(written) && Shows(looked, first, state) && (ready != Some(false) ==> Answers(ready, looked))
      ensures ready.None? <==> First(old(script)).raises
      ensures ready.None? ==> looked == old(looked)
      ensures ready.Some? ==>
        looked == old(looked) + [ReportAt(old(reports), 0)] && ready.value == Ready(ReportAt(old(reports), 0))
      ensures ready != Some(false) ==> waits == old(waits)
      ensures ready == Some(false) ==>
        && reports == ReportsLeft(old(reports), 1) && script == Rest(Rest(old(script)))
        && var w := First(Rest(old(script))); waits == old(waits) + [Waited(w.updates > 0, w.after, wait)]
      ensures faults == old(faults) + if ready.None? then 1 else 0
    {
      hide *;
      var report := LoadReadiness();
      if report.None? {
        AnswersOn(looked, NO_REPORT, None);
        return None;
      }
      var r := report.value;
      ShowsOn(old(looked), r, first, state);
      AnswersOn(old(looked), r, None);
      if Ready(r) {
        return Some(true);
      }
      state :=
        if !r.manifestPresent then WaitingForManifest
        else if !r.caughtUp then WaitingForProjection else WaitingForUsage;
      AwaitUpdate(wait);
      return Some(false);
    }

    /** The look-and-wait loop. A wait that ends early for a signal still counts in full. */
    method AwaitReadiness() returns (ready: Option<bool>)
      requires looked == [] && written == None && waits == []
      modifies this
      ensures Watch(ready, |looked|, waits) ==
        Watching(input.waitTimeout, WaitSeconds(input.settle), old(reports), old(script), 0)
      ensures |looked| <= Looks(input.waitTimeout, WaitSeconds(input.settle)) && written == None
      ensures Answers(ready, looked)
      ensures ready == Some(false) ==> |looked| == Looks(input.waitTimeout, WaitSeconds(input.settle))
      ensures Are(looked, old(reports))
      ensures faults == old(faults) + if ready.None? then 1 else 0
      ensures Shows(looked, old(state), state)
    {
      var wait := WaitSeconds(input.settle);
      var elapsed := 0;
      ghost var all := Watching(input.waitTimeout, wait, reports, script, 0);
      WatchFits(input.waitTimeout, wait, reports, script, 0, 0) by {
        assert 0 == 0 * wait && 0 <= Looks(input.waitTimeout, wait);
      }
      Begins(input.waitTimeout, wait, reports, script);
      assert Shows(looked, state, state);
      hide *;
      while elapsed <= input.waitTimeout
        invariant written == None && faults == old(faults)
        invariant Shows(looked, old(state), state)
        invariant Midway(input.waitTimeout, wait, old(reports), all, looked, waits, reports, script, elapsed)
        decreases input.waitTimeout - elapsed
      {
        LooksAgain(input.waitTimeout, wait, old(reports), all, looked, waits, reports, script, elapsed);
        ready := Look(wait, old(state));
        if ready != Some(false) {
          return;
        }
        elapsed := elapsed + wait;
      }
      LooksNoMore(input.waitTimeout, wait, old(reports), all, looked, waits, reports, script, elapsed);
      AnswersOn(looked, NO_REPORT, Some(false));
      return Some(false);
    }

    /** Writes the final record with a status, announces it, and ends in that status unless one of them raises. */
    method Conclude(activities: BillingActivities, t: Tables, status: State)
      requires written == None && faults == 0
      modifies this`state, this`script, this`callEnded, this`updates, this`faults, this`written, activities
      ensures written == None || written == Some(status)
      ensures written.Some? ==>
        && input.call in t.calls
        && activities.records == FinalizeOn(old(activities.records), t, input.call, Name(status)).0
        && input.call in activities.records.finals
        && activities.records.finals[input.call].status == Name(status)
      ensures written.None? ==> activities.records == old(activities.records)
      ensures state == FailedBilling || written == Some(state)
      ensures faults > 0 ==> state == FailedBilling
      ensures state == FailedBilling ==>
        faults > 0 || input.call !in t.calls || written == Some(FailedBilling)
    {
      hide FinalizeOn;
      hide First;
      hide Rest;
      hide Name;
      state := Finalizing;
      var raised, tookEffect := Execute();
      if raised && !tookEffect {
        state := FailedBilling;
        return;
      }
      ghost var before := activities.records;
      var result := activities.FinalizeCallBilling(t, input.call, Name(status));
      if result.None? {
        state := FailedBilling;
        return;
      }
      written := Some(status);
      StatusIsRecorded(before, t, input.call, Name(status));
      if raised {
        state := FailedBilling;
        return;
      }
      state := status;
      raised, tookEffect := Execute();
      if raised {
        state := FailedBilling;
      }
    }

    /**
     * The whole run, with the ledger as its last activity finds it: a bounded number of looks; a record is written
     * only after the last of them was ready or the looks ran out, and it says finalized only if that last look was
     * ready, or the policy says so itself.
     */
    method Run(activities: BillingActivities, t: Tables)
      requires looked == [] && written == None && waits == [] && state == WaitingForCallEnd && faults == 0
      modifies this, activities
      ensures |looked| <= Looks(input.waitTimeout, WaitSeconds(input.settle))
      ensures Are(looked, old(reports))
      ensures written.Some? ==>
        if looked != [] && Ready(looked[|looked| - 1]) then written.value == Finalized
        else written.value == input.missingUsagePolicy
             && |looked| == Looks(input.waitTimeout, WaitSeconds(input.settle))
      ensures written.Some? ==>
        Watch(Some(looked != [] && Ready(looked[|looked| - 1])), |looked|, waits) ==
          Watching(input.waitTimeout, WaitSeconds(input.settle), old(reports), Rest(old(script)), 0)
      ensures written.Some? ==>
        && input.call in t.calls
        && activities.records == FinalizeOn(old(activities.records), t, input.call, Name(written.value)).0
      ensures written.Some? ==>
        && input.call in activities.records.finals
        && activities.records.finals[input.call].status == Name(written.value)
      ensures written.None? ==> activities.records == old(activities.records)
      ensures state == FailedBilling || written == Some(state)
      ensures !old(callEnded) && !First(old(script)).callEnded ==> state == FailedBilling && written == None && looked == []
      ensures faults > 0 ==> state == FailedBilling
      ensures state == FailedBilling ==>
        || faults > 0 || !(old(callEnded) || First(old(script)).callEnded)
        || input.call !in t.calls || written == Some(FailedBilling)
      ensures state == Finalized && input.missingUsagePolicy != Finalized ==> looked != [] && Ready(looked[|looked| - 1])
    {
      hide Looks;
      hide FinalizeOn;
      hide Ready;
      hide Watching;
      hide WaitSeconds;
      hide First;
      hide Rest;
      assert Are([], reports);
      hide Are;
      hide Shows;
      hide Name;
      var _, _ := Suspend();
      if !callEnded {
        state := FailedBilling;
        return;
      }
      var ready := AwaitReadiness();
      if ready.None? {
        state := FailedBilling;
        return;
      }
      Conclude(activities, t, if ready.value then Finalized else input.missingUsagePolicy);
    }
  }
}
