/** The loop that looks at readiness and waits: how often it looks, how long it waits, and when it gives up early. */
module ReadinessWatch {
  import opened Options
  import opened Readiness
  import opened Arithmetic
  import opened Waits

  /**
   * What the outside does during one await: the signals that arrive and after what time the first of them does, and
   * whether the activity raises, and if so whether it took effect.
   */
  datatype Await = Await(callEnded: bool, updates: nat, raises: bool, tookEffect: bool, after: real)

  const NOTHING := Await(false, 0, false, true, 0.0)

  function First(script: seq<Await>): Await {
    if script == [] then NOTHING else script[0]
  }

  function Rest(script: seq<Await>): seq<Await> {
    if script == [] then [] else script[1..]
  }

  /** The report of a ledger that knows nothing of the call. */
  const NO_REPORT := Report(false, None, false, {}, {}, {})

  function ReportAt(reports: seq<Report>, k: nat): Report {
    if k < |reports| then reports[k] else NO_REPORT
  }

  /** What is left of the reports after `n` looks. */
  function ReportsLeft(reports: seq<Report>, n: nat): seq<Report> {
    if n <= |reports| then reports[n..] else []
  }

  /** The wait between two looks, at least a second. */
  function WaitSeconds(settle: int): (w: int)
    ensures settle == 0 ==> w == 2
    ensures settle != 0 ==> w >= settle && w >= 1 && w in {settle, 1}
  {
    var s := if settle == 0 then 2 else settle;
    if s < 1 then 1 else s
  }

  /** How many looks fit: one at zero and one after each wait that ends by the deadline. */
  function Looks(deadline: int, wait: int): nat
    requires wait >= 1
  {
    if deadline < 0 then 0 else deadline / wait + 1
  }

  lemma {:induction false} LooksFit(deadline: int, wait: int, looks: nat)
    requires wait >= 1
    ensures looks * wait <= deadline <==> looks < Looks(deadline, wait)
    ensures (looks + 1) * wait == looks * wait + wait
  {
    Distribute(looks, 1, wait);
    if deadline < 0 {
      Monotone(0, looks, wait);
    } else {
      var q := deadline / wait;
      Parts(deadline, wait);
      if looks <= q {
        Monotone(looks, q, wait);
      } else {
        Monotone(q + 1, looks, wait);
        Distribute(q, 1, wait);
      }
    }
  }

  // ---------------------------------------------------------------- the loop

  /** How the loop ends: whether the last look was ready, or none for a raise; how many looks, and its waits. */
  datatype Watch = Watch(ready: Option<bool>, looks: nat, waits: seq<real>)

  /** The look-and-wait loop. A wait that an update ends still counts in full. */
  function Watching(deadline: int, wait: int, reports: seq<Report>, script: seq<Await>, elapsed: int): Watch
    requires wait >= 1
    decreases deadline - elapsed
  {
    if elapsed > deadline then Watch(Some(false), 0, [])
    else if First(script).raises then Watch(None, 0, [])
    else if Ready(ReportAt(reports, 0)) then Watch(Some(true), 1, [])
    else
      var w := First(Rest(script));
      var later := Watching(deadline, wait, ReportsLeft(reports, 1), Rest(Rest(script)), elapsed + wait);
      later.(looks := later.looks + 1, waits := [Waited(w.updates > 0, w.after, wait)] + later.waits)
  }

  function Prefixed(looks: nat, waits: seq<real>, w: Watch): Watch {
    w.(looks := looks + w.looks, waits := waits + w.waits)
  }

  /** One turn of the loop, after others. */
  lemma {:induction false} OneMoreLook(
    deadline: int, wait: int, reports: seq<Report>, script: seq<Await>, elapsed: int, looks: nat, waits: seq<real>)
    requires wait >= 1 && elapsed <= deadline && !First(script).raises && !Ready(ReportAt(reports, 0))
    ensures var w := First(Rest(script));
      Prefixed(looks, waits, Watching(deadline, wait, reports, script, elapsed)) ==
        Prefixed(looks + 1, waits + [Waited(w.updates > 0, w.after, wait)],
                 Watching(deadline, wait, ReportsLeft(reports, 1), Rest(Rest(script)), elapsed + wait))
  {
    var w := First(Rest(script));
    var later := Watching(deadline, wait, ReportsLeft(reports, 1), Rest(Rest(script)), elapsed + wait);
    var one := Waited(w.updates > 0, w.after, wait);
    assert waits + ([one] + later.waits) == waits + [one] + later.waits;
    hide Ready;
  }

  /** The turns that end the loop. */
  lemma {:induction false} EndsHere(
    deadline: int, wait: int, reports: seq<Report>, script: seq<Await>, elapsed: int, looks: nat, waits: seq<real>)
    requires wait >= 1
    ensures var w := Prefixed(looks, waits, Watching(deadline, wait, reports, script, elapsed));
      && (elapsed > deadline ==> w == Watch(Some(false), looks, waits))
      && (elapsed <= deadline && First(script).raises ==> w == Watch(None, looks, waits))
      && (elapsed <= deadline && !First(script).raises && Ready(ReportAt(reports, 0)) ==>
            w == Watch(Some(true), looks + 1, waits))
  {
    assert waits + [] == waits;
    hide Ready;
    hide First;
    hide Rest;
  }

  lemma {:induction false} NextReport(reports: seq<Report>, k: nat)
    ensures ReportAt(ReportsLeft(reports, k), 0) == ReportAt(reports, k)
    ensures ReportsLeft(ReportsLeft(reports, k), 1) == ReportsLeft(reports, k + 1)
  {
    if k + 1 <= |reports| {
      assert reports[k..][1..] == reports[k + 1..];
    }
  }

  lemma {:induction false} NoReportYet(reports: seq<Report>)
    ensures ReportsLeft(reports, 0) == reports
  {
  }

  lemma {:induction false} NoLookYet(w: Watch)
    ensures Prefixed(0, [], w) == w
  {
    assert [] + w.waits == w.waits;
  }

  ghost predicate NoneReady(looked: seq<Report>) {
    forall k :: 0 <= k < |looked| ==> !Ready(looked[k])
  }

  ghost predicate Are(looked: seq<Report>, reports: seq<Report>) {
    forall k :: 0 <= k < |looked| ==> looked[k] == ReportAt(reports, k)
  }

  /** In the middle of the loop that ends as `all`: what was looked at and waited, and what is to come. */
  ghost predicate Midway(
    deadline: int, wait: int, first: seq<Report>, all: Watch, looked: seq<Report>, waits: seq<real>,
    reports: seq<Report>, script: seq<Await>, elapsed: int)
    requires wait >= 1
  {
    && all == Prefixed(|looked|, waits, Watching(deadline, wait, reports, script, elapsed))
    && reports == ReportsLeft(first, |looked|) && NoneReady(looked) && Are(looked, first)
  }

  lemma {:induction false} Begins(deadline: int, wait: int, reports: seq<Report>, script: seq<Await>)
    requires wait >= 1
    ensures Midway(deadline, wait, reports, Watching(deadline, wait, reports, script, 0), [], [], reports, script, 0)
  {
    NoLookYet(Watching(deadline, wait, reports, script, 0));
    NoReportYet(reports);
    hide Watching;
    hide Prefixed;
  }

  /** One look, and the wait after it unless it was ready. */
  lemma {:induction false} LooksAgain(
    deadline: int, wait: int, first: seq<Report>, all: Watch, looked: seq<Report>, waits: seq<real>,
    reports: seq<Report>, script: seq<Await>, elapsed: int)
    requires wait >= 1 && elapsed <= deadline
    requires Midway(deadline, wait, first, all, looked, waits, reports, script, elapsed)
    ensures NoneReady(looked) && Are(looked, first) && Are(looked + [ReportAt(reports, 0)], first)
    ensures First(script).raises ==> all == Watch(None, |looked|, waits)
    ensures !First(script).raises && Ready(ReportAt(reports, 0)) ==> all == Watch(Some(true), |looked| + 1, waits)
    ensures !First(script).raises && !Ready(ReportAt(reports, 0)) ==>
      var w := First(Rest(script));
      Midway(deadline, wait, first, all, looked + [ReportAt(reports, 0)], waits + [Waited(w.updates > 0, w.after, wait)],
             ReportsLeft(reports, 1), Rest(Rest(script)), elapsed + wait)
  {
    EndsHere(deadline, wait, reports, script, elapsed, |looked|, waits);
    NextReport(first, |looked|);
    if !First(script).raises && !Ready(ReportAt(reports, 0)) {
      OneMoreLook(deadline, wait, reports, script, elapsed, |looked|, waits);
    }
    hide Watching;
    hide Prefixed;
    hide Ready;
    hide ReportAt;
    hide ReportsLeft;
    hide First;
    hide Rest;
    hide Waited;
  }

  lemma {:induction false} LooksNoMore(
    deadline: int, wait: int, first: seq<Report>, all: Watch, looked: seq<Report>, waits: seq<real>,
    reports: seq<Report>, script: seq<Await>, elapsed: int)
    requires wait >= 1 && elapsed > deadline
    requires Midway(deadline, wait, first, all, looked, waits, reports, script, elapsed)
    ensures NoneReady(looked) && Are(looked, first) && all == Watch(Some(false), |looked|, waits)
  {
    EndsHere(deadline, wait, reports, script, elapsed, |looked|, waits);
    hide Watching;
    hide Prefixed;
    hide ReportsLeft;
  }

  /** The waits fit their interval, and a loop that gives up made every look there was. */
  lemma {:induction false} WatchFits(
    deadline: int, wait: int, reports: seq<Report>, script: seq<Await>, elapsed: int, made: nat)
    requires wait >= 1 && elapsed == made * wait && made <= Looks(deadline, wait)
    ensures var w := Watching(deadline, wait, reports, script, elapsed);
      && Fit(w.waits, wait) && made + w.looks <= Looks(deadline, wait)
      && (w.ready == Some(false) ==> |w.waits| == w.looks && made + w.looks == Looks(deadline, wait))
    decreases deadline - elapsed
  {
    LooksFit(deadline, wait, made);
    hide Looks;
    hide Ready;
    if elapsed <= deadline && !First(script).raises && !Ready(ReportAt(reports, 0)) {
      WatchFits(deadline, wait, ReportsLeft(reports, 1), Rest(Rest(script)), elapsed + wait, made + 1);
    }
    hide First;
    hide Rest;
  }

  /**
   * A loop that gives up waited no longer than it counted, and gives up by its deadline exactly when updates cut its
   * waits by at least what the last of them exceeded that deadline.
   */
  lemma {:induction false} GivesUpEarlyIffCut(deadline: int, wait: int, reports: seq<Report>, script: seq<Await>)
    requires wait >= 1 && Watching(deadline, wait, reports, script, 0).ready == Some(false)
    ensures var waits := Watching(deadline, wait, reports, script, 0).waits;
      && |waits| == Looks(deadline, wait) && Fit(waits, wait)
      && Total(waits) <= Counted(waits, wait) as real
      && (Total(waits) <= deadline as real <==>
            CutShort(waits, wait) >= (Counted(waits, wait) - deadline) as real)
  {
    assert 0 == 0 * wait && 0 <= Looks(deadline, wait);
    WatchFits(deadline, wait, reports, script, 0, 0);
    EarlyIffCut(Watching(deadline, wait, reports, script, 0).waits, wait, deadline);
    hide *;
  }

  /** Without an update no wait is cut. */
  lemma {:induction false} OnlyUpdatesCut(deadline: int, wait: int, reports: seq<Report>, script: seq<Await>, elapsed: int)
    requires wait >= 1 && forall k :: 0 <= k < |script| ==> script[k].updates == 0
    ensures CutShort(Watching(deadline, wait, reports, script, elapsed).waits, wait) == 0.0
    decreases deadline - elapsed
  {
    var waits := Watching(deadline, wait, reports, script, elapsed).waits;
    if elapsed <= deadline && !First(script).raises && !Ready(ReportAt(reports, 0)) {
      OnlyUpdatesCut(deadline, wait, ReportsLeft(reports, 1), Rest(Rest(script)), elapsed + wait);
      var later := Watching(deadline, wait, ReportsLeft(reports, 1), Rest(Rest(script)), elapsed + wait).waits;
      hide Ready;
      hide CutShort;
      CutFirst(wait as real, later, wait);
    }
  }

  lemma {:induction false} CutFirst(w: real, waits: seq<real>, interval: int)
    ensures CutShort([w] + waits, interval) == interval as real - w + CutShort(waits, interval)
    ensures Total([w] + waits) == w + Total(waits)
  {
    if waits == [] {
      assert [w] + waits == [w] && [w][..0] == [];
    } else {
      var all := [w] + waits;
      assert all[..|all| - 1] == [w] + waits[..|waits| - 1];
      CutFirst(w, waits[..|waits| - 1], interval);
    }
  }

  /** Looks that raise nothing, each followed by an update. */
  function Updates(n: nat): seq<Await> {
    if n == 0 then [] else [NOTHING] + [NOTHING.(updates := 1)] + Updates(n - 1)
  }

  lemma {:induction false} NothingToReport()
    ensures !Ready(ReportAt([], 0)) && ReportsLeft([], 1) == []
  {
  }

  lemma {:induction false} UpdateTurn(deadline: int, wait: int, elapsed: int, n: nat)
    requires wait >= 1 && elapsed <= deadline && n > 0
    ensures var later := Watching(deadline, wait, [], Updates(n - 1), elapsed + wait);
      Watching(deadline, wait, [], Updates(n), elapsed) == later.(looks := later.looks + 1, waits := [0.0] + later.waits)
  {
    NothingToReport();
    assert Updates(n)[1..] == [NOTHING.(updates := 1)] + Updates(n - 1);
    assert Updates(n)[1..][1..] == Updates(n - 1);
    hide Updates;
    hide Ready;
    hide ReportAt;
    hide ReportsLeft;
  }

  lemma {:induction false} UpdatesTakeNoTime(deadline: int, wait: int, elapsed: int, made: nat)
    requires wait >= 1 && elapsed == made * wait && made <= Looks(deadline, wait)
    ensures var w := Watching(deadline, wait, [], Updates(Looks(deadline, wait) - made), elapsed);
      w.ready == Some(false) && Total(w.waits) == 0.0
    decreases deadline - elapsed
  {
    LooksFit(deadline, wait, made);
    if elapsed <= deadline {
      var n := Looks(deadline, wait) - made;
      UpdateTurn(deadline, wait, elapsed, n);
      hide *;
      UpdatesTakeNoTime(deadline, wait, elapsed + wait, made + 1);
      CutFirst(0.0, Watching(deadline, wait, [], Updates(n - 1), elapsed + wait).waits, wait);
    } else {
      hide Looks;
      hide Updates;
      hide Ready;
    }
  }

  /** Whatever the deadline, updates can use it up: the loop gives up without a wait on a ledger that says nothing. */
  lemma {:induction false} UpdatesUseUpTheDeadline(deadline: int, settle: int)
    ensures var wait := WaitSeconds(settle);
      var w := Watching(deadline, wait, [], Updates(Looks(deadline, wait)), 0);
      w.ready == Some(false) && Total(w.waits) == 0.0
  {
    hide *;
    UpdatesTakeNoTime(deadline, WaitSeconds(settle), 0, 0);
  }
}
