/** What it means for a response to be active, told by the history of its session alone. */
module SessionFloor {
  import opened Options
  import opened Responses
  import opened Session

  /** The turn a response was started for. */
  function TurnOf(events: seq<Event>, id: Id): Option<Turn> {
    if events == [] then None
    else
      var before := TurnOf(events[..|events| - 1], id);
      var e := events[|events| - 1];
      if before == None && e.Start? && e.id == id then Some(e.turn) else before
  }

  /** A response is cancelled by a cancel that comes after its start. */
  ghost predicate WasCancelled(events: seq<Event>, id: Id) {
    exists j :: 0 <= j < |events| && events[j] == Cancel(id) && TurnOf(events[..j], id).Some?
  }

  /** An event takes the floor for a response: it starts it, or restores one that was started and not cancelled. */
  ghost predicate Takes(events: seq<Event>, e: Event, id: Id) {
    || (e.Start? && e.id == id && TurnOf(events, id) == None)
    || (e == Restore(id) && TurnOf(events, id).Some? && !WasCancelled(events, id))
  }

  /** An event ends a response's hold of the floor: its cancel, its playback's end, or another that takes it. */
  ghost predicate Ends(events: seq<Event>, e: Event, id: Id) {
    e == Cancel(id) || e == PlaybackFinished(id) || exists other: Id :: other != id && Takes(events, e, other)
  }

  /** The response took the floor at k, and nothing since ended that. */
  ghost predicate HeldSince(events: seq<Event>, id: Id, k: int) {
    && 0 <= k < |events| && Takes(events[..k], events[k], id)
    && forall j :: k < j < |events| ==> !Ends(events[..j], events[j], id)
  }

  ghost predicate Holds(events: seq<Event>, id: Id) {
    exists k :: HeldSince(events, id, k)
  }

  lemma {:induction false} TurnOfSnoc(events: seq<Event>, e: Event, id: Id)
    ensures TurnOf(events + [e], id) ==
      if TurnOf(events, id) == None && e.Start? && e.id == id then Some(e.turn) else TurnOf(events, id)
  {
    assert (events + [e])[..|events|] == events;
  }

  lemma {:induction false} WasCancelledSnoc(events: seq<Event>, e: Event, id: Id)
    ensures WasCancelled(events + [e], id) <==>
      WasCancelled(events, id) || (e == Cancel(id) && TurnOf(events, id).Some?)
  {
    var all := events + [e];
    assert all[..|events|] == events && all[|events|] == e;
    assert forall j :: 0 <= j < |events| ==> all[..j] == events[..j] && all[j] == events[j];
    hide TurnOf;
  }

  lemma {:induction false} HoldsSnoc(events: seq<Event>, e: Event, id: Id)
    ensures Holds(events + [e], id) <==> Takes(events, e, id) || (Holds(events, id) && !Ends(events, e, id))
  {
    var all := events + [e];
    assert all[..|events|] == events && all[|events|] == e;
    assert forall j :: 0 <= j < |events| ==> all[..j] == events[..j] && all[j] == events[j];
    hide Takes;
    hide Ends;
    if Takes(events, e, id) {
      assert HeldSince(all, id, |events|);
    } else if Holds(events, id) && !Ends(events, e, id) {
      var k :| HeldSince(events, id, k);
      assert HeldSince(all, id, k);
    }
    if Holds(all, id) {
      var k :| HeldSince(all, id, k);
      if k < |events| {
        assert HeldSince(events, id, k);
      }
    }
  }

  /** What the fence knows of a response is what the history tells. */
  ghost predicate Told(c: Controller, events: seq<Event>, id: Id) {
    && (id in c.turns <==> TurnOf(events, id).Some?)
    && (id in c.turns ==> c.turns[id] == TurnOf(events, id).value)
    && (id in c.cancelled <==> WasCancelled(events, id))
    && (c.active == Some(id) <==> Holds(events, id))
  }

  lemma {:induction false} StepTells(msPerChar: real, s: State, events: seq<Event>, e: Event, id: Id)
    requires msPerChar > 0.0 && Fenced(s.fence)
    requires forall other: Id :: Told(s.fence, events, other)
    ensures Told(Step(msPerChar, s, e).fence, events + [e], id)
  {
    hide Interruption;
    hide TurnOf;
    hide WasCancelled;
    hide Holds;
    assert Told(s.fence, events, id) && Told(s.fence, events, e.id);
    TurnOfSnoc(events, e, id);
    WasCancelledSnoc(events, e, id);
    HoldsSnoc(events, e, id);
    assert Ends(events, e, id) <==>
      e == Cancel(id) || e == PlaybackFinished(id) || (e.id != id && Takes(events, e, e.id));
    hide Ends;
  }

  lemma {:induction false} RunTells(msPerChar: real, events: seq<Event>, id: Id)
    requires msPerChar > 0.0
    ensures Told(Run(msPerChar, events).fence, events, id)
  {
    if events == [] {
      assert !Holds(events, id);
    } else {
      var front := events[..|events| - 1];
      assert events == front + [events[|events| - 1]];
      hide Step;
      hide Told;
      forall other: Id ensures Told(Run(msPerChar, front).fence, front, other) {
        RunTells(msPerChar, front, other);
      }
      FenceHolds(msPerChar, front);
      StepTells(msPerChar, Run(msPerChar, front), front, events[|events| - 1], id);
    }
  }

  /**
   * A response is active for a turn exactly when it was started for that turn, was not cancelled, and has held the
   * floor since some event took it: neither its playback has finished since, nor has another response taken over.
   */
  lemma {:induction false} ActiveIffItHoldsTheFloor(msPerChar: real, events: seq<Event>, id: Id, turn: Turn)
    requires msPerChar > 0.0
    ensures IsActive(Run(msPerChar, events).fence, id, turn) <==>
      Holds(events, id) && TurnOf(events, id) == Some(turn)
    ensures Holds(events, id) ==> !WasCancelled(events, id)
  {
    RunTells(msPerChar, events, id);
    FenceHolds(msPerChar, events);
    hide Run;
    hide Holds;
    hide WasCancelled;
    hide TurnOf;
  }

  /** The chunks whose response holds the floor, for their own turn, when the transport looks. */
  ghost function LetThrough(events: seq<Event>): seq<(Id, nat)> {
    if events == [] then []
    else
      var front, e := events[..|events| - 1], events[|events| - 1];
      LetThrough(front)
        + if e.TransportChecksChunk? && Holds(front, e.id) && TurnOf(front, e.id) == Some(e.turn)
          then [(e.id, e.sequence)] else []
  }

  lemma {:induction false} StepSends(msPerChar: real, s: State, e: Event)
    requires msPerChar > 0.0
    ensures Step(msPerChar, s, e).sent ==
      s.sent + if e.TransportChecksChunk? && IsActive(s.fence, e.id, e.turn) then [(e.id, e.sequence)] else []
  {
    hide Interruption;
    hide IsActive;
    assert s.sent + [] == s.sent;
  }

  /** After every run exactly those were sent, in the order they were looked at. */
  lemma {:induction false} SentIsTold(msPerChar: real, events: seq<Event>)
    requires msPerChar > 0.0
    ensures Run(msPerChar, events).sent == LetThrough(events)
  {
    if events != [] {
      var front, e := events[..|events| - 1], events[|events| - 1];
      SentIsTold(msPerChar, front);
      StepSends(msPerChar, Run(msPerChar, front), e);
      if e.TransportChecksChunk? {
        ActiveIffItHoldsTheFloor(msPerChar, front, e.id, e.turn);
      }
      hide Step;
      hide IsActive;
      hide Holds;
    }
  }
}
