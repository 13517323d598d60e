/** The response fence: which response may speak. */
module Responses {
  import opened Options

  type Id = nat
  type Turn = nat

  datatype Controller = Controller(active: Option<Id>, turns: map<Id, Turn>, cancelled: set<Id>)

  function NoResponses(): Controller {
    Controller(None, map[], {})
  }

  function StartResponse(c: Controller, id: Id, turn: Turn): Controller {
    c.(active := Some(id), turns := c.turns[id := turn])
  }

  function CancelResponse(c: Controller, id: Id): Controller {
    if id in c.cancelled then c
    else Controller(if c.active == Some(id) then None else c.active, c.turns, c.cancelled + {id})
  }

  function FinishResponse(c: Controller, id: Id): Controller {
    if c.active == Some(id) then c.(active := None) else c
  }

  /** Puts a response that may still be audible back in charge: a known one that was never cancelled. */
  function RestoreResponse(c: Controller, id: Id): Controller {
    if id in c.cancelled || id !in c.turns then c else c.(active := Some(id))
  }

  predicate IsActive(c: Controller, id: Id, turn: Turn) {
    c.active == Some(id) && id in c.turns && c.turns[id] == turn && id !in c.cancelled
  }

  /** The active response is a known one and is not cancelled; only known responses are cancelled. */
  ghost predicate Fenced(c: Controller) {
    && (c.active.Some? ==> c.active.value in c.turns && c.active.value !in c.cancelled)
    && c.cancelled <= c.turns.Keys
  }

  /** Every operation keeps the fence, and a start does for an identifier that was not cancelled. */
  lemma {:induction false} OperationsKeepTheFence(c: Controller, id: Id, turn: Turn)
    requires Fenced(c)
    ensures id !in c.cancelled ==> Fenced(StartResponse(c, id, turn))
    ensures id in c.turns ==> Fenced(CancelResponse(c, id))
    ensures Fenced(FinishResponse(c, id)) && Fenced(RestoreResponse(c, id))
  {
  }

  /** The controller object of one call. */
  class ResponseController {
    var active: Option<Id>
    var turns: map<Id, Turn>
    var cancelled: set<Id>

    ghost function State(): Controller
      reads this
    {
      Controller(active, turns, cancelled)
    }

    constructor ()
      ensures State() == NoResponses()
    {
      active, turns, cancelled := None, map[], {};
    }

    /** `id` is the new response's random identifier. */
    method Start(id: Id, turn: Turn)
      modifies this
      ensures State() == StartResponse(old(State()), id, turn)
    {
      active := Some(id);
      turns := turns[id := turn];
    }

    /** Marks a response cancelled, and says whether this call did it. */
    method Cancel(id: Id) returns (first: bool)
      modifies this
      ensures State() == CancelResponse(old(State()), id)
      ensures first <==> id !in old(cancelled)
      ensures first ==> id in cancelled && active != Some(id)
    {
      if id in cancelled {
        return false;
      }
      cancelled := cancelled + {id};
      if active == Some(id) {
        active := None;
      }
      first := true;
    }

    method Finish(id: Id) returns (done: bool)
      modifies this
      ensures State() == FinishResponse(old(State()), id)
      ensures done <==> old(active) == Some(id)
    {
      if active != Some(id) {
        return false;
      }
      active := None;
      done := true;
    }
  }
}
