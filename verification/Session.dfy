/** Every interleaving of one call's responses: the fence, and what the conversation remembers. */
module Session {
  import opened Options
  import opened Flow
  import opened Responses

  datatype Entry =
    | Completed(id: Id, content: string)
    | Interrupted(id: Id, content: string, generated: string)

  /** The code segments between two awaits that touch the fence or the conversation. */
  datatype Event =
    | Start(id: Id, turn: Turn)
    | Token(id: Id, text: string)
    | LlmDone(id: Id)
    | Cancel(id: Id)
    | MarkInterrupted(id: Id, playedMs: real)
    | TransportChecksChunk(id: Id, turn: Turn, sequence: nat)
    | PlaybackFinished(id: Id)
    | Restore(id: Id)

  datatype State = State(
    fence: Controller, sessionActive: Option<Id>,
    text: map<Id, string>, interrupted: set<Id>, conversation: seq<Entry>, sent: seq<(Id, nat)>)

  function Init(): State {
    State(NoResponses(), None, map[], {}, [], [])
  }

  function Generated(s: State, id: Id): string {
    if id in s.text then s.text[id] else []
  }

  /** The share of the response that was played, by its estimated duration. */
  function SpokenRatio(length: nat, msPerChar: real, playedMs: real): (r: real)
    requires msPerChar > 0.0
    ensures 0.0 <= r <= 1.0
  {
    var estimated := Max(length as real * msPerChar, 1.0);
    var share := playedMs / estimated;
    Max(0.0, if share < 1.0 then share else 1.0)
  }

  lemma {:induction false} Scaled(length: nat, r: real)
    requires 0.0 <= r <= 1.0
    ensures 0.0 <= length as real * r <= length as real
  {
  }

  /** The characters heard, cut down to whole ones. */
  function SpokenChars(length: nat, r: real): (n: nat)
    requires 0.0 <= r <= 1.0
    ensures n <= length
  {
    Scaled(length, r);
    (length as real * r).Floor
  }

  /** The conversation's entry for an interrupted response: only a prefix of it counts as said. */
  function Interruption(id: Id, generated: string, msPerChar: real, playedMs: real): (e: Entry)
    requires msPerChar > 0.0
    ensures e.Interrupted? && e.id == id && e.generated == generated && e.content <= generated
  {
    var r := SpokenRatio(|generated|, msPerChar, playedMs);
    Interrupted(id, generated[..SpokenChars(|generated|, r)], generated)
  }

  function Step(msPerChar: real, s: State, e: Event): State
    requires msPerChar > 0.0
  {
    match e
    case Start(id, turn) =>
      if id in s.fence.turns then s
      else s.(fence := StartResponse(s.fence, id, turn), sessionActive := Some(id), text := s.text[id := []])
    case Token(id, text) =>
      if id in s.text then s.(text := s.text[id := s.text[id] + text]) else s
    case LlmDone(id) =>
      if id in s.fence.turns && id !in s.interrupted then
        s.(conversation := s.conversation + [Completed(id, Generated(s, id))])
      else s
    case Cancel(id) =>
      if id !in s.fence.turns || id in s.fence.cancelled then s
      else
        var f := CancelResponse(s.fence, id);
        s.(fence := f, sessionActive := f.active)
    case MarkInterrupted(id, played) =>
      if id !in s.fence.cancelled || id in s.interrupted then s
      else
        s.(interrupted := s.interrupted + {id},
           conversation := s.conversation + [Interruption(id, Generated(s, id), msPerChar, played)])
    case TransportChecksChunk(id, turn, n) =>
      if IsActive(s.fence, id, turn) then s.(sent := s.sent + [(id, n)]) else s
    case PlaybackFinished(id) =>
      if id in s.fence.cancelled || s.fence.active != Some(id) then s
      else
        var f := FinishResponse(s.fence, id);
        s.(fence := f, sessionActive := f.active)
    case Restore(id) =>
      if id in s.fence.cancelled || id !in s.fence.turns then s
      else s.(fence := RestoreResponse(s.fence, id), sessionActive := Some(id))
  }

  function Run(msPerChar: real, events: seq<Event>): State
    requires msPerChar > 0.0
  {
    if events == [] then Init() else Step(msPerChar, Run(msPerChar, events[..|events| - 1]), events[|events| - 1])
  }

  // ------------------------------------------------------------ the fence

  lemma {:induction false} StepFence(msPerChar: real, s: State, e: Event)
    requires msPerChar > 0.0 && Fenced(s.fence) && s.sessionActive == s.fence.active
    ensures Fenced(Step(msPerChar, s, e).fence) && Step(msPerChar, s, e).sessionActive == Step(msPerChar, s, e).fence.active
  {
    hide Interruption;
  }

  /** The fence holds after every run, and the session's idea of the active response is the controller's. */
  lemma {:induction false} FenceHolds(msPerChar: real, events: seq<Event>)
    requires msPerChar > 0.0
    ensures Fenced(Run(msPerChar, events).fence)
    ensures Run(msPerChar, events).sessionActive == Run(msPerChar, events).fence.active
  {
    hide Step;
    if events != [] {
      FenceHolds(msPerChar, events[..|events| - 1]);
      StepFence(msPerChar, Run(msPerChar, events[..|events| - 1]), events[|events| - 1]);
    }
  }

  function SentOf(sent: seq<(Id, nat)>, id: Id): seq<nat> {
    if sent == [] then []
    else SentOf(sent[..|sent| - 1], id) + (if sent[|sent| - 1].0 == id then [sent[|sent| - 1].1] else [])
  }

  lemma {:induction false} StepSilence(msPerChar: real, s: State, e: Event, id: Id)
    requires msPerChar > 0.0 && id in s.fence.cancelled
    ensures id in Step(msPerChar, s, e).fence.cancelled
    ensures SentOf(Step(msPerChar, s, e).sent, id) == SentOf(s.sent, id)
    ensures Fenced(s.fence) ==> Step(msPerChar, s, e).fence.active != Some(id)
  {
    hide Interruption;
    hide SentOf;
    if e.TransportChecksChunk? {
      SentSnoc(s.sent, (e.id, e.sequence), id);
    }
  }

  lemma {:induction false} SentSnoc(sent: seq<(Id, nat)>, x: (Id, nat), id: Id)
    ensures SentOf(sent + [x], id) == SentOf(sent, id) + (if x.0 == id then [x.1] else [])
  {
    assert (sent + [x])[..|sent|] == sent;
  }

  /**
   * A cancelled response stays cancelled, is never active again, and never sends another chunk, whatever
   * chunks of it are still queued or arrive late.
   */
  lemma {:induction false} CancelledStaysSilent(msPerChar: real, events: seq<Event>, more: seq<Event>, id: Id)
    requires msPerChar > 0.0
    requires id in Run(msPerChar, events).fence.cancelled
    ensures id in Run(msPerChar, events + more).fence.cancelled
    ensures Run(msPerChar, events + more).fence.active != Some(id)
    ensures SentOf(Run(msPerChar, events + more).sent, id) == SentOf(Run(msPerChar, events).sent, id)
  {
    hide Step;
    FenceHolds(msPerChar, events + more);
    if more == [] {
      assert events + more == events;
    } else {
      assert (events + more)[..|events + more| - 1] == events + more[..|more| - 1];
      CancelledStaysSilent(msPerChar, events, more[..|more| - 1], id);
      StepSilence(msPerChar, Run(msPerChar, events + more[..|more| - 1]), more[|more| - 1], id);
    }
  }

  // ----------------------------------------------------- the conversation

  /** Interrupted responses have one interrupted entry, nothing completed after it, and a spoken prefix. */
  ghost predicate Remembered(s: State) {
    && (forall id :: id in s.interrupted <==> exists k :: 0 <= k < |s.conversation| && InterruptedAt(s, k, id))
    && (forall j, k :: 0 <= j < k < |s.conversation| && s.conversation[j].Interrupted?
          ==> s.conversation[k].id != s.conversation[j].id)
    && (forall k :: 0 <= k < |s.conversation| && s.conversation[k].Interrupted?
          ==> s.conversation[k].content <= s.conversation[k].generated)
  }

  ghost predicate InterruptedAt(s: State, k: nat, id: Id)
    requires k < |s.conversation|
  {
    s.conversation[k].Interrupted? && s.conversation[k].id == id
  }

  lemma {:induction false} StepRemembers(msPerChar: real, s: State, e: Event)
    requires msPerChar > 0.0 && Remembered(s)
    ensures Remembered(Step(msPerChar, s, e))
  {
    hide Interruption;
    var s' := Step(msPerChar, s, e);
    var n := |s.conversation|;
    forall id | id in s'.interrupted
      ensures exists k :: 0 <= k < |s'.conversation| && InterruptedAt(s', k, id)
    {
      if id in s.interrupted {
        var k :| 0 <= k < n && InterruptedAt(s, k, id);
        assert InterruptedAt(s', k, id);
      } else {
        assert InterruptedAt(s', n, id);
      }
    }
    forall id, k | 0 <= k < |s'.conversation| && InterruptedAt(s', k, id)
      ensures id in s'.interrupted
    {
      assert k < n ==> InterruptedAt(s, k, id);
    }
    forall j | 0 <= j < n && s.conversation[j].Interrupted? && |s'.conversation| > n
      ensures s'.conversation[n].id != s.conversation[j].id
    {
      assert InterruptedAt(s, j, s.conversation[j].id);
    }
  }

  /** After every run the conversation remembers each interruption once, last, and as a spoken prefix. */
  lemma {:induction false} ConversationRemembers(msPerChar: real, events: seq<Event>)
    requires msPerChar > 0.0
    ensures Remembered(Run(msPerChar, events))
  {
    hide Step;
    if events != [] {
      ConversationRemembers(msPerChar, events[..|events| - 1]);
      StepRemembers(msPerChar, Run(msPerChar, events[..|events| - 1]), events[|events| - 1]);
    }
  }
}
