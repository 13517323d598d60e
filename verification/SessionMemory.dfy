/** What the conversation remembers, told by the history of its session alone. */
module SessionMemory {
  import opened Options
  import Flow
  import opened Responses
  import opened Session
  import opened SessionFloor

  // ------------------------------------------------------------ what was heard

  /** The estimated length of a response's speech, at least a millisecond. */
  function EstimatedMs(length: nat, msPerChar: real): real {
    if length as real * msPerChar < 1.0 then 1.0 else length as real * msPerChar
  }

  /** `n` characters were played, and no more: the largest whole number the share of the time played allows. */
  ghost predicate Played(n: nat, length: nat, msPerChar: real, playedMs: real) {
    var estimated := EstimatedMs(length, msPerChar);
    && n <= length
    && (n > 0 ==> n as real * estimated <= length as real * playedMs)
    && (n < length ==> (n + 1) as real * estimated > length as real * playedMs)
  }

  lemma {:induction false} Times(a: real, b: real, c: real)
    requires a <= b && c >= 0.0
    ensures a * c <= b * c
  {
  }

  lemma {:induction false} TimesLess(a: real, b: real, c: real)
    requires a < b && c > 0.0
    ensures a * c < b * c
  {
  }

  lemma {:induction false} Associated(a: real, b: real, c: real)
    ensures a * b * c == a * (b * c)
  {
  }

  /** All of it was played. */
  lemma {:induction false} AllPlayed(length: nat, share: real, estimated: real, playedMs: real)
    requires estimated > 0.0 && share >= 1.0 && share * estimated == playedMs
    ensures length as real * estimated <= length as real * playedMs
  {
    Times(1.0, share, estimated);
    assert estimated * 1.0 == estimated;
    assert estimated <= playedMs;
    Commuted(estimated, playedMs, length as real);
  }

  lemma {:induction false} Commuted(a: real, b: real, c: real)
    requires a <= b && c >= 0.0
    ensures c * a <= c * b
  {
    Times(a, b, c);
    assert a * c == c * a && b * c == c * b;
  }

  /** A part of it was played: the whole characters of that part, and not one more. */
  lemma {:induction false} PartPlayed(n: nat, exact: real, length: nat, estimated: real, playedMs: real)
    requires estimated > 0.0 && n as real <= exact < (n + 1) as real
    requires exact * estimated == length as real * playedMs
    ensures n as real * estimated <= length as real * playedMs < (n + 1) as real * estimated
  {
    Times(n as real, exact, estimated);
    TimesLess(exact, (n + 1) as real, estimated);
  }

  lemma {:induction false} Quotient(playedMs: real, estimated: real)
    requires estimated > 0.0
    ensures playedMs / estimated * estimated == playedMs
  {
  }

  /** The share of a length, held between nothing and all of it. */
  lemma {:induction false} ShareOf(length: nat, r: real, share: real)
    requires 0.0 <= r <= 1.0 && r == if share <= 0.0 then 0.0 else if share < 1.0 then share else 1.0
    ensures SpokenChars(length, r) as real <= length as real * r < (SpokenChars(length, r) + 1) as real
    ensures share <= 0.0 ==> SpokenChars(length, r) == 0
    ensures share >= 1.0 ==> SpokenChars(length, r) == length
  {
    if r == 0.0 {
      assert length as real * r == 0.0;
    } else if r == 1.0 {
      assert length as real * r == length as real;
    }
  }

  /** The bounds of `Played`, for a share of the estimate. */
  lemma {:induction false} PlayedByShare(n: nat, length: nat, r: real, share: real, estimated: real, playedMs: real)
    requires estimated > 0.0 && share * estimated == playedMs
    requires r == if share <= 0.0 then 0.0 else if share < 1.0 then share else 1.0
    requires n <= length && n as real <= length as real * r < (n + 1) as real
    requires (share <= 0.0 ==> n == 0) && (share >= 1.0 ==> n == length)
    ensures n > 0 ==> n as real * estimated <= length as real * playedMs
    ensures n < length ==> (n + 1) as real * estimated > length as real * playedMs
  {
    if share >= 1.0 {
      AllPlayed(length, share, estimated, playedMs);
    } else if share <= 0.0 {
      NothingPlayed(length, share, estimated, playedMs);
    } else {
      Associated(length as real, share, estimated);
      PartPlayed(n, length as real * r, length, estimated, playedMs);
    }
  }

  lemma {:induction false} SpokenCharsWerePlayed(length: nat, msPerChar: real, playedMs: real)
    requires msPerChar > 0.0
    ensures Played(SpokenChars(length, SpokenRatio(length, msPerChar, playedMs)), length, msPerChar, playedMs)
  {
    var estimated := EstimatedMs(length, msPerChar);
    var share, r := playedMs / estimated, SpokenRatio(length, msPerChar, playedMs);
    assert r == if share <= 0.0 then 0.0 else if share < 1.0 then share else 1.0;
    var n := SpokenChars(length, r);
    ShareOf(length, r, share);
    Quotient(playedMs, estimated);
    PlayedByShare(n, length, r, share, estimated, playedMs);
    hide SpokenChars;
    hide SpokenRatio;
    hide EstimatedMs;
  }

  lemma {:induction false} NothingPlayed(length: nat, share: real, estimated: real, playedMs: real)
    requires estimated > 0.0 && share <= 0.0 && share * estimated == playedMs
    ensures length as real * playedMs <= 0.0 < estimated
  {
    Times(share, 0.0, estimated);
    Times(playedMs, 0.0, length as real);
  }

  lemma {:induction false} NoMore(m: nat, n: nat, estimated: real, bound: real)
    requires estimated > 0.0 && n as real * estimated <= bound && (m + 1) as real * estimated > bound
    ensures n <= m
  {
    if n >= m + 1 {
      Times((m + 1) as real, n as real, estimated);
    }
  }

  /** That number is determined. */
  lemma {:induction false} PlayedIsUnique(m: nat, n: nat, length: nat, msPerChar: real, playedMs: real)
    requires msPerChar > 0.0 && Played(m, length, msPerChar, playedMs) && Played(n, length, msPerChar, playedMs)
    ensures m == n
  {
    var estimated := EstimatedMs(length, msPerChar);
    if m < n {
      NoMore(m, n, estimated, length as real * playedMs);
    } else if n < m {
      NoMore(n, m, estimated, length as real * playedMs);
    }
  }

  // -------------------------------------------------------------- the text so far

  /** What a response has generated: its tokens since its start. */
  function Said(events: seq<Event>, id: Id): string {
    if events == [] then []
    else
      var front, e := events[..|events| - 1], events[|events| - 1];
      Said(front, id) + if e.Token? && e.id == id && TurnOf(front, id).Some? then e.text else []
  }

  lemma {:induction false} SaidSnoc(events: seq<Event>, e: Event, id: Id)
    ensures Said(events + [e], id) ==
      Said(events, id) + if e.Token? && e.id == id && TurnOf(events, id).Some? then e.text else []
  {
    assert (events + [e])[..|events|] == events;
  }

  lemma {:induction false} NothingSaidBefore(events: seq<Event>, id: Id)
    requires TurnOf(events, id) == None
    ensures Said(events, id) == []
  {
    if events != [] {
      NothingSaidBefore(events[..|events| - 1], id);
    }
  }

  ghost predicate TextTold(s: State, events: seq<Event>, id: Id) {
    && (id in s.text <==> TurnOf(events, id).Some?)
    && Generated(s, id) == Said(events, id)
  }

  lemma {:induction false} StepTellsText(msPerChar: real, s: State, events: seq<Event>, e: Event, id: Id)
    requires msPerChar > 0.0 && TextTold(s, events, id) && SessionFloor.Told(s.fence, events, id)
    ensures TextTold(Step(msPerChar, s, e), events + [e], id)
  {
    hide Interruption;
    hide Holds;
    hide WasCancelled;
    TurnOfSnoc(events, e, id);
    SaidSnoc(events, e, id);
    if TurnOf(events, id) == None {
      NothingSaidBefore(events, id);
    }
    assert Said(events, id) + [] == Said(events, id);
    hide TurnOf;
    hide Said;
  }

  lemma {:induction false} RunTellsText(msPerChar: real, events: seq<Event>, id: Id)
    requires msPerChar > 0.0
    ensures TextTold(Run(msPerChar, events), events, id)
  {
    if events != [] {
      var front, e := events[..|events| - 1], events[|events| - 1];
      assert events == front + [e];
      RunTellsText(msPerChar, front, id);
      RunTells(msPerChar, front, id);
      hide Step;
      hide TextTold;
      hide SessionFloor.Told;
      StepTellsText(msPerChar, Run(msPerChar, front), front, e, id);
    }
  }

  // ------------------------------------------------------------ the conversation

  /** A response is interrupted once it is marked so after its cancel. */
  ghost predicate WasInterrupted(events: seq<Event>, id: Id) {
    exists j :: 0 <= j < |events| && events[j].MarkInterrupted? && events[j].id == id && WasCancelled(events[..j], id)
  }

  lemma {:induction false} WasInterruptedSnoc(events: seq<Event>, e: Event, id: Id)
    ensures WasInterrupted(events + [e], id) <==>
      WasInterrupted(events, id) || (e.MarkInterrupted? && e.id == id && WasCancelled(events, id))
  {
    var all := events + [e];
    assert all[..|events|] == events && all[|events|] == e;
    assert forall j :: 0 <= j < |events| ==> all[..j] == events[..j] && all[j] == events[j];
    hide WasCancelled;
  }

  /** The event adds an entry: a response is complete, or is interrupted for the first time. */
  ghost predicate Adds(events: seq<Event>, e: Event) {
    || (e.LlmDone? && TurnOf(events, e.id).Some? && !WasInterrupted(events, e.id))
    || (e.MarkInterrupted? && WasCancelled(events, e.id) && !WasInterrupted(events, e.id))
  }

  /** The entry it adds: all that was generated, and of an interrupted response what was played of that. */
  ghost predicate IsEntry(msPerChar: real, events: seq<Event>, e: Event, entry: Entry)
    requires Adds(events, e)
  {
    var generated := Said(events, e.id);
    if e.LlmDone? then entry == Completed(e.id, generated)
    else
      && entry.Interrupted? && entry.id == e.id && entry.generated == generated && entry.content <= generated
      && Played(|entry.content|, |generated|, msPerChar, e.playedMs)
  }

  /** The conversation is the entries the events add, in order. */
  ghost predicate Tells(msPerChar: real, events: seq<Event>, conversation: seq<Entry>) {
    if events == [] then conversation == []
    else
      var front, e := events[..|events| - 1], events[|events| - 1];
      if !Adds(front, e) then Tells(msPerChar, front, conversation)
      else
        && conversation != [] && Tells(msPerChar, front, conversation[..|conversation| - 1])
        && IsEntry(msPerChar, front, e, conversation[|conversation| - 1])
  }

  ghost predicate InterruptedTold(s: State, events: seq<Event>) {
    forall id: Id :: id in s.interrupted <==> WasInterrupted(events, id)
  }

  lemma {:induction false} StepTellsInterrupted(msPerChar: real, s: State, events: seq<Event>, e: Event, id: Id)
    requires msPerChar > 0.0 && (id in s.interrupted <==> WasInterrupted(events, id))
    requires SessionFloor.Told(s.fence, events, id)
    ensures id in Step(msPerChar, s, e).interrupted <==> WasInterrupted(events + [e], id)
  {
    WasInterruptedSnoc(events, e, id);
    hide Interruption;
    hide Holds;
    hide WasCancelled;
    hide WasInterrupted;
    hide TurnOf;
  }

  lemma {:induction false} RunTellsInterrupted(msPerChar: real, events: seq<Event>, id: Id)
    requires msPerChar > 0.0
    ensures id in Run(msPerChar, events).interrupted <==> WasInterrupted(events, id)
  {
    if events != [] {
      var front, e := events[..|events| - 1], events[|events| - 1];
      assert events == front + [e];
      RunTellsInterrupted(msPerChar, front, id);
      RunTells(msPerChar, front, id);
      hide Step;
      hide SessionFloor.Told;
      hide WasInterrupted;
      StepTellsInterrupted(msPerChar, Run(msPerChar, front), front, e, id);
    }
  }

  lemma {:induction false} InterruptionIsAnEntry(
    msPerChar: real, events: seq<Event>, e: Event, generated: string)
    requires msPerChar > 0.0 && e.MarkInterrupted? && Adds(events, e) && generated == Said(events, e.id)
    ensures IsEntry(msPerChar, events, e, Interruption(e.id, generated, msPerChar, e.playedMs))
  {
    SpokenCharsWerePlayed(|generated|, msPerChar, e.playedMs);
    hide Played;
    hide Said;
    hide Adds;
    hide SpokenRatio;
    hide SpokenChars;
  }

  /** What one event does to the conversation. */
  lemma {:induction false} StepTellsEntry(msPerChar: real, s: State, events: seq<Event>, e: Event)
    requires msPerChar > 0.0 && SessionFloor.Told(s.fence, events, e.id) && TextTold(s, events, e.id)
    requires e.id in s.interrupted <==> WasInterrupted(events, e.id)
    ensures var c' := Step(msPerChar, s, e).conversation;
      if !Adds(events, e) then c' == s.conversation
      else c' != [] && c'[..|c'| - 1] == s.conversation && IsEntry(msPerChar, events, e, c'[|c'| - 1])
  {
    if e.MarkInterrupted? && Adds(events, e) {
      InterruptionIsAnEntry(msPerChar, events, e, Generated(s, e.id));
    }
    hide Interruption;
    hide Holds;
    hide WasCancelled;
    hide WasInterrupted;
    hide TurnOf;
    hide Said;
    hide Played;
  }

  /**
   * After every run the conversation is told by the events: an entry with everything generated when a started response
   * that was not interrupted is done, and, when a cancelled one is first marked interrupted, an entry whose content is
   * exactly the characters that were played.
   */
  lemma {:induction false} ConversationIsTold(msPerChar: real, events: seq<Event>)
    requires msPerChar > 0.0
    ensures Tells(msPerChar, events, Run(msPerChar, events).conversation)
  {
    if events != [] {
      var front, e := events[..|events| - 1], events[|events| - 1];
      ConversationIsTold(msPerChar, front);
      RunTells(msPerChar, front, e.id);
      RunTellsText(msPerChar, front, e.id);
      RunTellsInterrupted(msPerChar, front, e.id);
      hide Step;
      hide TextTold;
      hide SessionFloor.Told;
      hide WasInterrupted;
      hide Adds;
      hide IsEntry;
      StepTellsEntry(msPerChar, Run(msPerChar, front), front, e);
    }
  }
}
