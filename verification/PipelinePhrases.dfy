/** How a response's tokens are split into the phrases that are spoken. */
module PipelinePhrases {
  import opened Pipeline
  import opened PipelineSafety
  import opened PipelineDrain
  import opened PipelineContent

  // ------------------------------------------------------------ when to speak

  /** The white space of Unicode. */
  const WHITE_SPACE: set<int> := {
    0x9, 0xa, 0xb, 0xc, 0xd, 0x1c, 0x1d, 0x1e, 0x1f, 0x20, 0x85, 0xa0, 0x1680, 0x2000, 0x2001, 0x2002, 0x2003, 0x2004,
    0x2005, 0x2006, 0x2007, 0x2008, 0x2009, 0x200a, 0x2028, 0x2029, 0x202f, 0x205f, 0x3000
  }

  predicate IsSpace(c: char) {
    c as int in WHITE_SPACE
  }

  lemma {:induction false} BlanksAreSpace(c: char)
    ensures Blank(c) <==> IsSpace(c)
  {
  }

  /** A closing mark that only white space follows. */
  ghost predicate EndsSentence(text: string, mark: int) {
    0 <= mark < |text| && text[mark] in ".?!" && forall k :: mark < k < |text| ==> IsSpace(text[k])
  }

  /** Long enough to be spoken, or the end of a sentence. */
  ghost predicate Speakable(text: string) {
    |text| >= 120 || exists mark :: EndsSentence(text, mark)
  }

  lemma {:induction false} StripRightIs(text: string)
    ensures StripRight(text) <= text
    ensures forall k :: |StripRight(text)| <= k < |text| ==> Blank(text[k])
    ensures StripRight(text) != [] ==> !Blank(StripRight(text)[|StripRight(text)| - 1])
  {
    if text != [] && Blank(text[|text| - 1]) {
      StripRightIs(text[..|text| - 1]);
    }
    hide Blank;
  }

  lemma {:induction false} MarksAreNotBlank(c: char)
    requires c in ".?!"
    ensures !Blank(c)
  {
  }

  /** The phrase builder's test is exactly that. */
  lemma {:induction false} ReadyIsSpeakable(text: string)
    ensures PhraseReady(text) <==> Speakable(text)
  {
    var stripped := StripRight(text);
    StripRightIs(text);
    hide StripRight;
    forall c ensures Blank(c) <==> IsSpace(c) {
      BlanksAreSpace(c);
    }
    hide IsSpace;
    if exists mark :: EndsSentence(text, mark) {
      var mark :| EndsSentence(text, mark);
      MarksAreNotBlank(text[mark]);
      hide Blank;
      assert mark == |stripped| - 1;
    }
    hide Blank;
    if stripped != [] && stripped[|stripped| - 1] in ".?!" {
      assert EndsSentence(text, |stripped| - 1);
    }
  }

  // ------------------------------------------------------------- the reference

  /** The phrases that come of tokens, after what is buffered. */
  function Phrases(buffer: string, tokens: seq<string>): seq<string>
    decreases |tokens|
  {
    if tokens == [] then (if AllBlank(buffer) then [] else [buffer])
    else if PhraseReady(buffer + tokens[0]) then [buffer + tokens[0]] + Phrases([], tokens[1..])
    else Phrases(buffer + tokens[0], tokens[1..])
  }

  function Texts(items: seq<TextItem>): seq<string> {
    if items == [] then [] else Said(items[0]) + Texts(items[1..])
  }

  lemma {:induction false} TextsAppend(items: seq<TextItem>, i: TextItem)
    ensures Texts(items + [i]) == Texts(items) + Said(i)
  {
    if items == [] {
      assert items + [i] == [i] && [i][1..] == [];
    } else {
      assert (items + [i])[1..] == items[1..] + [i] && (items + [i])[0] == items[0];
      TextsAppend(items[1..], i);
      TextsFirst(items);
      TextsFirst(items + [i]);
      hide Texts;
    }
  }

  function Said(i: TextItem): seq<string> {
    if i.Text? then [i.text] else []
  }

  lemma {:induction false} TextsFirst(items: seq<TextItem>)
    requires items != []
    ensures Texts(items) == Said(items[0]) + Texts(items[1..])
  {
  }

  /** The tokens the language model has still to put. */
  function Unsaid(llm: Llm): seq<string> {
    match llm
    case LlmToken(rest) => rest
    case LlmGate(token, rest, _) => [token] + rest
    case LlmPut(token, rest) => [token] + rest
    case LlmCall(rest, _) => rest
    case LlmEnd => []
    case LlmDone => []
  }

  /** The tokens that were not yet given to the phrase builder. */
  function Unbuilt(s: State): seq<string> {
    Texts(TextSide(s).flight) + Unsaid(s.llm)
  }

  /** What the phrases will be in the end: those there are, and those of what is buffered and to come. */
  function Destined(s: State): seq<string> {
    s.phrases + if Flushing(s.tts) then [] else Phrases(s.buffer, Unbuilt(s))
  }

  // ----------------------------------------------------------------- the run

  lemma {:induction false} LlmKeepsUnbuilt(p: Setup, s: State)
    requires Taking(s) && CallbacksMarked(s) && !Stale(p, s) && !Stale(p, LlmStep(p, s))
    ensures Unbuilt(LlmStep(p, s)) == Unbuilt(s)
  {
    var s' := LlmStep(p, s);
    match s.llm
    case LlmPut(token, rest) => LlmPutKeepsUnbuilt(p, s, Text(token), [token] + rest, rest);
    case LlmEnd => LlmPutKeepsUnbuilt(p, s, TextEnd, [], []);
    case LlmCall(rest, callback) =>
      CallbackSpares(p, s, callback);
      assert TextSide(s').flight == TextSide(s).flight;
    case _ => assert TextSide(s').flight == TextSide(s).flight;
    hide Texts;
  }

  lemma {:induction false} LlmPutKeepsUnbuilt(p: Setup, s: State, item: TextItem, unsaid: seq<string>, rest: seq<string>)
    requires Taking(s) && (s.llm.LlmEnd? || s.llm.LlmPut?)
    requires item == if s.llm.LlmPut? then Text(s.llm.token) else TextEnd
    requires Unsaid(s.llm) == unsaid == Said(item) + rest && Unsaid(LlmStep(p, s).llm) == rest
    ensures Unbuilt(LlmStep(p, s)) == Unbuilt(s)
  {
    Puts(p.textConfig, s.text, item, if s.llm.LlmPut? then TextMs(p, s.llm.token) else 0.0);
    var v, v' := TextSide(s), TextSide(LlmStep(p, s));
    assert v'.flight == v.flight + [item];
    TextsAppend(v.flight, item);
    assert Texts(v.flight) + (Said(item) + rest) == Texts(v.flight) + Said(item) + rest;
    hide Texts;
  }

  /** Once the end marker is held, no token is left. */
  lemma {:induction false} NothingAfterTheEnd(s: State)
    requires Ends(s) && s.tts.TtsHas? && s.tts.item.TextEnd?
    ensures Unbuilt(s) == []
  {
    assert s.text.items == [] && s.llm == LlmDone;
    assert TextSide(s).flight == [TextEnd] && [TextEnd][1..] == [];
  }

  lemma {:induction false} PhrasesOfOneMore(buffer: string, t: string, left: seq<string>)
    ensures Phrases(buffer, [t] + left) ==
      if PhraseReady(buffer + t) then [buffer + t] + Phrases([], left) else Phrases(buffer + t, left)
  {
    assert ([t] + left)[1..] == left;
    hide PhraseReady;
    hide AllBlank;
  }

  /** What the builder does with a token. */
  lemma {:induction false} BuilderIs(p: Setup, s: State)
    requires s.tts.TtsHas? && s.tts.item.Text? && !Stale(p, s)
    ensures var (s', grown) := (TtsStep(p, s), s.buffer + s.tts.item.text);
      && !Flushing(s'.tts)
      && (if PhraseReady(grown) then s'.phrases == s.phrases + [grown] && s'.buffer == []
          else s'.phrases == s.phrases && s'.buffer == grown)
  {
    hide PhraseReady;
    hide Stale;
  }

  lemma {:induction false} DestinedIs(s: State)
    ensures Destined(s) == s.phrases + if Flushing(s.tts) then [] else Phrases(s.buffer, Unbuilt(s))
    ensures s.tts.TtsHas? ==> !Flushing(s.tts)
  {
    hide Phrases;
    hide Unbuilt;
  }

  lemma {:induction false} Regroup(phrases: seq<string>, one: string, more: seq<string>)
    ensures phrases + ([one] + more) == phrases + [one] + more
  {
  }

  lemma {:induction false} BuilderFollowsToken(p: Setup, s: State)
    requires s.tts.TtsHas? && s.tts.item.Text? && !Stale(p, s)
    ensures Destined(TtsStep(p, s)) == Destined(s)
  {
    hide *;
    var s', grown := TtsStep(p, s), s.buffer + s.tts.item.text;
    BuilderTakes(p, s);
    BuilderIs(p, s);
    PhrasesOfOneMore(s.buffer, s.tts.item.text, Unbuilt(s'));
    Regroup(s.phrases, grown, Phrases([], Unbuilt(s')));
    DestinedIs(s);
    DestinedIs(s');
  }

  lemma {:induction false} BuilderFollowsEnd(p: Setup, s: State)
    requires Ends(s) && s.tts.TtsHas? && s.tts.item.TextEnd? && !Stale(p, s)
    ensures Destined(TtsStep(p, s)) == Destined(s)
  {
    NothingAfterTheEnd(s);
    assert s.phrases + [] == s.phrases;
    hide Stale;
    hide Unbuilt;
    hide AllBlank;
    hide Ends;
  }

  lemma {:induction false} BuilderTakes(p: Setup, s: State)
    requires s.tts.TtsHas? && s.tts.item.Text? && !Stale(p, s)
    ensures Unbuilt(s) == [s.tts.item.text] + Unbuilt(TtsStep(p, s))
  {
    var s' := TtsStep(p, s);
    var v, v' := TextSide(s), TextSide(s');
    assert v.flight[0] == s.tts.item && v'.flight == v.flight[1..];
    assert s'.llm == s.llm;
    TextsFirst(v.flight);
    hide Texts;
  }

  lemma {:induction false} SameSide(s: State, s': State)
    requires TextSide(s') == TextSide(s) && Unsaid(s'.llm) == Unsaid(s.llm) && Flushing(s'.tts) == Flushing(s.tts)
    ensures Destined(s') == Destined(s)
  {
  }

  /** No step of a response that keeps the floor changes what its phrases will be. */
  lemma {:induction false} StepKeepsDestined(p: Setup, s: State, t: Task)
    requires Safe(p, s) && CallbacksMarked(s) && Enabled(p, s, t)
    requires KeepsFloor(p, s) && KeepsFloor(p, TaskStep(p, s, t))
    ensures Destined(TaskStep(p, s, t)) == Destined(s)
  {
    var s' := TaskStep(p, s, t);
    if s.transport == TransportDone {
      NothingLeftToMove(p, s, t);
      OutsideLeavesTasks(p, s);
      SameSide(s, s');
    } else if t == TransportTask {
      TransportLeavesText(p, s);
      assert s'.llm == s.llm;
      SameSide(s, s');
    } else {
      OthersLeaveTheTransport(p, s, t);
      HeldStepKeepsDestined(p, s, t);
    }
  }

  lemma {:induction false} OutsideLeavesTasks(p: Setup, s: State)
    ensures OutsideStep(p, s).llm == s.llm && OutsideStep(p, s).tts == s.tts
  {
    if s.session.cancelling.Some? {
      CallbackFrame(p, s, s.session.cancelling.value);
      hide CallbackStep;
    } else {
      OutsideTouchesTheFence(p, s);
    }
  }

  lemma {:induction false} HeldStepKeepsDestined(p: Setup, s: State, t: Task)
    requires t != TransportTask && Safe(p, s) && CallbacksMarked(s) && Enabled(p, s, t)
    requires !Stale(p, s) && !Stale(p, TaskStep(p, s, t))
    ensures Destined(TaskStep(p, s, t)) == Destined(s)
  {
    hide Stale;
    hide Phrases;
    match t
    case LlmTask =>
      LlmKeepsUnbuilt(p, s);
      LlmLeavesAudio(p, s);
      hide Unbuilt;
      hide LlmStep;
    case TtsTask =>
      if s.tts.TtsHas? {
        if s.tts.item.TextEnd? {
          BuilderFollowsEnd(p, s);
        } else {
          BuilderFollowsToken(p, s);
        }
      } else {
        TtsQueueMoves(p, s);
        TtsWorks(p, s);
        SameSide(s, TtsStep(p, s));
      }
      hide TtsStep;
    case OutsideTask =>
      OutsideMoves(p, s);
      OutsideLeavesTasks(p, s);
      SameSide(s, OutsideStep(p, s));
      hide OutsideStep;
  }

  ghost predicate OnItsWay(p: Setup, s: State) {
    s.held ==> Destined(s) == Phrases([], p.tokens)
  }

  lemma {:induction false} NextIsOnItsWay(p: Setup, s: State, t: Task)
    requires Safe(p, s) && Faithful(p, s) && OnItsWay(p, s)
    ensures OnItsWay(p, Next(p, s, t))
  {
    if Enabled(p, s, t) && s.held && KeepsFloor(p, TaskStep(p, s, t)) {
      StepKeepsDestined(p, s, t);
      var s' := TaskStep(p, s, t);
      assert Destined(Next(p, s, t)) == Destined(s');
    }
    hide TaskStep;
    hide Destined;
  }

  lemma {:induction false} RunIsOnItsWay(p: Setup, s: State, tasks: seq<Task>)
    requires Init(p, s)
    ensures OnItsWay(p, Run(p, s, tasks))
  {
    if tasks == [] {
      assert TextSide(s).flight == [] && [] + p.tokens == p.tokens;
      assert [] + Phrases([], p.tokens) == Phrases([], p.tokens);
    } else {
      hide Next;
      hide OnItsWay;
      RunIsOnItsWay(p, s, tasks[..|tasks| - 1]);
      RunIsSafe(p, s, tasks[..|tasks| - 1]);
      RunIsFaithful(p, s, tasks[..|tasks| - 1]);
      NextIsOnItsWay(p, Run(p, s, tasks[..|tasks| - 1]), tasks[|tasks| - 1]);
    }
  }

  /** A finished response that kept the floor was spoken in exactly the phrases its tokens make. */
  lemma {:induction false} SpokenInPhrases(p: Setup, s: State, tasks: seq<Task>)
    requires Init(p, s) && Finished(Run(p, s, tasks)) && Run(p, s, tasks).held
    ensures Run(p, s, tasks).phrases == Phrases([], p.tokens)
  {
    RunIsOnItsWay(p, s, tasks);
    RunIsSafe(p, s, tasks);
    var end := Run(p, s, tasks);
    assert Flushing(end.tts) && end.phrases + [] == end.phrases;
    hide Run;
  }

  // --------------------------------------------------------------- the split

  /** Tokens from `from` up to `to` make one phrase, and no fewer of them did. */
  ghost predicate JustSpeakable(tokens: seq<string>, from: nat, to: nat) {
    && from < to <= |tokens| && Speakable(Join(tokens[from..to]))
    && forall i :: from < i < to ==> !Speakable(Join(tokens[from..i]))
  }

  /** The tokens from `from` on never make a phrase. */
  ghost predicate NeverSpeakable(tokens: seq<string>, from: nat) {
    from <= |tokens| && forall i :: from < i <= |tokens| ==> !Speakable(Join(tokens[from..i]))
  }

  /**
   * The phrases are the tokens from `from` on, cut where they first could be spoken. What is left after the last cut is
   * one more phrase, unless it is blank.
   */
  ghost predicate IsSplit(tokens: seq<string>, from: nat, phrases: seq<string>, cuts: seq<nat>) {
    && cuts != [] && cuts[0] == from && cuts[|cuts| - 1] <= |tokens| && |cuts| - 1 <= |phrases|
    && (forall k :: 0 <= k < |cuts| - 1 ==> IsPiece(tokens, phrases[k], cuts[k], cuts[k + 1]))
    && NeverSpeakable(tokens, cuts[|cuts| - 1])
    && phrases[|cuts| - 1..] == Remainder(Join(tokens[cuts[|cuts| - 1]..]))
  }

  ghost predicate IsPiece(tokens: seq<string>, phrase: string, from: nat, to: nat) {
    JustSpeakable(tokens, from, to) && phrase == Join(tokens[from..to])
  }

  ghost function Remainder(rest: string): seq<string> {
    if forall k :: 0 <= k < |rest| ==> IsSpace(rest[k]) then [] else [rest]
  }

  /** The reference cuts the tokens like that. */
  lemma {:induction false} PhrasesAreASplit(tokens: seq<string>, from: nat, at: nat) returns (cuts: seq<nat>)
    requires from <= at <= |tokens| && forall i :: from < i <= at ==> !Speakable(Join(tokens[from..i]))
    ensures IsSplit(tokens, from, Phrases(Join(tokens[from..at]), tokens[at..]), cuts)
    decreases |tokens| - at
  {
    hide Speakable;
    hide PhraseReady;
    hide Join;
    var buffer := Join(tokens[from..at]);
    if at == |tokens| {
      cuts := [from];
      assert tokens[from..at] == tokens[from..];
    } else {
      var grown := buffer + tokens[at];
      assert tokens[from..at] + [tokens[at]] == tokens[from..at + 1];
      JoinAppend(tokens[from..at], tokens[at]);
      assert tokens[at..][1..] == tokens[at + 1..] && tokens[at..][0] == tokens[at];
      ReadyIsSpeakable(grown);
      if PhraseReady(grown) {
        var rest := PhrasesAreASplit(tokens, at + 1, at + 1);
        NothingJoined(tokens, at + 1);
        cuts := [from] + rest;
        PieceFirst(tokens, from, at + 1, grown, Phrases([], tokens[at + 1..]), rest);
      } else {
        cuts := PhrasesAreASplit(tokens, from, at + 1);
      }
      hide IsSplit;
    }
    hide Phrases;
  }

  lemma {:induction false} NothingJoined(tokens: seq<string>, at: nat)
    requires at <= |tokens|
    ensures Join(tokens[at..at]) == []
  {
  }

  lemma {:induction false} PieceFirst(
    tokens: seq<string>, from: nat, to: nat, piece: string, phrases: seq<string>, cuts: seq<nat>)
    requires IsPiece(tokens, piece, from, to) && IsSplit(tokens, to, phrases, cuts)
    ensures IsSplit(tokens, from, [piece] + phrases, [from] + cuts)
  {
    hide IsPiece;
    hide NeverSpeakable;
    hide Remainder;
    hide Join;
    var all, pieces := [from] + cuts, [piece] + phrases;
    assert all[|all| - 1] == cuts[|cuts| - 1] && pieces[|all| - 1..] == phrases[|cuts| - 1..];
    forall k | 0 <= k < |all| - 1 ensures IsPiece(tokens, pieces[k], all[k], all[k + 1]) {
      if k > 0 {
        assert IsPiece(tokens, phrases[k - 1], cuts[k - 1], cuts[k]);
      }
    }
  }

  lemma {:induction false} WithoutFirst(tokens: seq<string>, from: nat, phrases: seq<string>, cuts: seq<nat>)
    requires IsSplit(tokens, from, phrases, cuts) && |cuts| > 1
    ensures phrases != [] && IsPiece(tokens, phrases[0], from, cuts[1])
    ensures IsSplit(tokens, cuts[1], phrases[1..], cuts[1..])
  {
    hide IsPiece;
    hide NeverSpeakable;
    hide Remainder;
    hide Join;
    assert IsPiece(tokens, phrases[0], cuts[0], cuts[0 + 1]);
    forall k | 0 <= k < |cuts[1..]| - 1 ensures IsPiece(tokens, phrases[1..][k], cuts[1..][k], cuts[1..][k + 1]) {
      assert IsPiece(tokens, phrases[k + 1], cuts[k + 1], cuts[k + 1 + 1]);
    }
    assert phrases[1..][|cuts[1..]| - 1..] == phrases[|cuts| - 1..];
  }

  /** There is one way to cut them so. */
  lemma {:induction false} SplitIsUnique(
    tokens: seq<string>, from: nat, phrases: seq<string>, cuts: seq<nat>, phrases': seq<string>, cuts': seq<nat>)
    requires IsSplit(tokens, from, phrases, cuts) && IsSplit(tokens, from, phrases', cuts')
    ensures phrases == phrases' && cuts == cuts'
    decreases |cuts|
  {
    hide Speakable;
    hide Join;
    hide Remainder;
    if |cuts| == 1 || |cuts'| == 1 {
      if |cuts| > 1 {
        WithoutFirst(tokens, from, phrases, cuts);
        assert false;
      } else if |cuts'| > 1 {
        WithoutFirst(tokens, from, phrases', cuts');
        assert false;
      }
      assert phrases[0..] == phrases && phrases'[0..] == phrases';
    } else {
      WithoutFirst(tokens, from, phrases, cuts);
      WithoutFirst(tokens, from, phrases', cuts');
      assert cuts[1] == cuts'[1];
      SplitIsUnique(tokens, cuts[1], phrases[1..], cuts[1..], phrases'[1..], cuts'[1..]);
      hide IsSplit;
      assert phrases == [phrases[0]] + phrases[1..] && phrases' == [phrases'[0]] + phrases'[1..];
      assert cuts == [cuts[0]] + cuts[1..] && cuts' == [cuts'[0]] + cuts'[1..];
    }
  }

  /**
   * The phrases of a finished response that kept the floor: its tokens, each time cut as soon as there are 120
   * characters or a closing mark that only white space follows, and then the rest unless it is blank.
   */
  lemma {:induction false} PhrasesAreCutInTime(p: Setup, s: State, tasks: seq<Task>) returns (cuts: seq<nat>)
    requires Init(p, s) && Finished(Run(p, s, tasks)) && Run(p, s, tasks).held
    ensures IsSplit(p.tokens, 0, Run(p, s, tasks).phrases, cuts)
  {
    SpokenInPhrases(p, s, tasks);
    cuts := PhrasesAreASplit(p.tokens, 0, 0);
    NothingJoined(p.tokens, 0);
    assert p.tokens[0..] == p.tokens;
    hide *;
  }

  // ------------------------------------------------------------------ two tokens

  lemma {:induction false} TwoTokens(a: string, b: string)
    requires !PhraseReady(a) && PhraseReady(a + b)
    ensures Phrases([], [a, b]) == [a + b]
  {
    hide PhraseReady;
    assert [] + a == a;
    assert [a, b] == [a] + [b] && [b] == [b] + [];
    PhrasesOfOneMore([], a, [b]);
    PhrasesOfOneMore(a, b, []);
    assert Phrases([], []) == [];
  }

  lemma {:induction false} HelIsNotSpeakable()
    ensures !Speakable("Hel")
  {
    assert forall mark :: !EndsSentence("Hel", mark);
  }

  lemma {:induction false} HelloIsSpeakable()
    ensures Speakable("Hello.") && "Hel" + "lo." == "Hello."
  {
    assert EndsSentence("Hello.", 5);
  }

  /** Two tokens of one sentence are spoken as one phrase. */
  lemma {:induction false} HelloIsOnePhrase(p: Setup, s: State, tasks: seq<Task>)
    requires Init(p, s) && Finished(Run(p, s, tasks)) && Run(p, s, tasks).held
    requires p.tokens == ["Hel", "lo."]
    ensures Run(p, s, tasks).phrases == ["Hello."]
  {
    hide *;
    SpokenInPhrases(p, s, tasks);
    ReadyIsSpeakable("Hel");
    ReadyIsSpeakable("Hello.");
    HelIsNotSpeakable();
    HelloIsSpeakable();
    TwoTokens("Hel", "lo.");
  }
}
