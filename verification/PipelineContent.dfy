/** What a response that keeps the floor sounds like: every token, in order, and every chunk, once, numbered. */
module PipelineContent {
  import opened Flow
  import opened Pipeline
  import opened PipelineSafety
  import opened PipelineDrain

  function Join(strings: seq<string>): string {
    if strings == [] then [] else strings[0] + Join(strings[1..])
  }

  lemma {:induction false} JoinAppend(strings: seq<string>, s: string)
    ensures Join(strings + [s]) == Join(strings) + s
  {
    if strings == [] {
      assert Join([s]) == s + Join([]);
    } else {
      assert (strings + [s])[1..] == strings[1..] + [s];
      JoinAppend(strings[1..], s);
    }
  }

  function Words(i: TextItem): string {
    if i.Text? then i.text else []
  }

  function TextOf(items: seq<TextItem>): string {
    if items == [] then [] else Words(items[0]) + TextOf(items[1..])
  }

  lemma {:induction false} TextOfAppend(items: seq<TextItem>, i: TextItem)
    ensures TextOf(items + [i]) == TextOf(items) + Words(i)
  {
    if items == [] {
      assert TextOf([i]) == Words(i) + TextOf([]);
    } else {
      assert (items + [i])[1..] == items[1..] + [i];
      TextOfAppend(items[1..], i);
      assert Words(items[0]) + (TextOf(items[1..]) + Words(i)) == Words(items[0]) + TextOf(items[1..]) + Words(i);
    }
  }

  function Sound(i: AudioItem): seq<(nat, Chunk)> {
    if i.Audio? then [(i.number, i.chunk)] else []
  }

  function AudioOf(items: seq<AudioItem>): seq<(nat, Chunk)> {
    if items == [] then [] else Sound(items[0]) + AudioOf(items[1..])
  }

  lemma {:induction false} AudioOfAppend(items: seq<AudioItem>, i: AudioItem)
    ensures AudioOf(items + [i]) == AudioOf(items) + Sound(i)
  {
    if items == [] {
      assert AudioOf([i]) == Sound(i) + AudioOf([]);
    } else {
      assert (items + [i])[1..] == items[1..] + [i];
      AudioOfAppend(items[1..], i);
      assert Sound(items[0]) + (AudioOf(items[1..]) + Sound(i)) == Sound(items[0]) + AudioOf(items[1..]) + Sound(i);
    }
  }

  /** What the language model has still to put. */
  function Unput(llm: Llm): string {
    match llm
    case LlmToken(rest) => Join(rest)
    case LlmGate(token, rest, _) => token + Join(rest)
    case LlmPut(token, rest) => token + Join(rest)
    case LlmCall(rest, _) => Join(rest)
    case LlmEnd => []
    case LlmDone => []
  }

  /** The text side of a state: what was spoken, buffered, is in flight (the held item first), and is to come. */
  datatype TextView = TextView(phrases: seq<string>, buffer: string, flight: seq<TextItem>, unput: string)

  function TextSide(s: State): TextView {
    TextView(s.phrases, s.buffer, (if s.tts.TtsHas? then [s.tts.item] else []) + Items(s.text.items), Unput(s.llm))
  }

  /** Tokens are spoken, buffered, in flight or still to come, in that order. */
  ghost predicate TextConserved(tokens: seq<string>, v: TextView) {
    Join(tokens) == Join(v.phrases) + v.buffer + TextOf(v.flight) + v.unput
  }

  function AllSpeech(p: Setup, phrases: seq<string>): seq<Chunk> {
    if phrases == [] then [] else AllSpeech(p, phrases[..|phrases| - 1]) + p.speech(phrases[|phrases| - 1])
  }

  /** The chunks of the phrase in progress that are not yet in the audio queue. */
  function Unqueued(tts: Tts): seq<Chunk> {
    match tts
    case TtsAudio(rest, _) => rest
    case TtsGate(chunk, rest, _, _) => [chunk] + rest
    case TtsPut(chunk, rest, _) => [chunk] + rest
    case TtsCall(rest, _, _) => rest
    case _ => []
  }

  /** The sequence number of the last chunk put in the audio queue. */
  function Queued(s: State): int {
    if s.tts.TtsGate? || s.tts.TtsPut? then s.number - 1 else s.number
  }

  /** The audio side of a state. */
  datatype AudioView = AudioView(
    phrases: seq<string>, unqueued: seq<Chunk>, queued: int, flight: seq<AudioItem>, sent: seq<(nat, Chunk)>)

  function AudioSide(s: State): AudioView {
    AudioView(s.phrases, Unqueued(s.tts), Queued(s),
              (if s.transport.TransportHas? then [s.transport.item] else []) + Items(s.audio.items), s.sent)
  }

  function Chunks(out: seq<(nat, Chunk)>): seq<Chunk> {
    seq(|out|, k requires 0 <= k < |out| => out[k].1)
  }

  ghost predicate Numbered(out: seq<(nat, Chunk)>) {
    forall k :: 0 <= k < |out| ==> out[k].0 == k + 1
  }

  /** Every chunk of every phrase is sent, in flight or still to be queued, in order; those put are numbered. */
  ghost predicate AudioConserved(p: Setup, v: AudioView) {
    var out := v.sent + AudioOf(v.flight);
    && AllSpeech(p, v.phrases) == Chunks(out) + v.unqueued
    && Numbered(out) && v.queued == |out|
  }

  /** The speech task has dealt with the text end marker. */
  predicate Flushing(tts: Tts) {
    TtsPastEnd(tts) && !tts.TtsHas?
  }

  /** Every phrase was ready, but for a last one cut short by the end of the text. */
  ghost predicate PhrasesReady(s: State) {
    && (forall k :: 0 <= k < |s.phrases| ==> PhraseReady(s.phrases[k]) || (k == |s.phrases| - 1 && Flushing(s.tts)))
    && (Flushing(s.tts) ==> AllBlank(s.buffer))
  }

  ghost predicate Marked(s: State, callback: Callback) {
    match callback
    case Announce => true
    case FlushText(id) => id in s.fence.cancelled
    case FlushAudio(id) => id in s.fence.cancelled
  }

  /** A flush is under way only for a response that is already marked cancelled. */
  ghost predicate CallbacksMarked(s: State) {
    && (s.llm.LlmCall? ==> Marked(s, s.llm.callback))
    && (s.tts.TtsCall? ==> Marked(s, s.tts.callback))
    && (s.session.cancelling.Some? ==> Marked(s, s.session.cancelling.value))
  }

  ghost predicate SidesConserved(p: Setup, s: State) {
    PhrasesReady(s) && TextConserved(p.tokens, TextSide(s)) && AudioConserved(p, AudioSide(s))
  }

  ghost predicate Faithful(p: Setup, s: State) {
    && CallbacksMarked(s)
    && (s.held ==> KeepsFloor(p, s) && SidesConserved(p, s))
  }

  // ------------------------------------------------------------------- moves

  /** The ways a step may move text: nowhere, into the queue, or out of flight into the buffer or a phrase. */
  ghost predicate TextMove(v: TextView, v': TextView) {
    || v' == v
    || (&& |v'.flight| == |v.flight| + 1 && v'.flight[..|v.flight|] == v.flight
        && v.unput == Words(v'.flight[|v.flight|]) + v'.unput
        && v'.phrases == v.phrases && v'.buffer == v.buffer)
    || (&& v.flight != [] && v'.flight == v.flight[1..] && v'.unput == v.unput
        && Join(v'.phrases) + v'.buffer == Join(v.phrases) + v.buffer + Words(v.flight[0]))
  }

  lemma {:induction false} TextMoveConserves(tokens: seq<string>, v: TextView, v': TextView)
    requires TextMove(v, v') && TextConserved(tokens, v)
    ensures TextConserved(tokens, v')
  {
    hide Join;
    hide Words;
    var done := Join(v.phrases) + v.buffer;
    if |v'.flight| > |v.flight| {
      var i := v'.flight[|v.flight|];
      assert v'.flight == v.flight + [i];
      TextOfAppend(v.flight, i);
      assert done + TextOf(v.flight) + (Words(i) + v'.unput) == done + (TextOf(v.flight) + Words(i)) + v'.unput;
    } else if v' != v {
      var w := Words(v.flight[0]);
      assert done + (w + TextOf(v'.flight)) + v.unput == done + w + TextOf(v'.flight) + v.unput;
    }
  }

  /** A new phrase is handed to the provider. */
  ghost predicate PhraseMove(p: Setup, v: AudioView, v': AudioView) {
    && |v'.phrases| == |v.phrases| + 1 && v'.phrases[..|v.phrases|] == v.phrases
    && v.unqueued == [] && v'.unqueued == p.speech(v'.phrases[|v.phrases|])
    && v'.queued == v.queued && v'.flight == v.flight && v'.sent == v.sent
  }

  /** A chunk is put in the queue under the next number. */
  ghost predicate ChunkMove(v: AudioView, v': AudioView) {
    && v.unqueued != [] && v'.unqueued == v.unqueued[1..] && v'.queued == v.queued + 1 > 0
    && v'.flight == v.flight + [Audio(v'.queued, v.unqueued[0])]
    && v'.phrases == v.phrases && v'.sent == v.sent
  }

  /** An end marker goes in, or an item goes out and, if it is a chunk, is sent. */
  ghost predicate FlightMove(v: AudioView, v': AudioView) {
    && v'.phrases == v.phrases && v'.unqueued == v.unqueued && v'.queued == v.queued
    && (|| (v'.flight == v.flight + [AudioEnd] && v'.sent == v.sent)
        || (v.flight != [] && v'.flight == v.flight[1..] && v'.sent == v.sent + Sound(v.flight[0])))
  }

  /** The ways a step may move audio. */
  ghost predicate AudioMove(p: Setup, v: AudioView, v': AudioView) {
    v' == v || PhraseMove(p, v, v') || ChunkMove(v, v') || FlightMove(v, v')
  }

  lemma {:induction false} PhraseMoveConserves(p: Setup, v: AudioView, v': AudioView)
    requires PhraseMove(p, v, v') && AudioConserved(p, v)
    ensures AudioConserved(p, v')
  {
  }

  lemma {:induction false} ChunkMoveConserves(p: Setup, v: AudioView, v': AudioView)
    requires ChunkMove(v, v') && AudioConserved(p, v)
    ensures AudioConserved(p, v')
  {
    var out, out' := v.sent + AudioOf(v.flight), v'.sent + AudioOf(v'.flight);
    var i := Audio(v'.queued, v.unqueued[0]);
    AudioOfAppend(v.flight, i);
    assert out' == out + [(i.number, i.chunk)];
    assert Chunks(out') == Chunks(out) + [i.chunk];
    assert v.unqueued == [i.chunk] + v'.unqueued;
    assert Chunks(out) + ([i.chunk] + v'.unqueued) == Chunks(out) + [i.chunk] + v'.unqueued;
  }

  lemma {:induction false} FlightMoveConserves(p: Setup, v: AudioView, v': AudioView)
    requires FlightMove(v, v') && AudioConserved(p, v)
    ensures AudioConserved(p, v')
  {
    AudioOfAppend(v.flight, AudioEnd);
    assert v'.sent + AudioOf(v'.flight) == v.sent + AudioOf(v.flight);
  }

  lemma {:induction false} AudioMoveConserves(p: Setup, v: AudioView, v': AudioView)
    requires AudioMove(p, v, v') && AudioConserved(p, v)
    ensures AudioConserved(p, v')
  {
    if PhraseMove(p, v, v') {
      PhraseMoveConserves(p, v, v');
    } else if ChunkMove(v, v') {
      ChunkMoveConserves(p, v, v');
    } else if v' != v {
      FlightMoveConserves(p, v, v');
    }
  }

  // --------------------------------------------------------------- callbacks

  lemma {:induction false} SparesAll<T>(entries: seq<Entry<T>>, drop: T -> bool)
    requires forall i :: !drop(i)
    ensures Kept(entries, drop) == entries
  {
    if entries != [] {
      SparesAll(entries[..|entries| - 1], drop);
    }
  }

  /** While the response keeps the floor a callback step changes no queued item, or takes the floor away. */
  lemma {:induction false} CallbackSpares(p: Setup, s: State, callback: Callback)
    requires Marked(s, callback)
    ensures var (s', next) := CallbackStep(p, s, callback);
      && s.fence.cancelled <= s'.fence.cancelled
      && (next.Some? ==> Marked(s', next.value))
      && s' == s.(fence := s'.fence, text := s'.text, audio := s'.audio)
      && (!Stale(p, s') ==> s'.text.items == s.text.items && s'.audio.items == s.audio.items)
  {
    hide Kept;
    CallbackFrame(p, s, callback);
    if callback.FlushText? {
      SparesAll(s.text.items, MineText(false));
    } else if callback.FlushAudio? {
      SparesAll(s.audio.items, MineAudio(false));
    }
  }

  // ------------------------------------------------------ the tasks' moves

  ghost predicate Taking(s: State) {
    !s.text.closed && !s.text.cancelled && !s.audio.closed && !s.audio.cancelled
  }

  lemma {:induction false} Puts<T>(c: Config, q: Queue<T>, item: T, weight: real)
    requires !q.closed && !q.cancelled
    ensures Items(Append(c, q, item, weight).queue.items) == Items(q.items) + [item]
  {
  }

  lemma {:induction false} Takes<T>(c: Config, q: Queue<T>)
    requires q.items != []
    ensures [q.items[0].item] + Items(Take(c, q).queue.items) == Items(q.items)
  {
  }

  lemma {:induction false} LlmPutsItem(p: Setup, s: State, item: TextItem)
    requires Taking(s) && (s.llm.LlmEnd? || s.llm.LlmPut?)
    requires item == if s.llm.LlmPut? then Text(s.llm.token) else TextEnd
    ensures TextMove(TextSide(s), TextSide(LlmStep(p, s)))
  {
    var v, v' := TextSide(s), TextSide(LlmStep(p, s));
    Puts(p.textConfig, s.text, item, if s.llm.LlmPut? then TextMs(p, s.llm.token) else 0.0);
    assert v'.flight == v.flight + [item];
    assert v.unput == Words(item) + v'.unput;
  }

  lemma {:induction false} LlmMoves(p: Setup, s: State)
    requires Taking(s) && CallbacksMarked(s) && !Stale(p, s)
    ensures !Stale(p, LlmStep(p, s)) ==> TextMove(TextSide(s), TextSide(LlmStep(p, s)))
  {
    match s.llm
    case LlmPut(token, rest) => LlmPutsItem(p, s, Text(token));
    case LlmEnd => LlmPutsItem(p, s, TextEnd);
    case LlmCall(rest, callback) => CallbackSpares(p, s, callback);
    case _ => assert TextSide(LlmStep(p, s)) == TextSide(s);
  }

  lemma {:induction false} LlmLeavesAudio(p: Setup, s: State)
    requires CallbacksMarked(s)
    ensures !Stale(p, LlmStep(p, s)) ==> AudioSide(LlmStep(p, s)) == AudioSide(s)
    ensures LlmStep(p, s).phrases == s.phrases && LlmStep(p, s).tts == s.tts && LlmStep(p, s).buffer == s.buffer
  {
    if s.llm.LlmCall? {
      CallbackSpares(p, s, s.llm.callback);
    }
  }

  lemma {:induction false} TtsQueueMoves(p: Setup, s: State)
    requires CallbacksMarked(s) && !s.tts.TtsHas?
    ensures !Stale(p, TtsStep(p, s)) ==> TextSide(TtsStep(p, s)) == TextSide(s)
    ensures TtsStep(p, s).phrases == s.phrases && TtsStep(p, s).buffer == s.buffer
    ensures Flushing(TtsStep(p, s).tts) == Flushing(s.tts)
  {
    match s.tts
    case TtsGet => if s.text.items != [] { Takes(p.textConfig, s.text); }
    case TtsCall(rest, last, callback) => CallbackSpares(p, s, callback);
    case _ =>
  }

  lemma {:induction false} TtsPutMoves(p: Setup, s: State)
    requires Taking(s) && s.tts.TtsPut? && s.number > 0
    ensures ChunkMove(AudioSide(s), AudioSide(TtsStep(p, s)))
  {
    var s' := TtsStep(p, s);
    var v, v' := AudioSide(s), AudioSide(s');
    var item := Audio(s.number, s.tts.chunk);
    Puts(p.audioConfig, s.audio, item, AudioMs(p, s.tts.chunk));
    assert v.unqueued == [s.tts.chunk] + s.tts.rest;
    assert Unqueued(s'.tts) == s.tts.rest && Queued(s') == s.number;
    assert v'.flight == v.flight + [item];
  }

  lemma {:induction false} TtsQueueMovesAudio(p: Setup, s: State)
    requires Taking(s) && CallbacksMarked(s) && !Stale(p, s)
    requires !s.tts.TtsHas? && Queued(s) >= 0
    ensures !Stale(p, TtsStep(p, s)) ==> AudioMove(p, AudioSide(s), AudioSide(TtsStep(p, s)))
  {
    var v, v' := AudioSide(s), AudioSide(TtsStep(p, s));
    match s.tts
    case TtsPut(chunk, rest, last) => TtsPutMoves(p, s);
    case TtsEnd =>
      Puts(p.audioConfig, s.audio, AudioEnd, 0.0);
      assert v'.flight == v.flight + [AudioEnd];
    case TtsCall(rest, last, callback) => CallbackSpares(p, s, callback);
    case TtsAudio(rest, last) => assert rest != [] ==> [rest[0]] + rest[1..] == rest;
    case _ =>
  }

  lemma {:induction false} TtsTakesText(p: Setup, s: State)
    requires !Stale(p, s) && s.tts.TtsHas?
    ensures TextMove(TextSide(s), TextSide(TtsStep(p, s)))
  {
    var v, v' := TextSide(s), TextSide(TtsStep(p, s));
    var grown := s.buffer + Words(s.tts.item);
    assert v.flight[0] == s.tts.item && v'.flight == v.flight[1..];
    assert Join(v.phrases) + grown == Join(v.phrases) + s.buffer + Words(s.tts.item);
    assert s.tts.item.TextEnd? ==> grown == s.buffer;
    if v'.phrases != v.phrases {
      assert v'.phrases == v.phrases + [grown] && v'.buffer == [];
      JoinAppend(v.phrases, grown);
      assert Join(v'.phrases) + [] == Join(v'.phrases);
    } else {
      assert v'.buffer == grown;
    }
  }

  lemma {:induction false} TtsTakesPhrase(p: Setup, s: State)
    requires !Stale(p, s) && s.tts.TtsHas? && PhrasesReady(s)
    ensures PhrasesReady(TtsStep(p, s))
  {
    var s' := TtsStep(p, s);
    assert s'.phrases == s.phrases || s'.phrases == s.phrases + [s'.phrases[|s.phrases|]];
  }

  lemma {:induction false} TtsTakesAudio(p: Setup, s: State)
    requires !Stale(p, s) && s.tts.TtsHas?
    ensures AudioMove(p, AudioSide(s), AudioSide(TtsStep(p, s)))
  {
    var s' := TtsStep(p, s);
    if s'.phrases != s.phrases {
      assert PhraseMove(p, AudioSide(s), AudioSide(s'));
    }
  }

  lemma {:induction false} TransportMoves(p: Setup, s: State)
    requires !Stale(p, s)
    ensures AudioMove(p, AudioSide(s), AudioSide(TransportStep(p, s)))
  {
    var v, v' := AudioSide(s), AudioSide(TransportStep(p, s));
    match s.transport
    case TransportGet => if s.audio.items != [] { Takes(p.audioConfig, s.audio); }
    case TransportHas(item) =>
      assert v.flight[0] == item && v'.flight == v.flight[1..];
      assert v'.sent == v.sent + Sound(item);
    case _ =>
  }

  lemma {:induction false} TransportLeavesText(p: Setup, s: State)
    ensures var s' := TransportStep(p, s);
      TextSide(s') == TextSide(s) && s'.phrases == s.phrases && s'.tts == s.tts && s'.buffer == s.buffer
  {
  }

  lemma {:induction false} OutsideMoves(p: Setup, s: State)
    requires CallbacksMarked(s)
    ensures var s' := OutsideStep(p, s);
      !Stale(p, s') ==> TextSide(s') == TextSide(s) && AudioSide(s') == AudioSide(s)
    ensures PhrasesReady(s) ==> PhrasesReady(OutsideStep(p, s))
  {
    if s.session.cancelling.Some? {
      CallbackSpares(p, s, s.session.cancelling.value);
    } else {
      OutsideTouchesTheFence(p, s);
    }
  }

  /** Only a step of the task itself changes its callback, and only the fence can unmark one: it never does. */
  lemma {:induction false} NextMarks(p: Setup, s: State, t: Task)
    requires CallbacksMarked(s)
    ensures CallbacksMarked(Next(p, s, t))
  {
    if Enabled(p, s, t) {
      match t
      case LlmTask => LlmMarks(p, s);
      case TtsTask => TtsMarks(p, s);
      case TransportTask =>
      case OutsideTask => OutsideMarks(p, s);
    }
  }

  lemma {:induction false} LlmMarks(p: Setup, s: State)
    requires CallbacksMarked(s)
    ensures CallbacksMarked(LlmStep(p, s))
  {
    if s.llm.LlmCall? {
      CallbackSpares(p, s, s.llm.callback);
    }
  }

  lemma {:induction false} TtsMarks(p: Setup, s: State)
    requires CallbacksMarked(s)
    ensures CallbacksMarked(TtsStep(p, s))
  {
    if s.tts.TtsCall? {
      CallbackSpares(p, s, s.tts.callback);
    } else {
      assert TtsStep(p, s).fence == s.fence && TtsStep(p, s).llm == s.llm;
    }
  }

  lemma {:induction false} OutsideMarks(p: Setup, s: State)
    requires CallbacksMarked(s)
    ensures CallbacksMarked(OutsideStep(p, s))
  {
    if s.session.cancelling.Some? {
      CallbackSpares(p, s, s.session.cancelling.value);
    } else {
      OutsideTouchesTheFence(p, s);
    }
  }

  lemma {:induction false} TtsIsFaithful(p: Setup, s: State)
    requires Taking(s) && Faithful(p, s) && s.held && !Stale(p, s) && !Stale(p, TtsStep(p, s))
    ensures SidesConserved(p, TtsStep(p, s))
  {
    var s' := TtsStep(p, s);
    if s.tts.TtsHas? {
      TtsTakesText(p, s);
      TtsTakesPhrase(p, s);
      TtsTakesAudio(p, s);
    } else {
      TtsQueueMoves(p, s);
      TtsQueueMovesAudio(p, s);
    }
    TextMoveConserves(p.tokens, TextSide(s), TextSide(s'));
    AudioMoveConserves(p, AudioSide(s), AudioSide(s'));
  }

  lemma {:induction false} LlmIsFaithful(p: Setup, s: State)
    requires Taking(s) && Faithful(p, s) && s.held && !Stale(p, s) && !Stale(p, LlmStep(p, s))
    ensures SidesConserved(p, LlmStep(p, s))
  {
    LlmMoves(p, s);
    LlmLeavesAudio(p, s);
    TextMoveConserves(p.tokens, TextSide(s), TextSide(LlmStep(p, s)));
  }

  lemma {:induction false} TransportIsFaithful(p: Setup, s: State)
    requires Faithful(p, s) && s.held && !Stale(p, s)
    ensures SidesConserved(p, TransportStep(p, s))
  {
    hide Take;
    hide FinishIfPlayed;
    hide AudioConserved;
    hide TextConserved;
    TransportLeavesText(p, s);
    TransportMoves(p, s);
    AudioMoveConserves(p, AudioSide(s), AudioSide(TransportStep(p, s)));
  }

  lemma {:induction false} OutsideIsFaithful(p: Setup, s: State)
    requires Faithful(p, s) && s.held && !Stale(p, OutsideStep(p, s))
    ensures SidesConserved(p, OutsideStep(p, s))
  {
    OutsideMoves(p, s);
  }

  /** Once the transport has returned there is nothing left to move. */
  lemma {:induction false} NothingLeftToMove(p: Setup, s: State, t: Task)
    requires Safe(p, s) && CallbacksMarked(s) && s.transport == TransportDone && Enabled(p, s, t)
    ensures t == OutsideTask && TextSide(OutsideStep(p, s)) == TextSide(s) && AudioSide(OutsideStep(p, s)) == AudioSide(s)
    ensures PhrasesReady(s) ==> PhrasesReady(OutsideStep(p, s))
  {
    if s.session.cancelling.Some? {
      CallbackWorks(p, s, s.session.cancelling.value);
    } else {
      OutsideTouchesTheFence(p, s);
    }
  }

  lemma {:induction false} StepIsFaithful(p: Setup, s: State, t: Task)
    requires Safe(p, s) && Faithful(p, s) && s.held && Enabled(p, s, t) && KeepsFloor(p, TaskStep(p, s, t))
    ensures SidesConserved(p, TaskStep(p, s, t))
  {
    if s.transport == TransportDone {
      NothingLeftToMove(p, s, t);
    } else if t == TransportTask {
      TransportIsFaithful(p, s);
    } else {
      OthersLeaveTheTransport(p, s, t);
      HeldStepIsFaithful(p, s, t);
    }
  }

  lemma {:induction false} OthersLeaveTheTransport(p: Setup, s: State, t: Task)
    requires t != TransportTask && s.transport != TransportDone
    ensures TaskStep(p, s, t).transport != TransportDone
  {
    hide Append;
    hide Take;
    hide CallbackStep;
    hide PhraseReady;
    hide AllBlank;
    match t
    case LlmTask => if s.llm.LlmCall? { CallbackFrame(p, s, s.llm.callback); }
    case TtsTask => if s.tts.TtsCall? { CallbackFrame(p, s, s.tts.callback); }
    case OutsideTask => if s.session.cancelling.Some? { CallbackFrame(p, s, s.session.cancelling.value); }
  }

  lemma {:induction false} HeldStepIsFaithful(p: Setup, s: State, t: Task)
    requires Taking(s) && Faithful(p, s) && s.held && !Stale(p, s) && !Stale(p, TaskStep(p, s, t))
    ensures SidesConserved(p, TaskStep(p, s, t))
  {
    match t
    case LlmTask => LlmIsFaithful(p, s);
    case TtsTask => TtsIsFaithful(p, s);
    case TransportTask => TransportIsFaithful(p, s);
    case OutsideTask => OutsideIsFaithful(p, s);
  }

  lemma {:induction false} NextIsFaithful(p: Setup, s: State, t: Task)
    requires Safe(p, s) && Faithful(p, s)
    ensures Faithful(p, Next(p, s, t))
  {
    NextMarks(p, s, t);
    var s' := TaskStep(p, s, t);
    if Enabled(p, s, t) && s.held && KeepsFloor(p, s') {
      StepIsFaithful(p, s, t);
      assert TextSide(Next(p, s, t)) == TextSide(s') && AudioSide(Next(p, s, t)) == AudioSide(s');
    }
  }

  lemma {:induction false} RunIsFaithful(p: Setup, s: State, tasks: seq<Task>)
    requires Init(p, s)
    ensures Faithful(p, Run(p, s, tasks))
  {
    if tasks == [] {
      assert TextSide(s).flight == [] && AudioSide(s).flight == [];
    } else {
      RunIsFaithful(p, s, tasks[..|tasks| - 1]);
      RunIsSafe(p, s, tasks[..|tasks| - 1]);
      NextIsFaithful(p, Run(p, s, tasks[..|tasks| - 1]), tasks[|tasks| - 1]);
    }
  }

  /**
   * A finished response that kept the floor until its transport returned: its phrases are its tokens, but for a blank rest; only
   * the last phrase may be short of a sentence; and the chunks sent are all their speech, numbered 1..n.
   */
  lemma {:induction false} EveryWordIsSpoken(p: Setup, s: State, tasks: seq<Task>)
    requires Init(p, s)
    requires Finished(Run(p, s, tasks)) && Run(p, s, tasks).held
    ensures var end := Run(p, s, tasks);
      && Join(p.tokens) == Join(end.phrases) + end.buffer && AllBlank(end.buffer)
      && (forall k :: 0 <= k < |end.phrases| - 1 ==> PhraseReady(end.phrases[k]))
      && Chunks(end.sent) == AllSpeech(p, end.phrases) && Numbered(end.sent)
  {
    RunIsSafe(p, s, tasks);
    RunIsFaithful(p, s, tasks);
    var end := Run(p, s, tasks);
    assert TextSide(end).flight == [] && AudioSide(end).flight == [];
    assert end.sent + [] == end.sent;
  }
}
