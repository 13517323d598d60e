/**
 * One response on its way through the language model, speech and transport tasks. A step is the code one
 * task runs between two awaits; the two queues and the response fence are all the tasks share.
 */
module Pipeline {
  import opened Options
  import opened Flow
  import opened Responses

  type Chunk = seq<bv8>

  datatype TextItem = Text(text: string) | TextEnd
  datatype AudioItem = Audio(number: nat, chunk: Chunk) | AudioEnd

  /** One response: its tokens, what the speech provider makes of a phrase, and the settings. */
  datatype Setup = Setup(
    response: Id, turn: Turn,
    tokens: seq<string>, speech: string -> seq<Chunk>,
    msPerChar: real, msPerByte: real,
    textConfig: Config, audioConfig: Config, cancelOnHardLimit: bool)

  /** A hard-limit callback: its announcement, then the two flushes of the cancellation it may start. */
  datatype Callback = Announce | FlushText(id: Id) | FlushAudio(id: Id)

  datatype Llm =
    | LlmToken(rest: seq<string>)
    | LlmGate(token: string, rest: seq<string>, first: bool)
    | LlmPut(token: string, rest: seq<string>)
    | LlmCall(rest: seq<string>, callback: Callback)
    | LlmEnd
    | LlmDone

  datatype Tts =
    | TtsGet
    | TtsHas(item: TextItem)
    | TtsAudio(rest: seq<Chunk>, last: bool)
    | TtsGate(chunk: Chunk, rest: seq<Chunk>, last: bool, first: bool)
    | TtsPut(chunk: Chunk, rest: seq<Chunk>, last: bool)
    | TtsCall(rest: seq<Chunk>, last: bool, callback: Callback)
    | TtsEnd
    | TtsDone

  datatype Transport = TransportGet | TransportHas(item: AudioItem) | TransportSending | TransportDone

  /** What the rest of the session may do meanwhile. */
  datatype Outside = CancelFromOutside(id: Id) | RestoreFromOutside(id: Id) | PlaybackFinished(id: Id)

  /** What the session has still to do, the cancellation it is in, and whether the response was played, as reported. */
  datatype Session = Session(outside: seq<Outside>, cancelling: Option<Callback>, playbackDone: bool)

  datatype State = State(
    fence: Controller,
    text: Queue<TextItem>, audio: Queue<AudioItem>,
    llm: Llm, tts: Tts, transport: Transport,
    buffer: string, phrases: seq<string>, number: nat, sent: seq<(nat, Chunk)>,
    session: Session,
    /** History: the response was active after every step until its transport task returned. */
    held: bool)

  datatype Task = LlmTask | TtsTask | TransportTask | OutsideTask

  ghost predicate Init(p: Setup, s: State) {
    && p.textConfig.Valid() && p.audioConfig.Valid()
    && Fenced(s.fence) && IsActive(s.fence, p.response, p.turn)
    && s.text == Empty() && s.audio == Empty()
    && s.llm == LlmToken(p.tokens) && s.tts == TtsGet && s.transport == TransportGet
    && s.buffer == [] && s.phrases == [] && s.number == 0 && s.sent == []
    && s.session.cancelling == None && !s.session.playbackDone && s.held
  }

  predicate Stale(p: Setup, s: State) {
    !IsActive(s.fence, p.response, p.turn)
  }

  function TextMs(p: Setup, t: string): real {
    |t| as real * p.msPerChar
  }

  function AudioMs(p: Setup, c: Chunk): real {
    |c| as real * p.msPerByte
  }

  // -------------------------------------------------------- phrase builder

  predicate Blank(c: char) {
    c in " \t\n\r" || var n := c as int;
    || 11 <= n <= 12 || 28 <= n <= 31 || n == 0x85 || n == 0xa0 || n == 0x1680
    || 0x2000 <= n <= 0x200a || 0x2028 <= n <= 0x2029 || n == 0x202f || n == 0x205f || n == 0x3000
  }

  predicate AllBlank(s: string) {
    forall k :: 0 <= k < |s| ==> Blank(s[k])
  }

  function StripRight(s: string): string {
    if s == [] || !Blank(s[|s| - 1]) then s else StripRight(s[..|s| - 1])
  }

  /** A buffered phrase is long enough, or ends a sentence. */
  predicate PhraseReady(buffer: string) {
    var stripped := StripRight(buffer);
    |buffer| >= 120 || (stripped != [] && stripped[|stripped| - 1] in ".?!")
  }

  // ------------------------------------------------------------- callbacks

  function MineText(mine: bool): TextItem -> bool {
    (i: TextItem) => mine && i.Text?
  }

  function MineAudio(mine: bool): AudioItem -> bool {
    (i: AudioItem) => mine && i.Audio?
  }

  /** Marks `id` cancelled and goes on to the flushes, unless that was already done. */
  function BeginCancel(s: State, id: Id): (State, Option<Callback>) {
    if id in s.fence.cancelled || id !in s.fence.turns then (s, None)
    else (s.(fence := CancelResponse(s.fence, id)), Some(FlushText(id)))
  }

  function CallbackStep(p: Setup, s: State, callback: Callback): (State, Option<Callback>) {
    match callback
    case Announce => if s.fence.active == None then (s, None) else BeginCancel(s, s.fence.active.value)
    case FlushText(id) =>
      (s.(text := Flush(p.textConfig, s.text, MineText(id == p.response)).queue), Some(FlushAudio(id)))
    case FlushAudio(id) =>
      (s.(audio := Flush(p.audioConfig, s.audio, MineAudio(id == p.response)).queue), None)
  }

  /** The callback a notice starts: only a hard limit under the cancelling policy does more than report. */
  function CallbackFor(p: Setup, signal: Option<Signal>): Option<Callback> {
    if signal == Some(Hard) && p.cancelOnHardLimit then Some(Announce) else None
  }

  // ------------------------------------------------------------- the tasks

  function LlmNext(rest: seq<string>, callback: Option<Callback>): Llm {
    match callback
    case None => LlmToken(rest)
    case Some(cb) => LlmCall(rest, cb)
  }

  function LlmStep(p: Setup, s: State): State {
    match s.llm
    case LlmToken(rest) =>
      if rest == [] || Stale(p, s) then s.(llm := LlmEnd) else s.(llm := LlmGate(rest[0], rest[1..], true))
    case LlmGate(token, rest, first) =>
      s.(llm := if first then LlmGate(token, rest, false) else LlmPut(token, rest))
    case LlmPut(token, rest) =>
      var o := Append(p.textConfig, s.text, Text(token), TextMs(p, token));
      s.(text := o.queue, llm := LlmNext(rest, CallbackFor(p, o.signal)))
    case LlmCall(rest, callback) =>
      var (s', next) := CallbackStep(p, s, callback);
      s'.(llm := LlmNext(rest, next))
    case LlmEnd =>
      s.(text := Append(p.textConfig, s.text, TextEnd, 0.0).queue, llm := LlmDone)
    case LlmDone => s
  }

  function TtsNext(rest: seq<Chunk>, last: bool, callback: Option<Callback>): Tts {
    match callback
    case None => TtsAudio(rest, last)
    case Some(cb) => TtsCall(rest, last, cb)
  }

  function AfterPhrase(last: bool): Tts {
    if last then TtsEnd else TtsGet
  }

  /** Hands a phrase to the speech provider; a stale response's phrase is dropped. */
  function StartPhrase(p: Setup, s: State, phrase: string, last: bool): State {
    if Stale(p, s) then s.(buffer := [], tts := AfterPhrase(last))
    else s.(buffer := [], phrases := s.phrases + [phrase], tts := TtsAudio(p.speech(phrase), last))
  }

  function TtsStep(p: Setup, s: State): State {
    match s.tts
    case TtsGet =>
      if s.text.items == [] then s
      else s.(tts := TtsHas(s.text.items[0].item), text := Take(p.textConfig, s.text).queue)
    case TtsHas(TextEnd) =>
      if AllBlank(s.buffer) then s.(tts := TtsEnd) else StartPhrase(p, s, s.buffer, true)
    case TtsHas(Text(t)) =>
      if Stale(p, s) then s.(tts := TtsGet)
      else if PhraseReady(s.buffer + t) then StartPhrase(p, s, s.buffer + t, false)
      else s.(buffer := s.buffer + t, tts := TtsGet)
    case TtsAudio(rest, last) =>
      if rest == [] then s.(tts := AfterPhrase(last))
      else if Stale(p, s) then s.(tts := TtsAudio(rest[1..], last))
      else s.(number := s.number + 1, tts := TtsGate(rest[0], rest[1..], last, true))
    case TtsGate(chunk, rest, last, first) =>
      s.(tts := if first then TtsGate(chunk, rest, last, false) else TtsPut(chunk, rest, last))
    case TtsPut(chunk, rest, last) =>
      var o := Append(p.audioConfig, s.audio, Audio(s.number, chunk), AudioMs(p, chunk));
      s.(audio := o.queue, tts := TtsNext(rest, last, CallbackFor(p, o.signal)))
    case TtsCall(rest, last, callback) =>
      var (s', next) := CallbackStep(p, s, callback);
      s'.(tts := TtsNext(rest, last, next))
    case TtsEnd =>
      s.(audio := Append(p.audioConfig, s.audio, AudioEnd, 0.0).queue, tts := TtsDone)
    case TtsDone => s
  }

  /** A response is finished once its transport is complete and its playback done, unless it is cancelled. */
  function FinishIfPlayed(p: Setup, s: State): State {
    if s.transport == TransportDone && s.session.playbackDone && p.response !in s.fence.cancelled then
      s.(fence := FinishResponse(s.fence, p.response))
    else s
  }

  function TransportStep(p: Setup, s: State): State {
    match s.transport
    case TransportGet =>
      if s.audio.items == [] then s
      else s.(transport := TransportHas(s.audio.items[0].item), audio := Take(p.audioConfig, s.audio).queue)
    case TransportHas(AudioEnd) => FinishIfPlayed(p, s.(transport := TransportDone))
    case TransportHas(Audio(n, chunk)) =>
      if Stale(p, s) then s.(transport := TransportGet)
      else s.(sent := s.sent + [(n, chunk)], transport := TransportSending)
    case TransportSending => s.(transport := TransportGet)
    case TransportDone => s
  }

  function InSession(s: State, callback: Option<Callback>): State {
    s.(session := s.session.(cancelling := callback))
  }

  function OutsideStep(p: Setup, s: State): State {
    match s.session.cancelling
    case Some(callback) =>
      var (s', next) := CallbackStep(p, s, callback);
      InSession(s', next)
    case None =>
      if s.session.outside == [] then s
      else
        var s0 := s.(session := s.session.(outside := s.session.outside[1..]));
        match s.session.outside[0]
        case CancelFromOutside(id) => var (s', next) := BeginCancel(s0, id); InSession(s', next)
        case RestoreFromOutside(id) =>
          if id in s.fence.cancelled || id !in s.fence.turns then s0
          else s0.(fence := RestoreResponse(s.fence, id), session := s0.session.(playbackDone := s.session.playbackDone && id != p.response))
        case PlaybackFinished(id) =>
          if id == p.response then FinishIfPlayed(p, s0.(session := s0.session.(playbackDone := true)))
          else if id in s.fence.cancelled then s0
          else s0.(fence := FinishResponse(s.fence, id))
  }

  /** The task is not waiting on a queue and has not returned. */
  predicate Enabled(p: Setup, s: State, t: Task) {
    match t
    case LlmTask =>
      (match s.llm
       case LlmGate(_, _, _) => GateOpen(s.text)
       case LlmPut(_, _) => CanAppend(p.textConfig, s.text)
       case LlmEnd => CanAppend(p.textConfig, s.text)
       case LlmDone => false
       case _ => true)
    case TtsTask =>
      (match s.tts
       case TtsGet => CanGet(s.text)
       case TtsGate(_, _, _, _) => GateOpen(s.audio)
       case TtsPut(_, _, _) => CanAppend(p.audioConfig, s.audio)
       case TtsEnd => CanAppend(p.audioConfig, s.audio)
       case TtsDone => false
       case _ => true)
    case TransportTask =>
      (match s.transport
       case TransportGet => CanGet(s.audio)
       case TransportDone => false
       case _ => true)
    case OutsideTask => s.session.cancelling.Some? || s.session.outside != []
  }

  function TaskStep(p: Setup, s: State, t: Task): State {
    match t
    case LlmTask => LlmStep(p, s)
    case TtsTask => TtsStep(p, s)
    case TransportTask => TransportStep(p, s)
    case OutsideTask => OutsideStep(p, s)
  }

  predicate KeepsFloor(p: Setup, s: State) {
    !Stale(p, s) || s.transport == TransportDone
  }

  /** One step of task `t`; a task that is waiting stays where it is. */
  function Next(p: Setup, s: State, t: Task): State {
    if !Enabled(p, s, t) then s
    else
      var s' := TaskStep(p, s, t);
      s'.(held := s.held && KeepsFloor(p, s'))
  }

  function Run(p: Setup, s: State, tasks: seq<Task>): State {
    if tasks == [] then s else Next(p, Run(p, s, tasks[..|tasks| - 1]), tasks[|tasks| - 1])
  }

  predicate Finished(s: State) {
    s.llm == LlmDone && s.tts == TtsDone && s.transport == TransportDone
  }
}
