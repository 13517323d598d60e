/** What a cancellation stops: nothing more is produced, and what was queued is flushed, whichever task it interrupts. */
module PipelineCancel {
  import opened Options
  import opened Flow
  import opened Responses
  import opened Pipeline
  import opened PipelineSafety

  // ------------------------------------------------------- nothing more is made

  /** The tokens the language model has not taken yet; none once it stops. */
  function Untaken(llm: Llm): seq<string> {
    match llm
    case LlmToken(rest) => rest
    case LlmGate(_, rest, _) => rest
    case LlmPut(_, rest) => rest
    case LlmCall(rest, _) => rest
    case _ => []
  }

  predicate Stopped(llm: Llm) {
    llm.LlmEnd? || llm.LlmDone?
  }

  /** No token was taken, no phrase started or made longer, and no chunk numbered. */
  ghost predicate Idle(now: State, later: State) {
    && (Stopped(later.llm) || (!Stopped(now.llm) && Untaken(later.llm) == Untaken(now.llm)))
    && later.phrases == now.phrases && later.number == now.number && later.buffer in {now.buffer, []}
  }

  lemma {:induction false} StepIsIdle(p: Setup, s: State, t: Task)
    requires !IsActive(s.fence, p.response, p.turn)
    ensures Idle(s, Next(p, s, t)) && Next(p, s, t).sent == s.sent
  {
    hide CallbackStep;
    hide Append;
    hide Take;
    hide PhraseReady;
    hide AllBlank;
    hide IsActive;
    match t
    case LlmTask => if s.llm.LlmCall? { CallbackFrame(p, s, s.llm.callback); }
    case TtsTask => if s.tts.TtsCall? { CallbackFrame(p, s, s.tts.callback); }
    case TransportTask =>
    case OutsideTask => if s.session.cancelling.Some? { CallbackFrame(p, s, s.session.cancelling.value); }
  }

  /** The response is without the floor all through the further steps. */
  ghost predicate Without(p: Setup, s: State, tasks: seq<Task>, more: seq<Task>) {
    forall i :: 0 <= i < |more| ==> !IsActive(Run(p, s, tasks + more[..i]).fence, p.response, p.turn)
  }

  /** For as long as a response is without the floor, no task makes anything of it and nothing of it is sent. */
  lemma {:induction false} WithoutTheFloorIsIdle(p: Setup, s: State, tasks: seq<Task>, more: seq<Task>)
    requires Without(p, s, tasks, more)
    ensures Idle(Run(p, s, tasks), Run(p, s, tasks + more)) && Run(p, s, tasks + more).sent == Run(p, s, tasks).sent
  {
    hide Next;
    hide IsActive;
    if more == [] {
      assert tasks + more == tasks;
    } else {
      var front, t := more[..|more| - 1], more[|more| - 1];
      assert (tasks + more)[..|tasks + more| - 1] == tasks + front;
      assert forall i :: 0 <= i <= |front| ==> front[..i] == more[..i];
      WithoutTheFloorIsIdle(p, s, tasks, front);
      StepIsIdle(p, Run(p, s, tasks + front), t);
    }
  }

  /** Once the response is cancelled, no task makes anything more of it, whatever runs and in whatever order. */
  lemma {:induction false} CancelledIsIdle(p: Setup, s: State, tasks: seq<Task>, more: seq<Task>)
    requires p.response in Run(p, s, tasks).fence.cancelled
    ensures Idle(Run(p, s, tasks), Run(p, s, tasks + more))
  {
    forall i | 0 <= i < |more| ensures !IsActive(Run(p, s, tasks + more[..i]).fence, p.response, p.turn) {
      CancelledSendsNothing(p, s, tasks, more[..i]);
    }
    hide Run;
    WithoutTheFloorIsIdle(p, s, tasks, more);
  }

  // --------------------------------------------------- what was queued is flushed

  function Texts(items: seq<Entry<TextItem>>): nat {
    if items == [] then 0 else Texts(items[..|items| - 1]) + (if items[|items| - 1].item.Text? then 1 else 0)
  }

  function Chunks(items: seq<Entry<AudioItem>>): nat {
    if items == [] then 0 else Chunks(items[..|items| - 1]) + (if items[|items| - 1].item.Audio? then 1 else 0)
  }

  /** A token, or a chunk, that passed its check and is on its way into the queue. */
  function TextInHand(llm: Llm): nat {
    if llm.LlmGate? || llm.LlmPut? then 1 else 0
  }

  function ChunkInHand(tts: Tts): nat {
    if tts.TtsGate? || tts.TtsPut? then 1 else 0
  }

  /** One of the tasks has still to run this callback. */
  predicate Pending(s: State, callback: Callback) {
    || (s.llm.LlmCall? && s.llm.callback == callback)
    || (s.tts.TtsCall? && s.tts.callback == callback)
    || s.session.cancelling == Some(callback)
  }

  /** Of a cancelled response, whose flushes are done, only what was already in hand can be in a queue. */
  ghost predicate CutOff(p: Setup, s: State) {
    p.response in s.fence.cancelled && !Pending(s, FlushText(p.response)) ==>
      && Texts(s.text.items) + TextInHand(s.llm) <= 1
      && (!Pending(s, FlushAudio(p.response)) ==> Chunks(s.audio.items) + ChunkInHand(s.tts) <= 1)
  }

  lemma {:induction false} TextsSnoc(items: seq<Entry<TextItem>>, e: Entry<TextItem>)
    ensures Texts(items + [e]) == Texts(items) + (if e.item.Text? then 1 else 0)
  {
    assert (items + [e])[..|items|] == items;
  }

  lemma {:induction false} ChunksSnoc(items: seq<Entry<AudioItem>>, e: Entry<AudioItem>)
    ensures Chunks(items + [e]) == Chunks(items) + (if e.item.Audio? then 1 else 0)
  {
    assert (items + [e])[..|items|] == items;
  }

  lemma {:induction false} FewerTexts(items: seq<Entry<TextItem>>)
    requires items != []
    ensures Texts(items[1..]) <= Texts(items)
  {
    if |items| > 1 {
      FewerTexts(items[..|items| - 1]);
      assert items[1..][..|items| - 2] == items[..|items| - 1][1..];
    }
  }

  lemma {:induction false} FewerChunks(items: seq<Entry<AudioItem>>)
    requires items != []
    ensures Chunks(items[1..]) <= Chunks(items)
  {
    if |items| > 1 {
      FewerChunks(items[..|items| - 1]);
      assert items[1..][..|items| - 2] == items[..|items| - 1][1..];
    }
  }

  /** A flush of the response leaves none of its items; one of another response leaves them all. */
  lemma {:induction false} KeptTexts(items: seq<Entry<TextItem>>, mine: bool)
    ensures Texts(Kept(items, MineText(mine))) == if mine then 0 else Texts(items)
  {
    if items != [] {
      var front, last := items[..|items| - 1], items[|items| - 1];
      KeptTexts(front, mine);
      var kept := Kept(front, MineText(mine));
      TextsSnoc(kept, last);
      assert kept + [] == kept;
    }
  }

  lemma {:induction false} KeptChunks(items: seq<Entry<AudioItem>>, mine: bool)
    ensures Chunks(Kept(items, MineAudio(mine))) == if mine then 0 else Chunks(items)
  {
    if items != [] {
      var front, last := items[..|items| - 1], items[|items| - 1];
      KeptChunks(front, mine);
      var kept := Kept(front, MineAudio(mine));
      ChunksSnoc(kept, last);
      assert kept + [] == kept;
    }
  }

  lemma {:induction false} FlushKeeps<T>(c: Config, q: Queue<T>, drop: T -> bool)
    ensures Flush(c, q, drop).queue.items == Kept(q.items, drop)
  {
    hide Kept;
    hide Weight;
  }

  /** What a callback leaves of the queues, and the callback that follows it. */
  ghost predicate Leaves(p: Setup, s: State, callback: Callback, s': State, next: Option<Callback>) {
    && s' == s.(fence := s'.fence, text := s'.text, audio := s'.audio)
    && Texts(s'.text.items) == (if callback == FlushText(p.response) then 0 else Texts(s.text.items))
    && Chunks(s'.audio.items) == (if callback == FlushAudio(p.response) then 0 else Chunks(s.audio.items))
    && (callback == FlushText(p.response) ==> next == Some(FlushAudio(p.response)))
    && (p.response in s'.fence.cancelled ==>
          p.response in s.fence.cancelled || next == Some(FlushText(p.response)))
  }

  lemma {:induction false} CallbackLeaves(p: Setup, s: State, callback: Callback)
    ensures var (s', next) := CallbackStep(p, s, callback); Leaves(p, s, callback, s', next)
  {
    hide Kept;
    hide Texts;
    hide Chunks;
    hide Flush;
    match callback
    case Announce =>
    case FlushText(id) =>
      KeptTexts(s.text.items, id == p.response);
      FlushKeeps(p.textConfig, s.text, MineText(id == p.response));
    case FlushAudio(id) =>
      KeptChunks(s.audio.items, id == p.response);
      FlushKeeps(p.audioConfig, s.audio, MineAudio(id == p.response));
  }

  /** The counts that the flushes are about. */
  datatype Left = Left(cancelled: bool, textPending: bool, audioPending: bool, texts: nat, chunks: nat)

  function LeftOf(p: Setup, s: State): Left {
    Left(p.response in s.fence.cancelled, Pending(s, FlushText(p.response)), Pending(s, FlushAudio(p.response)),
         Texts(s.text.items) + TextInHand(s.llm), Chunks(s.audio.items) + ChunkInHand(s.tts))
  }

  lemma {:induction false} LlmPuts(p: Setup, s: State)
    requires QueuesOpen(p, s) && Enabled(p, s, LlmTask) && (s.llm.LlmPut? || s.llm.LlmEnd?)
    ensures LeftOf(p, LlmStep(p, s)) == LeftOf(p, s)
  {
    hide Texts;
    hide Chunks;
    var i := if s.llm.LlmPut? then Text(s.llm.token) else TextEnd;
    var ms := if s.llm.LlmPut? then TextMs(p, s.llm.token) else 0.0;
    AppendOnOpen(p.textConfig, s.text, i, ms);
    TextsSnoc(s.text.items, Entry(i, Max(0.0, ms)));
    hide Append;
    hide Open;
    hide Max;
  }

  lemma {:induction false} LlmFlushes(p: Setup, s: State)
    requires QueuesOpen(p, s) && CutOff(p, s) && Enabled(p, s, LlmTask)
    ensures CutOff(p, LlmStep(p, s))
  {
    hide CallbackStep;
    hide Append;
    hide Texts;
    hide Chunks;
    if s.llm.LlmPut? || s.llm.LlmEnd? {
      LlmPuts(p, s);
      CutOffIs(p, s);
      CutOffIs(p, LlmStep(p, s));
      hide LlmStep;
      hide CutOff;
      hide LeftOf;
    } else if s.llm.LlmCall? {
      CallbackLeaves(p, s, s.llm.callback);
    }
  }

  lemma {:induction false} CutOffIs(p: Setup, s: State)
    ensures var l := LeftOf(p, s);
      CutOff(p, s) <==> (l.cancelled && !l.textPending ==> l.texts <= 1 && (!l.audioPending ==> l.chunks <= 1))
  {
    hide Texts;
    hide Chunks;
    hide Pending;
  }

  lemma {:induction false} TtsPuts(p: Setup, s: State)
    requires QueuesOpen(p, s) && Enabled(p, s, TtsTask) && (s.tts.TtsPut? || s.tts.TtsEnd?)
    ensures LeftOf(p, TtsStep(p, s)) == LeftOf(p, s)
  {
    hide Texts;
    hide Chunks;
    var i := if s.tts.TtsPut? then Audio(s.number, s.tts.chunk) else AudioEnd;
    var ms := if s.tts.TtsPut? then AudioMs(p, s.tts.chunk) else 0.0;
    AppendOnOpen(p.audioConfig, s.audio, i, ms);
    ChunksSnoc(s.audio.items, Entry(i, Max(0.0, ms)));
    hide Append;
    hide Open;
    hide Max;
  }

  lemma {:induction false} TtsFlushes(p: Setup, s: State)
    requires QueuesOpen(p, s) && CutOff(p, s) && Enabled(p, s, TtsTask)
    ensures CutOff(p, TtsStep(p, s))
  {
    hide CallbackStep;
    hide Append;
    hide Texts;
    hide Chunks;
    hide Take;
    hide PhraseReady;
    hide AllBlank;
    if s.tts.TtsPut? || s.tts.TtsEnd? {
      TtsPuts(p, s);
      CutOffIs(p, s);
      CutOffIs(p, TtsStep(p, s));
      hide TtsStep;
      hide CutOff;
      hide LeftOf;
    } else if s.tts.TtsCall? {
      CallbackLeaves(p, s, s.tts.callback);
    } else if s.tts.TtsGet? && s.text.items != [] {
      TakeLeaves(p.textConfig, s.text);
      FewerTexts(s.text.items);
    }
  }

  lemma {:induction false} TakeLeaves<T>(c: Config, q: Queue<T>)
    requires q.items != []
    ensures Take(c, q).queue.items == q.items[1..]
  {
  }

  lemma {:induction false} TransportFlushes(p: Setup, s: State)
    requires QueuesOpen(p, s) && CutOff(p, s)
    ensures CutOff(p, TransportStep(p, s))
  {
    hide Texts;
    hide Chunks;
    hide Take;
    if s.transport == TransportGet && s.audio.items != [] {
      TakeLeaves(p.audioConfig, s.audio);
      FewerChunks(s.audio.items);
    }
  }

  lemma {:induction false} OutsideFlushes(p: Setup, s: State)
    requires CutOff(p, s)
    ensures CutOff(p, OutsideStep(p, s))
  {
    hide CallbackStep;
    hide Texts;
    hide Chunks;
    if s.session.cancelling.Some? {
      CallbackLeaves(p, s, s.session.cancelling.value);
    }
  }

  /**
   * In every interleaving: once a cancelled response's flushes have run, at most the one token that had already
   * passed its check is queued or on its way, and at most one such chunk; the tasks add no other.
   */
  lemma {:induction false} CancelledIsFlushed(p: Setup, s: State, tasks: seq<Task>)
    requires Init(p, s)
    ensures CutOff(p, Run(p, s, tasks))
  {
    if tasks != [] {
      var front, t := tasks[..|tasks| - 1], tasks[|tasks| - 1];
      var now := Run(p, s, front);
      CancelledIsFlushed(p, s, front);
      RunIsSafe(p, s, front);
      if Enabled(p, now, t) {
        match t
        case LlmTask => LlmFlushes(p, now);
        case TtsTask => TtsFlushes(p, now);
        case TransportTask => TransportFlushes(p, now);
        case OutsideTask => OutsideFlushes(p, now);
      }
      hide LlmStep;
      hide TtsStep;
      hide TransportStep;
      hide OutsideStep;
      hide Enabled;
      hide Texts;
      hide Chunks;
    }
  }

  // -------------------------------------------------------------------- weights

  /** A queued token weighs its length, and a queued chunk its, in milliseconds; end markers weigh nothing. */
  ghost predicate Weighed(p: Setup, s: State) {
    && (forall k :: 0 <= k < |s.text.items| ==> IsWeight(s.text.items[k].weight, TextLength(p, s.text.items[k].item)))
    && (forall k :: 0 <= k < |s.audio.items| ==> IsWeight(s.audio.items[k].weight, AudioLength(p, s.audio.items[k].item)))
  }

  predicate IsWeight(weight: real, ms: real) {
    weight == if ms > 0.0 then ms else 0.0
  }

  function TextLength(p: Setup, i: TextItem): real {
    match i
    case Text(t) => |t| as real * p.msPerChar
    case TextEnd => 0.0
  }

  function AudioLength(p: Setup, i: AudioItem): real {
    match i
    case Audio(_, chunk) => |chunk| as real * p.msPerByte
    case AudioEnd => 0.0
  }

  lemma {:induction false} KeptAreOld<T>(items: seq<Entry<T>>, drop: T -> bool)
    ensures forall k :: 0 <= k < |Kept(items, drop)| ==> Kept(items, drop)[k] in items
  {
    if items != [] {
      KeptAreOld(items[..|items| - 1], drop);
    }
  }

  lemma {:induction false} CallbackWeighs(p: Setup, s: State, callback: Callback)
    requires Weighed(p, s)
    ensures Weighed(p, CallbackStep(p, s, callback).0)
  {
    match callback
    case Announce =>
    case FlushText(id) => KeptAreOld(s.text.items, MineText(id == p.response));
    case FlushAudio(id) => KeptAreOld(s.audio.items, MineAudio(id == p.response));
    hide Kept;
    hide TextLength;
    hide AudioLength;
    hide IsWeight;
  }

  lemma {:induction false} AppendWeighs(p: Setup, s: State, s': State)
    requires Weighed(p, s)
    requires s'.text.items == s.text.items ||
      (|s'.text.items| == |s.text.items| + 1 && s'.text.items[..|s.text.items|] == s.text.items
       && IsWeight(s'.text.items[|s.text.items|].weight, TextLength(p, s'.text.items[|s.text.items|].item)))
    requires s'.audio.items == s.audio.items ||
      (|s'.audio.items| == |s.audio.items| + 1 && s'.audio.items[..|s.audio.items|] == s.audio.items
       && IsWeight(s'.audio.items[|s.audio.items|].weight, AudioLength(p, s'.audio.items[|s.audio.items|].item)))
    ensures Weighed(p, s')
  {
    hide TextLength;
    hide AudioLength;
    hide IsWeight;
  }

  lemma {:induction false} LlmWeighs(p: Setup, s: State)
    requires QueuesOpen(p, s) && Weighed(p, s) && Enabled(p, s, LlmTask)
    ensures Weighed(p, LlmStep(p, s))
  {
    hide Weighed;
    hide CallbackStep;
    match s.llm
    case LlmPut(token, _) =>
      AppendOnOpen(p.textConfig, s.text, Text(token), TextMs(p, token));
      AppendWeighs(p, s, LlmStep(p, s));
    case LlmEnd =>
      AppendOnOpen(p.textConfig, s.text, TextEnd, 0.0);
      AppendWeighs(p, s, LlmStep(p, s));
    case LlmCall(_, callback) =>
      CallbackWeighs(p, s, callback);
      SameQueues(p, CallbackStep(p, s, callback).0, LlmStep(p, s));
    case _ => SameQueues(p, s, LlmStep(p, s));
  }

  lemma {:induction false} SameQueues(p: Setup, s: State, s': State)
    requires Weighed(p, s) && s'.text == s.text && s'.audio == s.audio
    ensures Weighed(p, s')
  {
  }

  lemma {:induction false} TakeWeighs(p: Setup, s: State, s': State)
    requires Weighed(p, s)
    requires s'.text.items == s.text.items || (s.text.items != [] && s'.text.items == s.text.items[1..])
    requires s'.audio.items == s.audio.items || (s.audio.items != [] && s'.audio.items == s.audio.items[1..])
    ensures Weighed(p, s')
  {
    hide TextLength;
    hide AudioLength;
    hide IsWeight;
  }

  lemma {:induction false} TtsWeighs(p: Setup, s: State)
    requires QueuesOpen(p, s) && Weighed(p, s) && Enabled(p, s, TtsTask)
    ensures Weighed(p, TtsStep(p, s))
  {
    hide PhraseReady;
    hide AllBlank;
    hide Weighed;
    match s.tts
    case TtsGet => TakeWeighs(p, s, TtsStep(p, s));
    case TtsPut(chunk, _, _) =>
      AppendOnOpen(p.audioConfig, s.audio, Audio(s.number, chunk), AudioMs(p, chunk));
      AppendWeighs(p, s, TtsStep(p, s));
    case TtsEnd =>
      AppendOnOpen(p.audioConfig, s.audio, AudioEnd, 0.0);
      AppendWeighs(p, s, TtsStep(p, s));
    case TtsCall(_, _, callback) =>
      CallbackWeighs(p, s, callback);
      SameQueues(p, CallbackStep(p, s, callback).0, TtsStep(p, s));
    case _ => SameQueues(p, s, TtsStep(p, s));
  }

  lemma {:induction false} OutsideWeighs(p: Setup, s: State)
    requires Weighed(p, s)
    ensures Weighed(p, OutsideStep(p, s))
  {
    hide Weighed;
    if s.session.cancelling.Some? {
      CallbackWeighs(p, s, s.session.cancelling.value);
      SameQueues(p, CallbackStep(p, s, s.session.cancelling.value).0, OutsideStep(p, s));
    } else {
      OutsideTouchesTheFence(p, s);
      SameQueues(p, s, OutsideStep(p, s));
    }
  }

  lemma {:induction false} NextWeighs(p: Setup, s: State, t: Task)
    requires QueuesOpen(p, s) && Weighed(p, s)
    ensures Weighed(p, Next(p, s, t))
  {
    if Enabled(p, s, t) {
      hide Weighed;
      SameQueues(p, TaskStep(p, s, t), Next(p, s, t)) by {
        match t
        case LlmTask => LlmWeighs(p, s);
        case TtsTask => TtsWeighs(p, s);
        case TransportTask => TakeWeighs(p, s, TransportStep(p, s));
        case OutsideTask => OutsideWeighs(p, s);
        hide LlmStep;
        hide TtsStep;
        hide TransportStep;
        hide OutsideStep;
      }
    }
  }

  /** In every reachable state the depths are measured in milliseconds of text and of sound. */
  lemma {:induction false} DepthsAreMilliseconds(p: Setup, s: State, tasks: seq<Task>)
    requires Init(p, s)
    ensures var now := Run(p, s, tasks);
      Weighed(p, now) && now.text.depth == Weight(now.text.items) && now.audio.depth == Weight(now.audio.items)
  {
    hide Next;
    RunIsSafe(p, s, tasks);
    if tasks != [] {
      var front, t := tasks[..|tasks| - 1], tasks[|tasks| - 1];
      DepthsAreMilliseconds(p, s, front);
      RunIsSafe(p, s, front);
      NextWeighs(p, Run(p, s, front), t);
      hide Weighed;
    }
  }
}
