/** What every interleaving of the three tasks keeps: the queues' laws, the fence, and no deadlock. */
module PipelineSafety {
  import opened Options
  import opened Flow
  import opened Responses
  import opened Pipeline

  ghost predicate Open<T>(c: Config, q: Queue<T>) {
    c.Valid() && Inv(c, q) && !q.closed && !q.cancelled
  }

  ghost predicate QueuesOpen(p: Setup, s: State) {
    Open(p.textConfig, s.text) && Open(p.audioConfig, s.audio)
  }

  /** The end marker is in the queue exactly between the producer's return and the consumer's get, and last. */
  ghost predicate EndsLast<T(!new)>(items: seq<Entry<T>>, isEnd: T -> bool, produced: bool, consumed: bool) {
    && (forall k :: 0 <= k < |items| && isEnd(items[k].item) ==> k == |items| - 1 && produced)
    && (consumed ==> produced && items == [])
    && (produced && !consumed ==> items != [] && isEnd(items[|items| - 1].item))
  }

  function IsTextEnd(): TextItem -> bool { (i: TextItem) => i.TextEnd? }
  function IsAudioEnd(): AudioItem -> bool { (i: AudioItem) => i.AudioEnd? }

  /** The speech task has taken the text end marker. */
  predicate TtsPastEnd(tts: Tts) {
    match tts
    case TtsGet => false
    case TtsHas(item) => item.TextEnd?
    case TtsAudio(_, last) => last
    case TtsGate(_, _, last, _) => last
    case TtsPut(_, _, last) => last
    case TtsCall(_, last, _) => last
    case TtsEnd => true
    case TtsDone => true
  }

  predicate TransportPastEnd(x: Transport) {
    x == TransportHas(AudioEnd) || x == TransportDone
  }

  ghost predicate Ends(s: State) {
    && EndsLast(s.text.items, IsTextEnd(), s.llm == LlmDone, TtsPastEnd(s.tts))
    && EndsLast(s.audio.items, IsAudioEnd(), s.tts == TtsDone, TransportPastEnd(s.transport))
  }

  ghost predicate Safe(p: Setup, s: State) {
    QueuesOpen(p, s) && Ends(s) && Fenced(s.fence)
  }

  // -------------------------------------------------- queue sections at work

  lemma {:induction false} AppendOnOpen<T>(c: Config, q: Queue<T>, item: T, weight: real)
    requires Open(c, q) && CanAppend(c, q)
    ensures Open(c, Append(c, q, item, weight).queue)
    ensures Append(c, q, item, weight).queue.items == q.items + [Entry(item, Max(0.0, weight))]
  {
    AppendKeepsInv(c, q, item, weight);
  }

  lemma {:induction false} Appended<T(!new)>(c: Config, q: Queue<T>, item: T, weight: real, isEnd: T -> bool)
    requires Open(c, q) && CanAppend(c, q)
    requires EndsLast(q.items, isEnd, false, false)
    ensures Open(c, Append(c, q, item, weight).queue)
    ensures EndsLast(Append(c, q, item, weight).queue.items, isEnd, isEnd(item), false)
  {
    AppendOnOpen(c, q, item, weight);
    var items := q.items + [Entry(item, Max(0.0, weight))];
    assert EndsLast(items, isEnd, isEnd(item), false);
  }

  lemma {:induction false} Taken<T(!new)>(c: Config, q: Queue<T>, isEnd: T -> bool, produced: bool)
    requires Open(c, q) && q.items != []
    requires EndsLast(q.items, isEnd, produced, false)
    ensures Open(c, Take(c, q).queue)
    ensures Take(c, q).queue.items == q.items[1..]
    ensures EndsLast(Take(c, q).queue.items, isEnd, produced, isEnd(q.items[0].item))
  {
    TakeKeepsInv(c, q);
  }

  /** The flush predicates spare the end marker, and spare everything of another response. */
  lemma {:induction false} SparesEnds<T>(items: seq<Entry<T>>, drop: T -> bool, isEnd: T -> bool)
    requires forall i :: isEnd(i) ==> !drop(i)
    requires items != [] && isEnd(items[|items| - 1].item)
    ensures Kept(items, drop) != [] && Kept(items, drop)[|Kept(items, drop)| - 1] == items[|items| - 1]
  {
  }

  lemma {:induction false} SparesOrder<T(!new)>(items: seq<Entry<T>>, drop: T -> bool, isEnd: T -> bool, produced: bool)
    requires forall i :: isEnd(i) ==> !drop(i)
    requires forall k :: 0 <= k < |items| && isEnd(items[k].item) ==> k == |items| - 1 && produced
    ensures forall k :: 0 <= k < |Kept(items, drop)| && isEnd(Kept(items, drop)[k].item) ==> k == |Kept(items, drop)| - 1 && produced
  {
    if items != [] {
      var front, last := items[..|items| - 1], items[|items| - 1];
      SparesOrder(front, drop, isEnd, false);
      assert drop(last.item) ==> Kept(items, drop) == Kept(front, drop);
    }
  }

  lemma {:induction false} Flushed<T(!new)>(c: Config, q: Queue<T>, drop: T -> bool, isEnd: T -> bool, produced: bool, consumed: bool)
    requires forall i :: isEnd(i) ==> !drop(i)
    requires Open(c, q) && EndsLast(q.items, isEnd, produced, consumed)
    ensures Open(c, Flush(c, q, drop).queue)
    ensures EndsLast(Flush(c, q, drop).queue.items, isEnd, produced, consumed)
    ensures |Flush(c, q, drop).queue.items| <= |q.items|
  {
    FlushKeepsInv(c, q, drop);
    KeptWeight(q.items, drop);
    SparesOrder(q.items, drop, isEnd, produced);
    if q.items != [] && isEnd(q.items[|q.items| - 1].item) {
      SparesEnds(q.items, drop, isEnd);
    }
  }

  // ----------------------------------------------------------- preservation

  /** A callback step touches the fence and the two queues, and the fence only grows its cancelled set. */
  lemma {:induction false} CallbackFrame(p: Setup, s: State, callback: Callback)
    ensures var s' := CallbackStep(p, s, callback).0;
      && s' == s.(fence := s'.fence, text := s'.text, audio := s'.audio)
      && s.fence.cancelled <= s'.fence.cancelled
      && (!callback.Announce? ==> s'.fence == s.fence)
  {
    hide Flush;
  }

  lemma {:induction false} CallbackIsSafe(p: Setup, s: State, callback: Callback)
    requires Safe(p, s)
    ensures var s' := CallbackStep(p, s, callback).0;
      Safe(p, s') && s' == s.(fence := s'.fence, text := s'.text, audio := s'.audio)
  {
    match callback
    case Announce =>
    case FlushText(id) =>
      Flushed(p.textConfig, s.text, MineText(id == p.response), IsTextEnd(), s.llm == LlmDone, TtsPastEnd(s.tts));
    case FlushAudio(id) =>
      Flushed(p.audioConfig, s.audio, MineAudio(id == p.response), IsAudioEnd(), s.tts == TtsDone,
              TransportPastEnd(s.transport));
  }

  lemma {:induction false} LlmIsSafe(p: Setup, s: State)
    requires Safe(p, s) && Enabled(p, s, LlmTask)
    ensures Safe(p, LlmStep(p, s))
  {
    hide Append;
    hide CallbackStep;
    match s.llm
    case LlmPut(token, rest) => Appended(p.textConfig, s.text, Text(token), TextMs(p, token), IsTextEnd());
    case LlmCall(rest, callback) => CallbackIsSafe(p, s, callback);
    case LlmEnd => Appended(p.textConfig, s.text, TextEnd, 0.0, IsTextEnd());
    case _ =>
  }

  /** A step of the speech task that touches no queue. */
  lemma {:induction false} TtsLocalIsSafe(p: Setup, s: State)
    requires Safe(p, s) && s.tts != TtsDone
    requires s.tts.TtsHas? || s.tts.TtsAudio? || s.tts.TtsGate?
    ensures var s' := TtsStep(p, s);
      s'.text == s.text && s'.audio == s.audio && s'.fence == s.fence && s'.llm == s.llm && s'.transport == s.transport
    ensures TtsPastEnd(TtsStep(p, s).tts) == TtsPastEnd(s.tts) && TtsStep(p, s).tts != TtsDone
  {
    hide Stale;
    hide PhraseReady;
    hide AllBlank;
  }

  lemma {:induction false} TtsIsSafe(p: Setup, s: State)
    requires Safe(p, s) && Enabled(p, s, TtsTask)
    ensures Safe(p, TtsStep(p, s))
  {
    if s.tts.TtsHas? || s.tts.TtsAudio? || s.tts.TtsGate? {
      TtsLocalIsSafe(p, s);
    } else {
      TtsQueueIsSafe(p, s);
    }
  }

  lemma {:induction false} TtsQueueIsSafe(p: Setup, s: State)
    requires Safe(p, s) && Enabled(p, s, TtsTask)
    requires s.tts.TtsGet? || s.tts.TtsPut? || s.tts.TtsCall? || s.tts.TtsEnd?
    ensures Safe(p, TtsStep(p, s))
  {
    hide Append;
    hide Take;
    hide CallbackStep;
    match s.tts
    case TtsGet => Taken(p.textConfig, s.text, IsTextEnd(), s.llm == LlmDone);
    case TtsPut(chunk, rest, last) =>
      Appended(p.audioConfig, s.audio, Audio(s.number, chunk), AudioMs(p, chunk), IsAudioEnd());
    case TtsCall(rest, last, callback) => CallbackIsSafe(p, s, callback);
    case TtsEnd => Appended(p.audioConfig, s.audio, AudioEnd, 0.0, IsAudioEnd());
  }

  lemma {:induction false} TransportIsSafe(p: Setup, s: State)
    requires Safe(p, s) && Enabled(p, s, TransportTask)
    ensures Safe(p, TransportStep(p, s))
  {
    hide Take;
    if s.transport == TransportGet {
      Taken(p.audioConfig, s.audio, IsAudioEnd(), s.tts == TtsDone);
    }
  }

  /** An outside event touches nothing but the fence and what is known of the playback. */
  lemma {:induction false} OutsideTouchesTheFence(p: Setup, s: State)
    requires s.session.cancelling == None
    ensures var s' := OutsideStep(p, s);
      s' == s.(fence := s'.fence, session := s'.session)
    ensures Fenced(s.fence) ==> Fenced(OutsideStep(p, s).fence)
  {
    hide CallbackStep;
  }

  lemma {:induction false} OutsideIsSafe(p: Setup, s: State)
    requires Safe(p, s) && Enabled(p, s, OutsideTask)
    ensures Safe(p, OutsideStep(p, s))
  {
    hide CallbackStep;
    if s.session.cancelling.Some? {
      CallbackIsSafe(p, s, s.session.cancelling.value);
    } else {
      OutsideTouchesTheFence(p, s);
    }
  }

  /** One step of any task keeps the queue laws, the end markers and the fence. */
  lemma {:induction false} NextIsSafe(p: Setup, s: State, t: Task)
    requires Safe(p, s)
    ensures Safe(p, Next(p, s, t))
  {
    if Enabled(p, s, t) {
      match t
      case LlmTask => LlmIsSafe(p, s);
      case TtsTask => TtsIsSafe(p, s);
      case TransportTask => TransportIsSafe(p, s);
      case OutsideTask => OutsideIsSafe(p, s);
    }
  }

  lemma {:induction false} RunIsSafe(p: Setup, s: State, tasks: seq<Task>)
    requires Init(p, s)
    ensures Safe(p, Run(p, s, tasks))
  {
    if tasks != [] {
      RunIsSafe(p, s, tasks[..|tasks| - 1]);
      NextIsSafe(p, Run(p, s, tasks[..|tasks| - 1]), tasks[|tasks| - 1]);
    }
  }

  // --------------------------------------------------------------- deadlock

  /** No reachable state is stuck: until all three tasks have returned, one of them can run. */
  lemma {:induction false} SomeTaskCanRun(p: Setup, s: State, tasks: seq<Task>)
    requires Init(p, s)
    ensures var now := Run(p, s, tasks);
      !Finished(now) ==> exists t :: t != OutsideTask && Enabled(p, now, t)
  {
    var now := Run(p, s, tasks);
    RunIsSafe(p, s, tasks);
    if !Finished(now) {
      if !Enabled(p, now, TransportTask) && !Enabled(p, now, TtsTask) {
        assert Enabled(p, now, LlmTask);
      }
    }
  }

  /** When all three tasks have returned, both queues are empty and both end markers were taken. */
  lemma {:induction false} FinishedIsDrained(p: Setup, s: State, tasks: seq<Task>)
    requires Init(p, s) && Finished(Run(p, s, tasks))
    ensures Run(p, s, tasks).text.items == [] && Run(p, s, tasks).audio.items == []
  {
    RunIsSafe(p, s, tasks);
  }

  // -------------------------------------------------------------- the fence

  lemma {:induction false} StepIsSilent(p: Setup, s: State, t: Task)
    requires p.response in s.fence.cancelled
    ensures Next(p, s, t).sent == s.sent && p.response in Next(p, s, t).fence.cancelled
  {
    hide CallbackStep;
    hide Append;
    hide Take;
    match t
    case LlmTask => if s.llm.LlmCall? { CallbackFrame(p, s, s.llm.callback); }
    case TtsTask => if s.tts.TtsCall? { CallbackFrame(p, s, s.tts.callback); }
    case TransportTask =>
    case OutsideTask => if s.session.cancelling.Some? { CallbackFrame(p, s, s.session.cancelling.value); }
  }

  /** Once the response is cancelled no send starts, whatever was queued or passed a check before. */
  lemma {:induction false} CancelledSendsNothing(p: Setup, s: State, tasks: seq<Task>, more: seq<Task>)
    requires p.response in Run(p, s, tasks).fence.cancelled
    ensures Run(p, s, tasks + more).sent == Run(p, s, tasks).sent
    ensures p.response in Run(p, s, tasks + more).fence.cancelled
  {
    if more == [] {
      assert tasks + more == tasks;
    } else {
      assert (tasks + more)[..|tasks + more| - 1] == tasks + more[..|more| - 1];
      CancelledSendsNothing(p, s, tasks, more[..|more| - 1]);
      StepIsSilent(p, Run(p, s, tasks + more[..|more| - 1]), more[|more| - 1]);
    }
  }

  // ------------------------------------------------------------ the playback

  /** A response that is fully sent and played, and was not cancelled, has given up the floor. */
  ghost predicate PlayedOutYields(p: Setup, s: State) {
    s.transport == TransportDone && s.session.playbackDone && p.response !in s.fence.cancelled ==>
      s.fence.active != Some(p.response)
  }

  lemma {:induction false} OthersLeavePlayback(p: Setup, s: State, t: Task)
    requires t in {LlmTask, TtsTask}
    ensures var s' := TaskStep(p, s, t);
      && s'.transport == s.transport && s'.session == s.session && s.fence.cancelled <= s'.fence.cancelled
      && s'.fence.active in {s.fence.active, None}
  {
    hide Append;
    hide Take;
    hide PhraseReady;
    hide AllBlank;
    if t == LlmTask {
      if s.llm.LlmCall? { CallbackYields(p, s, s.llm.callback); }
    } else {
      if s.tts.TtsCall? { CallbackYields(p, s, s.tts.callback); }
    }
    hide CallbackStep;
  }

  lemma {:induction false} CallbackYields(p: Setup, s: State, callback: Callback)
    ensures var s' := CallbackStep(p, s, callback).0;
      && s' == s.(fence := s'.fence, text := s'.text, audio := s'.audio)
      && s.fence.cancelled <= s'.fence.cancelled && s'.fence.active in {s.fence.active, None}
  {
    hide Flush;
  }

  lemma {:induction false} StepYields(p: Setup, s: State, t: Task)
    requires PlayedOutYields(p, s)
    ensures PlayedOutYields(p, Next(p, s, t))
  {
    hide Take;
    if t in {LlmTask, TtsTask} {
      OthersLeavePlayback(p, s, t);
      hide TaskStep;
    } else if t == OutsideTask && s.session.cancelling.Some? {
      CallbackYields(p, s, s.session.cancelling.value);
      hide CallbackStep;
    }
  }

  /**
   * Whichever comes first, the end of the sending or the report that the playback is done, and whatever else
   * happens: when both are there, a response that is not cancelled is no longer active.
   */
  lemma {:induction false} RunYields(p: Setup, s: State, tasks: seq<Task>)
    requires Init(p, s)
    ensures PlayedOutYields(p, Run(p, s, tasks))
  {
    hide Next;
    if tasks != [] {
      RunYields(p, s, tasks[..|tasks| - 1]);
      StepYields(p, Run(p, s, tasks[..|tasks| - 1]), tasks[|tasks| - 1]);
    }
  }
}
