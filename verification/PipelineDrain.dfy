/** Every schedule of the pipeline ends: a lexicographic measure falls with every step of every task. */
module PipelineDrain {
  import opened Options
  import opened Flow
  import opened Pipeline
  import opened PipelineSafety

  function CallbackRank(callback: Option<Callback>): nat {
    match callback
    case None => 0
    case Some(FlushAudio(_)) => 1
    case Some(FlushText(_)) => 2
    case Some(Announce) => 3
  }

  function OutsideRank(s: State): nat {
    4 * |s.session.outside| + CallbackRank(s.session.cancelling)
  }

  function LlmRank(llm: Llm): nat {
    match llm
    case LlmToken(rest) => 8 * |rest| + 7
    case LlmGate(_, rest, first) => 8 * |rest| + (if first then 14 else 13)
    case LlmPut(_, rest) => 8 * |rest| + 12
    case LlmCall(rest, callback) => 8 * |rest| + 8 + CallbackRank(Some(callback))
    case LlmEnd => 1
    case LlmDone => 0
  }

  function TtsRank(p: Setup, tts: Tts, buffer: string): nat {
    match tts
    case TtsGet => 1
    case TtsHas(Text(t)) => 8 * |p.speech(buffer + t)| + 8
    case TtsHas(TextEnd) => 8 * |p.speech(buffer)| + 8
    case TtsAudio(rest, _) => 8 * |rest| + 7
    case TtsGate(_, rest, _, first) => 8 * |rest| + (if first then 14 else 13)
    case TtsPut(_, rest, _) => 8 * |rest| + 12
    case TtsCall(rest, _, callback) => 8 * |rest| + 8 + CallbackRank(Some(callback))
    case TtsEnd => 1
    case TtsDone => 0
  }

  function TransportRank(x: Transport): nat {
    match x
    case TransportGet => 1
    case TransportHas(_) => 3
    case TransportSending => 2
    case TransportDone => 0
  }

  /** What is left to do, most significant part first. */
  datatype Work = Work(outside: nat, llm: nat, text: nat, tts: nat, audio: nat, transport: nat)

  function Left(p: Setup, s: State): Work {
    Work(OutsideRank(s), LlmRank(s.llm), |s.text.items|,
         TtsRank(p, s.tts, s.buffer), |s.audio.items|, TransportRank(s.transport))
  }

  predicate Less(a: Work, b: Work) {
    if a.outside != b.outside then a.outside < b.outside
    else if a.llm != b.llm then a.llm < b.llm
    else if a.text != b.text then a.text < b.text
    else if a.tts != b.tts then a.tts < b.tts
    else if a.audio != b.audio then a.audio < b.audio
    else a.transport < b.transport
  }

  lemma {:induction false} KeptLength<T>(entries: seq<Entry<T>>, drop: T -> bool)
    ensures |Kept(entries, drop)| <= |entries|
  {
    if entries != [] {
      KeptLength(entries[..|entries| - 1], drop);
    }
  }

  lemma {:induction false} KeptIsShorter<T>(c: Config, q: Queue<T>, drop: T -> bool)
    ensures |Flush(c, q, drop).queue.items| <= |q.items|
  {
    hide Kept;
    hide Weight;
    KeptLength(q.items, drop);
  }

  /** A callback step lowers its rank and shrinks at most the queues. */
  lemma {:induction false} CallbackWorks(p: Setup, s: State, callback: Callback)
    ensures var (s', next) := CallbackStep(p, s, callback);
      && CallbackRank(next) < CallbackRank(Some(callback))
      && |s'.text.items| <= |s.text.items| && |s'.audio.items| <= |s.audio.items|
      && s' == s.(fence := s'.fence, text := s'.text, audio := s'.audio)
  {
    CallbackFrame(p, s, callback);
    match callback
    case Announce =>
    case FlushText(id) => KeptIsShorter(p.textConfig, s.text, MineText(id == p.response));
    case FlushAudio(id) => KeptIsShorter(p.audioConfig, s.audio, MineAudio(id == p.response));
  }

  lemma {:induction false} LlmWorks(p: Setup, s: State)
    requires s.llm != LlmDone
    ensures LlmRank(LlmStep(p, s).llm) < LlmRank(s.llm)
    ensures LlmStep(p, s).session == s.session
  {
    hide Append;
    hide CallbackStep;
    if s.llm.LlmCall? {
      CallbackWorks(p, s, s.llm.callback);
    }
  }

  lemma {:induction false} TtsWorks(p: Setup, s: State)
    requires Enabled(p, s, TtsTask) && !s.text.closed && !s.text.cancelled
    ensures var s' := TtsStep(p, s);
      && s'.session == s.session && s'.llm == s.llm
      && |s'.text.items| <= |s.text.items|
      && (|s'.text.items| == |s.text.items| ==> TtsRank(p, s'.tts, s'.buffer) < TtsRank(p, s.tts, s.buffer))
  {
    hide CallbackStep;
    hide PhraseReady;
    hide AllBlank;
    hide Stale;
    match s.tts
    case TtsHas(_) => TtsHasWorks(p, s);
    case TtsCall(_, _, callback) => CallbackWorks(p, s, callback);
    case _ =>
  }

  lemma {:induction false} TtsHasWorks(p: Setup, s: State)
    requires s.tts.TtsHas?
    ensures var s' := TtsStep(p, s);
      && s' == s.(tts := s'.tts, buffer := s'.buffer, phrases := s'.phrases)
      && TtsRank(p, s'.tts, s'.buffer) < TtsRank(p, s.tts, s.buffer)
  {
    hide PhraseReady;
    hide AllBlank;
    hide Stale;
  }

  lemma {:induction false} TransportWorks(p: Setup, s: State)
    requires Enabled(p, s, TransportTask) && !s.audio.closed && !s.audio.cancelled
    ensures var s' := TransportStep(p, s);
      && s' == s.(transport := s'.transport, audio := s'.audio, sent := s'.sent, fence := s'.fence)
      && |s'.audio.items| <= |s.audio.items|
      && (|s'.audio.items| == |s.audio.items| ==> TransportRank(s'.transport) < TransportRank(s.transport))
  {
  }

  lemma {:induction false} OutsideWorks(p: Setup, s: State)
    requires Enabled(p, s, OutsideTask)
    ensures OutsideRank(OutsideStep(p, s)) < OutsideRank(s)
  {
    hide CallbackStep;
    if s.session.cancelling.Some? {
      CallbackWorks(p, s, s.session.cancelling.value);
    }
  }

  /** Every step of every task leaves less to do, cancellations and flushes in the middle of a put included. */
  lemma {:induction false} EveryStepWorks(p: Setup, s: State, t: Task)
    requires Safe(p, s) && Enabled(p, s, t)
    ensures Less(Left(p, Next(p, s, t)), Left(p, s))
  {
    hide LlmStep;
    hide TtsStep;
    hide TransportStep;
    hide OutsideStep;
    match t
    case LlmTask => LlmWorks(p, s);
    case TtsTask => TtsWorks(p, s);
    case TransportTask => TransportWorks(p, s);
    case OutsideTask => OutsideWorks(p, s);
  }

  /** The state after the first `n` choices of an endless schedule. */
  function After(p: Setup, s: State, schedule: nat -> Task, n: nat): State {
    if n == 0 then s else Next(p, After(p, s, schedule, n - 1), schedule(n - 1))
  }

  lemma {:induction false} Exhausts(p: Setup, s: State, schedule: nat -> Task, k: nat) returns (n: nat)
    requires Safe(p, After(p, s, schedule, k))
    ensures k <= n && !Enabled(p, After(p, s, schedule, n), schedule(n))
    decreases Left(p, After(p, s, schedule, k)).outside, Left(p, After(p, s, schedule, k)).llm,
              Left(p, After(p, s, schedule, k)).text, Left(p, After(p, s, schedule, k)).tts,
              Left(p, After(p, s, schedule, k)).audio, Left(p, After(p, s, schedule, k)).transport
  {
    var now := After(p, s, schedule, k);
    n := k;
    if Enabled(p, now, schedule(k)) {
      NextIsSafe(p, now, schedule(k));
      EveryStepWorks(p, now, schedule(k));
      n := Exhausts(p, s, schedule, k + 1);
    }
  }

  /**
   * Every schedule drains the pipeline: one that picks a task that can run while the three tasks are not all
   * finished, which `SomeTaskCanRun` says it always can, finishes them after finitely many steps.
   */
  lemma {:induction false} EveryScheduleFinishes(p: Setup, s: State, schedule: nat -> Task) returns (n: nat)
    requires Init(p, s)
    requires forall k: nat :: Finished(After(p, s, schedule, k)) || Enabled(p, After(p, s, schedule, k), schedule(k))
    ensures Finished(After(p, s, schedule, n))
  {
    RunIsSafe(p, s, []);
    n := Exhausts(p, s, schedule, 0);
  }
}
