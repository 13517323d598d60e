/** Without a cancellation from outside, and with hard limits that are not reached or only reported, nothing is ever cut. */
module PipelineCalm {
  import opened Options
  import opened Flow
  import opened Responses
  import opened Pipeline
  import opened PipelineSafety
  import opened PipelineDrain
  import opened PipelineContent

  /**
   * Where a hard limit cancels, every token and every chunk fits between the high watermark and the hard limit of its
   * queue; where it only reports, nothing is asked.
   */
  ghost predicate Room(p: Setup) {
    && (forall t :: t in p.tokens ==> TextFits(p, t))
    && (forall phrase, c :: c in p.speech(phrase) ==> ChunkFits(p, c))
  }

  ghost predicate TextFits(p: Setup, t: string) {
    p.cancelOnHardLimit ==> TextMs(p, t) <= p.textConfig.hard - p.textConfig.high
  }

  ghost predicate ChunkFits(p: Setup, c: Chunk) {
    p.cancelOnHardLimit ==> AudioMs(p, c) <= p.audioConfig.hard - p.audioConfig.high
  }

  /** The language model is in no callback, and puts below the high watermark what fits above it. */
  ghost predicate LlmCalm(p: Setup, s: State) {
    match s.llm
    case LlmToken(rest) => forall t :: t in rest ==> TextFits(p, t)
    case LlmGate(token, rest, _) => TextFits(p, token) && forall t :: t in rest ==> TextFits(p, t)
    case LlmPut(token, rest) =>
      s.text.depth < p.textConfig.high && TextFits(p, token) && forall t :: t in rest ==> TextFits(p, t)
    case LlmCall(_, _) => false
    case _ => true
  }

  ghost predicate TtsCalm(p: Setup, s: State) {
    match s.tts
    case TtsAudio(rest, _) => forall c :: c in rest ==> ChunkFits(p, c)
    case TtsGate(chunk, rest, _, _) => ChunkFits(p, chunk) && forall c :: c in rest ==> ChunkFits(p, c)
    case TtsPut(chunk, rest, _) =>
      s.audio.depth < p.audioConfig.high && ChunkFits(p, chunk) && forall c :: c in rest ==> ChunkFits(p, c)
    case TtsCall(_, _, _) => false
    case _ => true
  }

  ghost predicate Calm(p: Setup, s: State) {
    && s.session == Session([], None, false) && s.held
    && IsActive(s.fence, p.response, p.turn)
    && LlmCalm(p, s) && TtsCalm(p, s)
  }

  lemma {:induction false} BelowHard<T>(c: Config, q: Queue<T>, item: T, weight: real)
    requires Open(c, q) && q.depth < c.high && weight <= c.hard - c.high
    ensures Append(c, q, item, weight).signal != Some(Hard)
  {
  }

  lemma {:induction false} LlmStaysCalm(p: Setup, s: State)
    requires QueuesOpen(p, s) && Calm(p, s) && Enabled(p, s, LlmTask)
    ensures LlmCalm(p, LlmStep(p, s)) && LlmStep(p, s).fence == s.fence
    ensures LlmStep(p, s) == s.(llm := LlmStep(p, s).llm, text := LlmStep(p, s).text)
  {
    if s.llm.LlmPut? && p.cancelOnHardLimit {
      BelowHard(p.textConfig, s.text, Text(s.llm.token), TextMs(p, s.llm.token));
    }
  }

  lemma {:induction false} TtsStaysCalm(p: Setup, s: State)
    requires QueuesOpen(p, s) && Room(p) && Calm(p, s) && Enabled(p, s, TtsTask)
    ensures TtsCalm(p, TtsStep(p, s)) && TtsStep(p, s).fence == s.fence
    ensures TtsStep(p, s).llm == s.llm && TtsStep(p, s).session == s.session && TtsStep(p, s).held == s.held
    ensures TtsStep(p, s).text.depth <= s.text.depth
  {
    match s.tts
    case TtsGet => TakeKeepsInv(p.textConfig, s.text); WeightNonNegative(s.text.items);
    case TtsPut(chunk, rest, last) =>
      if p.cancelOnHardLimit {
        BelowHard(p.audioConfig, s.audio, Audio(s.number, chunk), AudioMs(p, chunk));
      }
    case _ =>
  }

  lemma {:induction false} TransportStaysCalm(p: Setup, s: State)
    requires QueuesOpen(p, s) && Calm(p, s) && Enabled(p, s, TransportTask)
    ensures TransportStep(p, s).audio.depth <= s.audio.depth
    ensures TransportStep(p, s) ==
      s.(audio := TransportStep(p, s).audio, transport := TransportStep(p, s).transport, sent := TransportStep(p, s).sent)
  {
    if s.transport == TransportGet {
      TakeKeepsInv(p.audioConfig, s.audio);
    }
  }

  lemma {:induction false} NextStaysCalm(p: Setup, s: State, t: Task)
    requires QueuesOpen(p, s) && Room(p) && Calm(p, s)
    ensures Calm(p, Next(p, s, t))
  {
    if Enabled(p, s, t) {
      match t
      case LlmTask => LlmStaysCalm(p, s);
      case TtsTask => TtsStaysCalm(p, s);
      case TransportTask => TransportStaysCalm(p, s);
    }
  }

  lemma {:induction false} RunStaysCalm(p: Setup, s: State, tasks: seq<Task>)
    requires Init(p, s) && s.session.outside == [] && Room(p)
    ensures Calm(p, Run(p, s, tasks))
  {
    if tasks != [] {
      RunStaysCalm(p, s, tasks[..|tasks| - 1]);
      RunIsSafe(p, s, tasks[..|tasks| - 1]);
      NextStaysCalm(p, Run(p, s, tasks[..|tasks| - 1]), tasks[|tasks| - 1]);
    }
  }

  function Prefix(schedule: nat -> Task, n: nat): seq<Task> {
    if n == 0 then [] else Prefix(schedule, n - 1) + [schedule(n - 1)]
  }

  lemma {:induction false} AfterIsRun(p: Setup, s: State, schedule: nat -> Task, n: nat)
    ensures After(p, s, schedule, n) == Run(p, s, Prefix(schedule, n))
  {
    if n > 0 {
      AfterIsRun(p, s, schedule, n - 1);
      assert Prefix(schedule, n)[..|Prefix(schedule, n)| - 1] == Prefix(schedule, n - 1);
    }
  }

  /**
   * Nothing cancels from outside, and every item fits or hard limits only report: then every schedule ends, and when it ends every token
   * has been spoken and every chunk sent, in order and numbered.
   */
  lemma {:induction false} EveryScheduleSpeaksEverything(p: Setup, s: State, schedule: nat -> Task) returns (n: nat)
    requires Init(p, s) && s.session.outside == [] && Room(p)
    requires forall k: nat :: Finished(After(p, s, schedule, k)) || Enabled(p, After(p, s, schedule, k), schedule(k))
    ensures var end := After(p, s, schedule, n);
      && Finished(end)
      && Join(p.tokens) == Join(end.phrases) + end.buffer && AllBlank(end.buffer)
      && Chunks(end.sent) == AllSpeech(p, end.phrases) && Numbered(end.sent)
  {
    n := EveryScheduleFinishes(p, s, schedule);
    AfterIsRun(p, s, schedule, n);
    RunStaysCalm(p, s, Prefix(schedule, n));
    EveryWordIsSpoken(p, s, Prefix(schedule, n));
  }
}
