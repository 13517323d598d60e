/** What a hard limit does under the policies: cancel the response, or only report. */
module PipelinePolicy {
  import opened Options
  import opened Flow
  import opened Responses
  import opened Pipeline
  import opened PipelineSafety

  predicate NoCallback(s: State) {
    !s.llm.LlmCall? && !s.tts.TtsCall?
  }

  /** A step that flushes nothing: it adds an item at the end, takes the oldest, or leaves the queue's items alone. */
  ghost predicate Unflushed<T>(q: Queue<T>, q': Queue<T>) {
    || q'.items == q.items
    || (q.items != [] && q'.items == q.items[1..])
    || (|q'.items| == |q.items| + 1 && q'.items[..|q.items|] == q.items)
  }

  lemma {:induction false} AppendUnflushed<T>(c: Config, q: Queue<T>, item: T, weight: real)
    ensures Unflushed(q, Append(c, q, item, weight).queue)
  {
  }

  lemma {:induction false} TakeUnflushed<T>(c: Config, q: Queue<T>)
    requires q.items != []
    ensures Unflushed(q, Take(c, q).queue)
  {
  }

  lemma {:induction false} LlmReports(p: Setup, s: State)
    requires !p.cancelOnHardLimit && NoCallback(s)
    ensures var s' := LlmStep(p, s);
      NoCallback(s') && Unflushed(s.text, s'.text) && s' == s.(text := s'.text, llm := s'.llm)
  {
    hide Append;
    hide Stale;
    hide Unflushed;
    assert Unflushed(s.text, s.text) by {
      ItselfUnflushed(s.text);
    }
    match s.llm
    case LlmPut(token, _) => AppendUnflushed(p.textConfig, s.text, Text(token), TextMs(p, token));
    case LlmEnd => AppendUnflushed(p.textConfig, s.text, TextEnd, 0.0);
    case _ =>
  }

  lemma {:induction false} ItselfUnflushed<T>(q: Queue<T>)
    ensures Unflushed(q, q)
  {
  }

  lemma {:induction false} TtsReports(p: Setup, s: State)
    requires !p.cancelOnHardLimit && NoCallback(s)
    ensures var s' := TtsStep(p, s);
      && NoCallback(s') && Unflushed(s.text, s'.text) && Unflushed(s.audio, s'.audio)
      && s'.fence == s.fence && s'.session == s.session
  {
    hide Append;
    hide Take;
    hide Stale;
    hide PhraseReady;
    hide AllBlank;
    ItselfUnflushed(s.text);
    ItselfUnflushed(s.audio);
    hide Unflushed;
    match s.tts
    case TtsGet => if s.text.items != [] { TakeUnflushed(p.textConfig, s.text); }
    case TtsPut(chunk, _, _) => AppendUnflushed(p.audioConfig, s.audio, Audio(s.number, chunk), AudioMs(p, chunk));
    case TtsEnd => AppendUnflushed(p.audioConfig, s.audio, AudioEnd, 0.0);
    case _ =>
  }

  lemma {:induction false} TransportReports(p: Setup, s: State)
    requires NoCallback(s)
    ensures var s' := TransportStep(p, s);
      && NoCallback(s') && s'.text == s.text && Unflushed(s.audio, s'.audio)
      && s'.fence.cancelled == s.fence.cancelled && s'.session == s.session
  {
    hide Take;
    hide Stale;
    ItselfUnflushed(s.audio);
    hide Unflushed;
    if s.transport == TransportGet && s.audio.items != [] {
      TakeUnflushed(p.audioConfig, s.audio);
    }
  }

  lemma {:induction false} OutsideReports(p: Setup, s: State)
    requires NoCallback(s)
    ensures NoCallback(OutsideStep(p, s))
    ensures Harmless(s) ==>
      var s' := OutsideStep(p, s);
      s'.text == s.text && s'.audio == s.audio && s'.fence.cancelled == s.fence.cancelled && Harmless(s')
  {
    if s.session.cancelling.Some? {
      CallbackFrame(p, s, s.session.cancelling.value);
    } else {
      OutsideTouchesTheFence(p, s);
    }
    hide CallbackStep;
    hide BeginCancel;
  }

  /** No cancellation is under way or to come from outside. */
  ghost predicate Harmless(s: State) {
    && s.session.cancelling == None
    && forall k :: 0 <= k < |s.session.outside| ==> !s.session.outside[k].CancelFromOutside?
  }

  /** Under a policy that only reports, no hard limit ever starts a callback, whatever happens outside. */
  lemma {:induction false} ReportingStartsNoCallback(p: Setup, s: State, tasks: seq<Task>)
    requires Init(p, s) && !p.cancelOnHardLimit
    ensures NoCallback(Run(p, s, tasks))
  {
    if tasks != [] {
      var now, t := Run(p, s, tasks[..|tasks| - 1]), tasks[|tasks| - 1];
      ReportingStartsNoCallback(p, s, tasks[..|tasks| - 1]);
      match t
      case LlmTask => LlmReports(p, now);
      case TtsTask => TtsReports(p, now);
      case TransportTask => TransportReports(p, now);
      case OutsideTask => OutsideReports(p, now);
      hide LlmStep;
      hide TtsStep;
      hide TransportStep;
      hide OutsideStep;
      hide Enabled;
    }
  }

  /** One more step of any task: nothing is flushed and nothing cancelled. */
  ghost predicate LosesNothing(now: State, later: State) {
    Unflushed(now.text, later.text) && Unflushed(now.audio, later.audio) && later.fence.cancelled == now.fence.cancelled
  }

  lemma {:induction false} StepLosesNothing(p: Setup, now: State, t: Task)
    requires !p.cancelOnHardLimit && NoCallback(now) && Harmless(now)
    ensures LosesNothing(now, Next(p, now, t)) && Harmless(Next(p, now, t))
  {
    ItselfUnflushed(now.text);
    ItselfUnflushed(now.audio);
    match t
    case LlmTask => LlmReports(p, now);
    case TtsTask => TtsReports(p, now);
    case TransportTask => TransportReports(p, now);
    case OutsideTask => OutsideReports(p, now);
    hide LlmStep;
    hide TtsStep;
    hide TransportStep;
    hide OutsideStep;
    hide Enabled;
    hide Unflushed;
    hide Stale;
  }

  /**
   * Under such a policy, and with no cancellation from outside, no step of any run flushes a queue or cancels a
   * response: hard limits change nothing but what is reported.
   */
  lemma {:induction false} ReportingLosesNothing(p: Setup, s: State, tasks: seq<Task>, t: Task)
    requires Init(p, s) && !p.cancelOnHardLimit && Harmless(s)
    ensures LosesNothing(Run(p, s, tasks), Run(p, s, tasks + [t]))
    ensures Harmless(Run(p, s, tasks + [t])) && Run(p, s, tasks).fence.cancelled == s.fence.cancelled
  {
    assert (tasks + [t])[..|tasks|] == tasks;
    ReportingStartsNoCallback(p, s, tasks);
    hide Next;
    hide NoCallback;
    hide Harmless;
    if tasks != [] {
      var front, last := tasks[..|tasks| - 1], tasks[|tasks| - 1];
      assert tasks == front + [last];
      ReportingLosesNothing(p, s, front, last);
    }
    StepLosesNothing(p, Run(p, s, tasks), t);
  }

  // ------------------------------------------------------------- a hard limit

  const TIGHT := Config(1.0, 2.0, 3.0, 8)

  /** A response whose only token is beyond the hard limit of its queue. */
  function Loud(cancelOnHardLimit: bool): Setup {
    Setup(1, 1, ["word"], (_: string) => [], 1.0, 1.0, TIGHT, TIGHT, cancelOnHardLimit)
  }

  function Begun(p: Setup): State {
    State(Controller(Some(p.response), map[p.response := p.turn], {}), Empty(), Empty(), LlmToken(p.tokens), TtsGet,
          TransportGet, [], [], 0, [], Session([], None, false), true)
  }

  const FOUR_STEPS: seq<Task> := [LlmTask, LlmTask, LlmTask, LlmTask]

  lemma {:induction false} FourSteps(p: Setup, s: State)
    ensures Run(p, s, FOUR_STEPS) == Next(p, Next(p, Next(p, Next(p, s, LlmTask), LlmTask), LlmTask), LlmTask)
  {
    assert FOUR_STEPS == [] + [LlmTask] + [LlmTask] + [LlmTask] + [LlmTask];
    OneMoreStep(p, s, []);
    OneMoreStep(p, s, [] + [LlmTask]);
    OneMoreStep(p, s, [] + [LlmTask] + [LlmTask]);
    OneMoreStep(p, s, [] + [LlmTask] + [LlmTask] + [LlmTask]);
    assert Run(p, s, []) == s;
    hide Next;
    hide Run;
  }

  lemma {:induction false} OneMoreStep(p: Setup, s: State, tasks: seq<Task>)
    ensures Run(p, s, tasks + [LlmTask]) == Next(p, Run(p, s, tasks), LlmTask)
  {
    assert (tasks + [LlmTask])[..|tasks|] == tasks;
    hide Next;
  }

  lemma {:induction false} LoudSteps(p: Setup, s: State)
    requires s.llm == LlmToken(["word"]) && s.text == Empty() && IsActive(s.fence, p.response, p.turn) && s.held
    requires p.textConfig == TIGHT && p.msPerChar == 1.0
    ensures var end := Next(p, Next(p, Next(p, Next(p, s, LlmTask), LlmTask), LlmTask), LlmTask);
      end.text.hardLimited && end.llm == if p.cancelOnHardLimit then LlmCall([], Announce) else LlmToken([])
  {
    var s1 := s.(llm := LlmGate("word", [], true));
    var s2 := s.(llm := LlmGate("word", [], false));
    var s3 := s.(llm := LlmPut("word", []));
    assert ["word"][1..] == [];
    assert Next(p, s, LlmTask) == s1;
    assert Next(p, s1, LlmTask) == s2;
    assert Next(p, s2, LlmTask) == s3;
    WordIsTooLong(p);
    hide TextMs;
    hide Append;
  }

  lemma {:induction false} WordIsTooLong(p: Setup)
    requires p.textConfig == TIGHT && p.msPerChar == 1.0
    ensures var o := Append(p.textConfig, Empty(), Text("word"), TextMs(p, "word"));
      o.queue.hardLimited && o.signal == Some(Hard)
  {
  }

  lemma {:induction false} LoudBegins(cancelOnHardLimit: bool)
    ensures var p := Loud(cancelOnHardLimit);
      var s := Begun(p);
      && Init(p, s) && p.textConfig == TIGHT && p.msPerChar == 1.0 && p.cancelOnHardLimit == cancelOnHardLimit
      && s.llm == LlmToken(["word"]) && s.text == Empty() && IsActive(s.fence, p.response, p.turn) && s.held
  {
  }

  /** The same run reaches the hard limit under both kinds of policy, and only one of them starts a callback. */
  lemma {:induction false} HardLimitIsReached(cancelOnHardLimit: bool)
    ensures var p := Loud(cancelOnHardLimit);
      && Init(p, Begun(p))
      && var end := Run(p, Begun(p), FOUR_STEPS);
         end.text.hardLimited && end.llm == if cancelOnHardLimit then LlmCall([], Announce) else LlmToken([])
  {
    hide *;
    var p := Loud(cancelOnHardLimit);
    LoudBegins(cancelOnHardLimit);
    FourSteps(p, Begun(p));
    LoudSteps(p, Begun(p));
  }
}
