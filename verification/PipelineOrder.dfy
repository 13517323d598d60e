/** Chunk numbers, cancelled or not: whatever is sent for one response is sent in ascending order, once. */
module PipelineOrder {
  import opened Flow
  import opened Pipeline
  import opened PipelineSafety
  import opened PipelineContent

  ghost predicate Ascending(out: seq<(nat, Chunk)>, bound: int) {
    && (forall j, k :: 0 <= j < k < |out| ==> out[j].0 < out[k].0)
    && (forall k :: 0 <= k < |out| ==> out[k].0 <= bound)
  }

  /** What was sent, then what is in flight, ascends up to the last number put. */
  ghost predicate InOrder(v: AudioView) {
    v.queued >= 0 && Ascending(v.sent + AudioOf(v.flight), v.queued)
  }

  lemma {:induction false} ShorterAscends(out: seq<(nat, Chunk)>, out': seq<(nat, Chunk)>, cut: nat, bound: int)
    requires (cut < |out| && out' == out[..cut] + out[cut + 1..]) || out' <= out
    requires Ascending(out, bound)
    ensures Ascending(out', bound)
  {
  }

  lemma {:induction false} MineFlushed(items: seq<Entry<AudioItem>>)
    ensures AudioOf(Items(Kept(items, MineAudio(true)))) == []
  {
    if items == [] {
      assert Items(Kept(items, MineAudio(true))) == [];
    } else {
      var front, last := items[..|items| - 1], items[|items| - 1];
      MineFlushed(front);
      var kept := Kept(items, MineAudio(true));
      if last.item.Audio? {
        assert kept == Kept(front, MineAudio(true));
      } else {
        assert Items(kept) == Items(Kept(front, MineAudio(true))) + [last.item];
        AudioOfAppend(Items(Kept(front, MineAudio(true))), last.item);
      }
    }
  }

  /** A flush leaves the queue's chunks as they are, or removes them all. */
  lemma {:induction false} CallbackOrders(p: Setup, s: State, callback: Callback)
    ensures var s' := CallbackStep(p, s, callback).0;
      && AudioOf(Items(s'.audio.items)) in {[], AudioOf(Items(s.audio.items))}
      && s' == s.(fence := s'.fence, text := s'.text, audio := s'.audio)
  {
    hide Kept;
    CallbackFrame(p, s, callback);
    if callback.FlushAudio? {
      if callback.id == p.response {
        MineFlushed(s.audio.items);
      } else {
        SparesAll(s.audio.items, MineAudio(false));
      }
    }
  }

  lemma {:induction false} FlushOrders(s: State, s': State)
    requires InOrder(AudioSide(s))
    requires AudioOf(Items(s'.audio.items)) in {[], AudioOf(Items(s.audio.items))}
    requires s'.sent == s.sent && s'.transport == s.transport && Queued(s') == Queued(s)
    ensures InOrder(AudioSide(s'))
  {
    var queue, queue' := Items(s.audio.items), Items(s'.audio.items);
    if s.transport.TransportHas? {
      assert ([s.transport.item] + queue)[1..] == queue && ([s.transport.item] + queue')[1..] == queue';
      assert Sound(s.transport.item) + [] == Sound(s.transport.item);
    } else {
      assert [] + queue == queue && [] + queue' == queue';
    }
    ShorterAscends(s.sent + AudioOf(AudioSide(s).flight), s.sent + AudioOf(AudioSide(s').flight), 0, Queued(s));
  }

  lemma {:induction false} LlmOrders(p: Setup, s: State)
    requires InOrder(AudioSide(s))
    ensures InOrder(AudioSide(LlmStep(p, s)))
  {
    hide CallbackStep;
    hide Append;
    if s.llm.LlmCall? {
      CallbackOrders(p, s, s.llm.callback);
      FlushOrders(s, LlmStep(p, s));
    } else {
      assert AudioSide(LlmStep(p, s)) == AudioSide(s);
    }
  }

  lemma {:induction false} OutsideOrders(p: Setup, s: State)
    requires InOrder(AudioSide(s))
    ensures InOrder(AudioSide(OutsideStep(p, s)))
  {
    if s.session.cancelling.Some? {
      CallbackOrders(p, s, s.session.cancelling.value);
      FlushOrders(s, OutsideStep(p, s));
    } else {
      OutsideTouchesTheFence(p, s);
    }
  }

  lemma {:induction false} ChunkMoveOrders(v: AudioView, v': AudioView)
    requires ChunkMove(v, v') && InOrder(v)
    ensures InOrder(v')
  {
    var i := Audio(v'.queued, v.unqueued[0]);
    AudioOfAppend(v.flight, i);
    var out := v.sent + AudioOf(v.flight);
    assert v'.sent + AudioOf(v'.flight) == out + [(i.number, i.chunk)];
  }

  lemma {:induction false} FlightMoveOrders(v: AudioView, v': AudioView)
    requires FlightMove(v, v') && InOrder(v)
    ensures InOrder(v')
  {
    AudioOfAppend(v.flight, AudioEnd);
    assert v'.sent + AudioOf(v'.flight) == v.sent + AudioOf(v.flight);
  }

  /** The held item is dropped. */
  lemma {:induction false} DropOrders(v: AudioView, v': AudioView)
    requires InOrder(v) && v.flight != [] && v' == v.(flight := v.flight[1..])
    ensures InOrder(v')
  {
    var out, out' := v.sent + AudioOf(v.flight), v.sent + AudioOf(v'.flight);
    if v.flight[0].Audio? {
      assert out' == out[..|v.sent|] + out[|v.sent| + 1..];
      ShorterAscends(out, out', |v.sent|, v.queued);
    } else {
      assert out' == out;
    }
  }

  lemma {:induction false} TtsKeepsFlight(p: Setup, s: State)
    requires !s.tts.TtsPut? && !s.tts.TtsEnd? && !s.tts.TtsCall?
    ensures var s' := TtsStep(p, s);
      s'.audio == s.audio && s'.sent == s.sent && s'.transport == s.transport && Queued(s') == Queued(s)
  {
    hide Take;
    hide PhraseReady;
    hide AllBlank;
  }

  lemma {:induction false} TtsEndOrders(p: Setup, s: State)
    requires Taking(s) && InOrder(AudioSide(s)) && s.tts.TtsEnd?
    ensures InOrder(AudioSide(TtsStep(p, s)))
  {
    var v, v' := AudioSide(s), AudioSide(TtsStep(p, s));
    Puts(p.audioConfig, s.audio, AudioEnd, 0.0);
    assert v'.flight == v.flight + [AudioEnd];
    FlightMoveOrders(v, v');
  }

  lemma {:induction false} TtsOrders(p: Setup, s: State)
    requires Taking(s) && InOrder(AudioSide(s))
    ensures InOrder(AudioSide(TtsStep(p, s)))
  {
    if s.tts.TtsPut? {
      TtsPutMoves(p, s);
      ChunkMoveOrders(AudioSide(s), AudioSide(TtsStep(p, s)));
    } else if s.tts.TtsEnd? {
      TtsEndOrders(p, s);
    } else if s.tts.TtsCall? {
      CallbackOrders(p, s, s.tts.callback);
      FlushOrders(s, TtsStep(p, s));
    } else {
      TtsKeepsFlight(p, s);
    }
  }

  lemma {:induction false} TransportOrders(p: Setup, s: State)
    requires InOrder(AudioSide(s))
    ensures InOrder(AudioSide(TransportStep(p, s)))
  {
    hide Take;
    var v, v' := AudioSide(s), AudioSide(TransportStep(p, s));
    match s.transport
    case TransportGet =>
      if s.audio.items != [] {
        Takes(p.audioConfig, s.audio);
        assert v'.flight == v.flight;
      }
    case TransportHas(item) =>
      assert v.flight[0] == item && v.flight[1..] == v'.flight;
      if v'.sent == v.sent {
        DropOrders(v, v');
      } else {
        FlightMoveOrders(v, v');
      }
    case _ =>
  }

  lemma {:induction false} NextOrders(p: Setup, s: State, t: Task)
    requires Taking(s) && InOrder(AudioSide(s))
    ensures InOrder(AudioSide(Next(p, s, t)))
  {
    hide LlmStep;
    hide TtsStep;
    hide TransportStep;
    hide OutsideStep;
    hide InOrder;
    match t
    case LlmTask => LlmOrders(p, s);
    case TtsTask => TtsOrders(p, s);
    case TransportTask => TransportOrders(p, s);
    case OutsideTask => OutsideOrders(p, s);
  }

  /** After any run, cancelled or not, the numbers sent ascend strictly. */
  lemma {:induction false} SentInOrder(p: Setup, s: State, tasks: seq<Task>)
    requires Init(p, s)
    ensures InOrder(AudioSide(Run(p, s, tasks)))
    ensures forall j, k :: 0 <= j < k < |Run(p, s, tasks).sent| ==> Run(p, s, tasks).sent[j].0 < Run(p, s, tasks).sent[k].0
  {
    hide Next;
    if tasks != [] {
      SentInOrder(p, s, tasks[..|tasks| - 1]);
      RunIsSafe(p, s, tasks[..|tasks| - 1]);
      NextOrders(p, Run(p, s, tasks[..|tasks| - 1]), tasks[|tasks| - 1]);
    }
    var v := AudioSide(Run(p, s, tasks));
    assert forall k :: 0 <= k < |v.sent| ==> (v.sent + AudioOf(v.flight))[k] == v.sent[k];
  }
}
