/** Which frames of a turn reach speech recognition. */
module TurnAudio {
  import opened Turns
  import opened TurnDetector

  function Sounds(h: seq<Frame>): seq<Audio> {
    seq(|h|, k requires 0 <= k < |h| => h[k].audio)
  }

  /** The frame that opened the turn sounds like an earlier frame of the run it completes. */
  ghost predicate Echoed(c: Settings, h: seq<Frame>)
    requires Open(c, h)
  {
    h[OpenedAt(c, h)].audio in Sounds(h[Start(c, h)..OpenedAt(c, h)])
  }

  /** The audio forwarded for the open turn: its frames, less an opening frame found among the pending ones. */
  ghost function Forwarded(c: Settings, h: seq<Frame>): seq<Audio>
    requires Open(c, h)
  {
    var i, q := Start(c, h), OpenedAt(c, h);
    Sounds(h[i..q]) + (if Echoed(c, h) then [] else [h[q].audio]) + Sounds(h[q + 1..])
  }

  /** Appends the buffered frames to the speech-recognition stream, one by one. */
  method AppendAll(pending: seq<Audio>) returns (appended: seq<Audio>)
    ensures appended == pending
  {
    appended := [];
    for k := 0 to |pending|
      invariant appended == pending[..k]
    {
      appended := appended + [pending[k]];
    }
  }

  /** The part of the session that buffers and forwards a user's audio. */
  class TurnAudioBuffer {
    const detector: SmoothedTurnDetector
    /** Frames heard while a turn may be starting. */
    var pending: seq<Audio>
    /** What was appended to the speech-recognition stream for the turn. */
    var forwarded: seq<Audio>

    ghost predicate Valid()
      reads this, detector
    {
      && detector.Valid()
      && pending == Run(detector.settings, detector.history)
      && (Open(detector.settings, detector.history) ==> forwarded == Forwarded(detector.settings, detector.history))
    }

    constructor (settings: Settings)
      ensures Valid() && fresh(detector) && detector.history == [] && detector.settings == settings
    {
      detector := new SmoothedTurnDetector(settings);
      pending, forwarded := [], [];
      new;
      assert !Open(settings, []);
    }

    /** Handles one frame; when it ends a turn, the forwarded audio is that of the turn just closed. */
    method HandleAudio(frame: Frame) returns (u: TurnUpdate)
      requires Valid()
      modifies this, detector
      ensures Valid() && detector.history == old(detector.history) + [frame]
      ensures u.ended <==> Ended(detector.settings, detector.history)
      ensures u.ended ==> forwarded == Forwarded(detector.settings, old(detector.history))
    {
      hide Forwarded;
      hide Start;
      hide Started;
      hide Ended;
      hide Run;
      hide StateOf;
      hide Open;
      ghost var c, h := detector.settings, detector.history;
      AudioGrows(c, h, frame);
      u := detector.Update(frame);
      if u.state == Quiet && !u.ended {
        pending := [];
      }
      if u.state == Starting {
        pending := pending + [frame.audio];
      }
      if u.started {
        if frame.audio !in pending {
          pending := pending + [frame.audio];
        }
        forwarded := AppendAll(pending);
        pending := [];
      } else if u.collectAudio && u.state != Starting {
        forwarded := forwarded + [frame.audio];
      }
    }
  }

  lemma {:induction false} SoundsExtend(h: seq<Frame>, frame: Frame, i: nat)
    requires i <= |h|
    ensures Sounds((h + [frame])[i..]) == Sounds(h[i..]) + [frame.audio]
  {
  }

  /** The audio of the run that may become a turn, without the newest frame. */
  ghost function Run(c: Settings, h: seq<Frame>): seq<Audio> {
    if StateOf(c, h) == Starting then Sounds(h[Start(c, h)..]) else []
  }

  lemma {:induction false} RunGrows(c: Settings, h: seq<Frame>, frame: Frame)
    requires frame.speech && StateOf(c, h) in {Quiet, Starting}
    ensures Start(c, h + [frame]) <= |h|
    ensures Sounds(h[Start(c, h + [frame])..]) == Run(c, h)
    ensures Sounds((h + [frame])[Start(c, h + [frame])..]) == Run(c, h) + [frame.audio]
  {
    TurnGrows(c, h, frame);
    SoundsExtend(h, frame, Start(c, h + [frame]));
  }

  lemma {:induction false} OpenMatches(c: Settings, h: seq<Frame>)
    ensures Open(c, h) <==> StateOf(c, h) in {Speaking, Stopping}
  {
    if h == [] {
      assert !Open(c, h);
    }
  }

  lemma {:induction false} TurnOpens(c: Settings, h: seq<Frame>, frame: Frame)
    requires Started(c, h + [frame])
    ensures Open(c, h + [frame])
    ensures Forwarded(c, h + [frame]) == Run(c, h) + (if frame.audio in Run(c, h) then [] else [frame.audio])
  {
    var all := h + [frame];
    assert all[..|all| - 1] == h;
    OpenStep(c, all);
    NextState(c, h, frame);
    RunGrows(c, h, frame);
    assert all[Start(c, all)..|h|] == h[Start(c, all)..];
    assert all[|h| + 1..] == [];
  }

  lemma {:induction false} TurnContinues(c: Settings, h: seq<Frame>, frame: Frame)
    requires Open(c, h) && Open(c, h + [frame])
    ensures Forwarded(c, h + [frame]) == Forwarded(c, h) + [frame.audio]
  {
    var all := h + [frame];
    assert all[..|all| - 1] == h;
    var i, q := Start(c, h), OpenedAt(c, h);
    assert Start(c, all) == i && OpenedAt(c, all) == q;
    assert all[i..q] == h[i..q] && all[q] == h[q];
    SoundsExtend(h, frame, q + 1);
  }

  /** How one more frame moves the pending and the forwarded audio. */
  lemma {:induction false} AudioGrows(c: Settings, h: seq<Frame>, frame: Frame)
    ensures Run(c, h + [frame]) == if StateOf(c, h + [frame]) == Starting then Run(c, h) + [frame.audio] else []
    ensures Open(c, h) ==> Run(c, h) == []
    ensures Started(c, h + [frame]) ==> StateOf(c, h + [frame]) == Speaking
    ensures Started(c, h + [frame]) ==> Open(c, h + [frame])
    ensures Started(c, h + [frame]) ==>
      Forwarded(c, h + [frame]) == Run(c, h) + (if frame.audio in Run(c, h) then [] else [frame.audio])
    ensures Open(c, h + [frame]) && !Started(c, h + [frame]) ==>
      Open(c, h) && Forwarded(c, h + [frame]) == Forwarded(c, h) + [frame.audio]
    ensures Ended(c, h + [frame]) ==> Open(c, h) && StateOf(c, h + [frame]) == Quiet
    ensures Open(c, h + [frame]) <==> StateOf(c, h + [frame]) in {Speaking, Stopping}
  {
    var all := h + [frame];
    assert all[..|all| - 1] == h;
    hide Forwarded;
    hide Start;
    OpenMatches(c, h);
    OpenMatches(c, all);
    NextState(c, h, frame);
    OpenStep(c, all);
    if StateOf(c, all) == Starting {
      RunGrows(c, h, frame);
    }
    if Started(c, all) {
      TurnOpens(c, h, frame);
    } else if Open(c, all) {
      TurnContinues(c, h, frame);
    }
  }

  // -------------------------------------------------------------- exactness

  /**
   * The forwarded audio is exactly the turn's frames, each once and in order, if and only if the frame that
   * opened the turn does not sound like one before it in its run: the original tells frames apart by value.
   */
  lemma {:induction false} ForwardedIsTheTurnUnlessEchoed(c: Settings, h: seq<Frame>)
    requires Open(c, h)
    ensures Forwarded(c, h) == Sounds(h[Start(c, h)..]) <==> !Echoed(c, h)
  {
    var i, q := Start(c, h), OpenedAt(c, h);
    var before, opening, after := Sounds(h[i..q]), h[q].audio, Sounds(h[q + 1..]);
    SoundsSplit(h, i, q);
    hide Sounds;
    assert |before + [] + after| < |before + [opening] + after|;
  }

  lemma {:induction false} SoundsSplit(h: seq<Frame>, i: nat, q: nat)
    requires i <= q < |h|
    ensures Sounds(h[i..]) == Sounds(h[i..q]) + [h[q].audio] + Sounds(h[q + 1..])
  {
  }

  /** Two equal 20 ms frames of speech, with 40 ms needed: the turn opens with one frame of audio missing. */
  lemma {:induction false} EqualFramesLoseAudio()
    ensures var c, f := Settings(40.0, 700.0), Frame([1, 2], true, 20.0);
      Open(c, [f, f]) && Forwarded(c, [f, f]) == [f.audio] && Sounds([f, f]) == [f.audio, f.audio]
  {
    var c, f := Settings(40.0, 700.0), Frame([1, 2], true, 20.0);
    var h := [f, f];
    assert h[..1] == [f] && [f][..0] == [] && !Open(c, []);
    assert TrailingMs([], true) == 0.0 && Trailing([], true) == 0;
    assert TrailingMs([f], true) == 20.0;
    assert h[1].speech && TrailingMs(h, true) == TrailingMs(h[..1], true) + 20.0;
    OpenStep(c, [f]);
    OpenStep(c, h);
    assert Trailing([f], true) == 1 && Trailing(h, true) == 2;
    assert Start(c, h) == 0 && OpenedAt(c, h) == 1;
    assert h[0..1] == [f] && h[2..] == [];
    assert f.audio == Sounds([f])[0];
  }
}
