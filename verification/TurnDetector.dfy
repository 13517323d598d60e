/** The smoothed turn detector and the buffering of turn audio around it, proved against the frame history. */
module TurnDetector {
  import opened Turns

  datatype VadState = Quiet | Starting | Speaking | Stopping

  datatype TurnUpdate = TurnUpdate(
    previousState: VadState, state: VadState, started: bool, ended: bool, collectAudio: bool,
    speechMs: real, totalMs: real)

  /** The state the history asks for. */
  ghost function StateOf(c: Settings, h: seq<Frame>): VadState {
    if h == [] then Quiet
    else if h[|h| - 1].speech then (if Open(c, h) then Speaking else Starting)
    else if Open(c, h) then Stopping else Quiet
  }

  /** How one more frame moves the state, the runs and the turn events. */
  lemma {:induction false} NextState(c: Settings, h: seq<Frame>, frame: Frame)
    ensures TrailingMs(h + [frame], true) == if frame.speech then TrailingMs(h, true) + frame.duration else 0.0
    ensures !frame.speech && StateOf(c, h) == Stopping ==>
      TrailingMs(h + [frame], false) == TrailingMs(h, false) + frame.duration
    ensures !frame.speech && StateOf(c, h) == Speaking ==> TrailingMs(h + [frame], false) == frame.duration
    ensures Started(c, h + [frame]) <==>
      frame.speech && StateOf(c, h) in {Quiet, Starting} && TrailingMs(h + [frame], true) >= c.minSpeech
    ensures Ended(c, h + [frame]) <==>
      !frame.speech && StateOf(c, h) == Stopping && TrailingMs(h + [frame], false) >= c.endSilence
    ensures StateOf(c, h + [frame]) ==
      if frame.speech then
        if StateOf(c, h) in {Speaking, Stopping} || Started(c, h + [frame]) then Speaking else Starting
      else if StateOf(c, h) == Speaking || (StateOf(c, h) == Stopping && !Ended(c, h + [frame])) then Stopping
      else Quiet
  {
    var all := h + [frame];
    assert all[..|all| - 1] == h;
    OpenStep(c, all);
    if h == [] {
      assert !Open(c, h);
    } else {
      OpenStep(c, h);
    }
    assert frame.speech ==> Trailing(all, true) >= 1 && Trailing(all, false) == 0;
    assert !frame.speech ==> Trailing(all, true) == 0;
    assert !frame.speech && StateOf(c, h) == Speaking ==> Trailing(all, false) == 1;
    assert !frame.speech && StateOf(c, h) == Stopping ==> Trailing(all, false) >= 2;
  }

  class SmoothedTurnDetector {
    const settings: Settings
    var state: VadState
    var speechMs: real
    var silenceMs: real
    var turnSpeechMs: real
    var turnTotalMs: real
    var turnSpeechFrames: nat
    var turnTotalFrames: nat
    /** Every frame so far. */
    ghost var history: seq<Frame>

    ghost predicate Valid()
      reads this
    {
      && state == StateOf(settings, history)
      && speechMs == TrailingMs(history, true)
      && (state == Stopping ==> silenceMs == TrailingMs(history, false))
      && (state != Quiet ==> Totals(history))
    }

    /** The turn statistics are the sums over the turn's frames. */
    ghost predicate Totals(h: seq<Frame>)
      reads this
    {
      var turn := h[Start(settings, h)..];
      && turnTotalMs == Ms(turn) && turnTotalFrames == |turn|
      && turnSpeechMs == SpeechMs(turn) && turnSpeechFrames == SpeechFrames(turn)
    }

    constructor (settings: Settings)
      ensures Valid() && history == [] && this.settings == settings
    {
      this.settings := settings;
      state := Quiet;
      speechMs, silenceMs, turnSpeechMs, turnTotalMs := 0.0, 0.0, 0.0, 0.0;
      turnSpeechFrames, turnTotalFrames := 0, 0;
      history := [];
      new;
      assert !Open(settings, []);
    }

    method ResetTurnStats()
      modifies this`turnSpeechMs, this`turnTotalMs, this`turnSpeechFrames, this`turnTotalFrames
      ensures turnSpeechMs == turnTotalMs == 0.0 && turnSpeechFrames == turnTotalFrames == 0
    {
      turnSpeechMs, turnTotalMs := 0.0, 0.0;
      turnSpeechFrames, turnTotalFrames := 0, 0;
    }

    /** The state machine of `Update`, without the statistics of the new frame. */
    method Advance(frame: Frame) returns (started: bool, ended: bool)
      requires Valid()
      modifies this
      ensures history == old(history) + [frame]
      ensures state == StateOf(settings, history)
      ensures started <==> Started(settings, history)
      ensures ended <==> Ended(settings, history)
      ensures speechMs == TrailingMs(history, true)
      ensures state == Stopping ==> silenceMs == TrailingMs(history, false)
      ensures old(state) != Quiet && !(old(state) == Starting && state == Quiet) ==>
        turnSpeechMs == old(turnSpeechMs) && turnTotalMs == old(turnTotalMs) &&
        turnSpeechFrames == old(turnSpeechFrames) && turnTotalFrames == old(turnTotalFrames)
      ensures old(state) == Quiet && frame.speech ==>
        turnSpeechMs == turnTotalMs == 0.0 && turnSpeechFrames == turnTotalFrames == 0
    {
      hide StateOf;
      hide Started;
      hide Ended;
      hide TrailingMs;
      hide Totals;
      started, ended := false, false;
      NextState(settings, history, frame);
      history := history + [frame];
      if frame.speech {
        speechMs := speechMs + frame.duration;
        silenceMs := 0.0;
        if state == Quiet {
          state := Starting;
          ResetTurnStats();
        } else if state == Stopping {
          state := Speaking;
        }
        if state == Starting && speechMs >= settings.minSpeech {
          state := Speaking;
          started := true;
        }
      } else {
        speechMs := 0.0;
        if state == Starting {
          state := Quiet;
          ResetTurnStats();
        } else if state == Speaking {
          state := Stopping;
          silenceMs := frame.duration;
        } else if state == Stopping {
          silenceMs := silenceMs + frame.duration;
          if silenceMs >= settings.endSilence {
            state := Quiet;
            ended := true;
            silenceMs := 0.0;
          }
        }
      }
    }

    /**
     * Takes one frame: a turn starts and ends exactly when the whole history says so, and a turn in progress
     * or just ended is reported with the sums over its frames, the ending frame included.
     */
    method Update(frame: Frame) returns (u: TurnUpdate)
      requires Valid()
      modifies this
      ensures Valid()
      ensures history == old(history) + [frame]
      ensures u.previousState == StateOf(settings, old(history)) && u.state == StateOf(settings, history)
      ensures u.started <==> Started(settings, history)
      ensures u.ended <==> Ended(settings, history)
      ensures u.collectAudio <==> u.state != Quiet
      ensures u.collectAudio || u.ended ==>
        u.totalMs == Ms(history[Start(settings, history)..]) && u.speechMs == SpeechMs(history[Start(settings, history)..])
    {
      hide Start;
      hide StateOf;
      hide Started;
      hide Ended;
      hide TrailingMs;
      var previous := state;
      NextState(settings, history, frame);
      var started, ended := Advance(frame);
      var collect := state != Quiet;
      if collect || ended {
        turnTotalMs := turnTotalMs + frame.duration;
        turnTotalFrames := turnTotalFrames + 1;
        if frame.speech {
          turnSpeechMs := turnSpeechMs + frame.duration;
          turnSpeechFrames := turnSpeechFrames + 1;
        }
        TurnGrows(settings, old(history), frame);
      }
      u := TurnUpdate(previous, state, started, ended, collect, turnSpeechMs, turnTotalMs);
    }
  }

  /** A frame that belongs to a turn extends the slice of the turn it belongs to. */
  lemma {:induction false} TurnGrows(c: Settings, h: seq<Frame>, frame: Frame)
    requires StateOf(c, h) in {Speaking, Stopping} || frame.speech
    ensures var all := h + [frame];
      var i := Start(c, all);
      && (StateOf(c, h) != Quiet ==> i == Start(c, h)) && i <= |h|
      && (StateOf(c, h) == Quiet ==> i == |h|)
      && Ms(all[i..]) == Ms(h[i..]) + frame.duration
      && SpeechMs(all[i..]) == SpeechMs(h[i..]) + (if frame.speech then frame.duration else 0.0)
      && SpeechFrames(all[i..]) == SpeechFrames(h[i..]) + (if frame.speech then 1 else 0)
  {
    var all := h + [frame];
    assert all[..|all| - 1] == h;
    if h == [] {
      assert !Open(c, h);
    } else {
      OpenStep(c, h);
    }
    assert frame.speech ==> Trailing(all, true) == Trailing(h, true) + 1;
    assert StateOf(c, h) == Quiet ==> Trailing(h, true) == 0;
    SumsExtend(all, Start(c, all));
  }
}
