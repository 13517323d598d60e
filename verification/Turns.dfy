/** When a user's turn starts and ends, said of the whole history of classified frames. */
module Turns {

  type Audio = seq<bv8>

  /** One audio frame with the verdict of the voice-activity provider. */
  datatype Frame = Frame(audio: Audio, speech: bool, duration: real)

  datatype Settings = Settings(minSpeech: real, endSilence: real)

  ghost predicate Timed(h: seq<Frame>) {
    forall k :: 0 <= k < |h| ==> h[k].duration >= 0.0
  }

  /** Total duration. */
  function Ms(h: seq<Frame>): real {
    if h == [] then 0.0 else Ms(h[..|h| - 1]) + h[|h| - 1].duration
  }

  /** Total duration of the frames that are speech. */
  function SpeechMs(h: seq<Frame>): real {
    if h == [] then 0.0
    else SpeechMs(h[..|h| - 1]) + (if h[|h| - 1].speech then h[|h| - 1].duration else 0.0)
  }

  /** How many frames are speech. */
  function SpeechFrames(h: seq<Frame>): nat {
    if h == [] then 0 else SpeechFrames(h[..|h| - 1]) + (if h[|h| - 1].speech then 1 else 0)
  }

  /** The length of the trailing run of frames with the given verdict. */
  function Trailing(h: seq<Frame>, speech: bool): (n: nat)
    ensures n <= |h|
  {
    if h == [] || h[|h| - 1].speech != speech then 0 else Trailing(h[..|h| - 1], speech) + 1
  }

  /** The duration of that run. */
  function TrailingMs(h: seq<Frame>, speech: bool): real {
    if h == [] || h[|h| - 1].speech != speech then 0.0
    else TrailingMs(h[..|h| - 1], speech) + h[|h| - 1].duration
  }

  /** The history ends in enough speech to start a turn. */
  predicate Qualifies(c: Settings, h: seq<Frame>) {
    Trailing(h, true) >= 1 && TrailingMs(h, true) >= c.minSpeech
  }

  /** The history ends in enough silence to end one: at least two frames of it. */
  predicate Expires(c: Settings, h: seq<Frame>) {
    Trailing(h, false) >= 2 && TrailingMs(h, false) >= c.endSilence
  }

  /** A turn is open: some past moment qualified and no later one expired. */
  ghost predicate Open(c: Settings, h: seq<Frame>) {
    exists k :: 0 <= k <= |h| && OpenSince(c, h, k)
  }

  ghost predicate OpenSince(c: Settings, h: seq<Frame>, k: nat)
    requires k <= |h|
  {
    Qualifies(c, h[..k]) && forall j :: k < j <= |h| ==> !Expires(c, h[..j])
  }

  /** The last frame starts a turn. */
  ghost predicate Started(c: Settings, h: seq<Frame>) {
    h != [] && !Open(c, h[..|h| - 1]) && Qualifies(c, h)
  }

  /** The last frame ends a turn. */
  ghost predicate Ended(c: Settings, h: seq<Frame>) {
    h != [] && Open(c, h[..|h| - 1]) && Expires(c, h)
  }

  lemma {:induction false} OpenStep(c: Settings, h: seq<Frame>)
    requires h != []
    ensures Open(c, h) <==> Qualifies(c, h) || (Open(c, h[..|h| - 1]) && !Expires(c, h))
  {
    var n := |h|;
    var front := h[..n - 1];
    assert h[..n] == h;
    if Qualifies(c, h) {
      assert OpenSince(c, h, n);
    }
    forall k | 0 <= k < n
      ensures OpenSince(c, h, k) <==> OpenSince(c, front, k) && !Expires(c, h)
    {
      assert forall j :: 0 <= j < n ==> front[..j] == h[..j];
    }
  }

  /** Where the turn's frames begin: at the speech run that opened it, or that may yet open it. */
  ghost function Start(c: Settings, h: seq<Frame>): (n: nat)
    ensures n <= |h|
  {
    if h == [] then 0
    else if Open(c, h[..|h| - 1]) then Start(c, h[..|h| - 1])
    else |h| - Trailing(h, true)
  }

  /** Which frame opened the turn. */
  ghost function OpenedAt(c: Settings, h: seq<Frame>): (n: nat)
    requires Open(c, h)
    ensures Start(c, h) <= n < |h|
  {
    OpenStep(c, h);
    if Open(c, h[..|h| - 1]) then OpenedAt(c, h[..|h| - 1]) else |h| - 1
  }

  // ------------------------------------------------------------- properties

  /** A run of the trailing `n` frames sums to its own duration. */
  lemma {:induction false} TrailingIsSlice(h: seq<Frame>, speech: bool)
    ensures var n := Trailing(h, speech);
      && Ms(h[|h| - n..]) == TrailingMs(h, speech)
      && (speech ==> SpeechMs(h[|h| - n..]) == TrailingMs(h, true))
  {
    var n := Trailing(h, speech);
    if n > 0 {
      var front := h[..|h| - 1];
      TrailingIsSlice(front, speech);
      var run := h[|h| - n..];
      assert run[..|run| - 1] == front[|front| - (n - 1)..];
      assert run[|run| - 1] == h[|h| - 1];
    }
  }

  lemma {:induction false} SumsExtend(h: seq<Frame>, i: nat)
    requires i < |h|
    ensures Ms(h[i..]) == Ms(h[..|h| - 1][i..]) + h[|h| - 1].duration
    ensures SpeechMs(h[i..]) == SpeechMs(h[..|h| - 1][i..]) + (if h[|h| - 1].speech then h[|h| - 1].duration else 0.0)
    ensures SpeechFrames(h[i..]) == SpeechFrames(h[..|h| - 1][i..]) + (if h[|h| - 1].speech then 1 else 0)
  {
    var slice := h[i..];
    assert slice[..|slice| - 1] == h[..|h| - 1][i..];
  }

  /** The turn's frames hold the speech that opened it, and end in the trailing silence. */
  lemma {:induction false} OpenTurnHasItsSpeech(c: Settings, h: seq<Frame>)
    requires Timed(h) && Open(c, h)
    ensures Start(c, h) + Trailing(h, false) < |h|
    ensures SpeechMs(h[Start(c, h)..]) >= c.minSpeech
    ensures Ms(h[Start(c, h)..]) >= SpeechMs(h[Start(c, h)..]) + TrailingMs(h, false)
  {
    var front := h[..|h| - 1];
    OpenStep(c, h);
    if Open(c, front) {
      OpenTurnHasItsSpeech(c, front);
      SumsExtend(h, Start(c, h));
      SilenceIsWhole(front, Start(c, h));
    } else {
      TrailingIsSlice(h, true);
    }
  }

  lemma {:induction false} SilenceIsWhole(h: seq<Frame>, i: nat)
    requires Timed(h) && i <= |h|
    ensures Ms(h[i..]) >= SpeechMs(h[i..]) >= 0.0
  {
    if i < |h| {
      SilenceIsWhole(h[..|h| - 1], i);
      SumsExtend(h, i);
    }
  }

  /**
   * A turn that ends had at least the minimum of speech, and lasted at least that and the silence that ended
   * it, the ending frame included.
   */
  lemma {:induction false} EndedTurnIsLongEnough(c: Settings, h: seq<Frame>)
    requires Timed(h) && Ended(c, h)
    ensures SpeechMs(h[Start(c, h)..]) >= c.minSpeech
    ensures Ms(h[Start(c, h)..]) >= c.minSpeech + c.endSilence
  {
    var front := h[..|h| - 1];
    OpenTurnHasItsSpeech(c, front);
    SumsExtend(h, Start(c, h));
  }

  /** The turn events of a history, in order. */
  datatype Event = TurnStarted | TurnEnded

  ghost function Events(c: Settings, h: seq<Frame>): seq<Event> {
    if h == [] then []
    else Events(c, h[..|h| - 1])
         + (if Started(c, h) then [TurnStarted] else if Ended(c, h) then [TurnEnded] else [])
  }

  /** Starts and ends alternate, a start first, and a turn is open exactly after a start. */
  lemma {:induction false} EventsAlternate(c: Settings, h: seq<Frame>)
    ensures forall k :: 0 <= k < |Events(c, h)| ==> (Events(c, h)[k] == TurnStarted <==> k % 2 == 0)
    ensures Open(c, h) <==> |Events(c, h)| % 2 == 1
  {
    if h == [] {
      assert !Open(c, h);
    } else {
      EventsAlternate(c, h[..|h| - 1]);
      OpenStep(c, h);
    }
  }

  // ----------------------------------------------------------- in milliseconds

  /** Frame `k` begins the run of equal verdicts that the history ends in. */
  ghost predicate IsLastRun(h: seq<Frame>, k: int, speech: bool) {
    && 0 <= k < |h| && (forall j :: k <= j < |h| ==> h[j].speech == speech)
    && (k > 0 ==> h[k - 1].speech != speech)
  }

  /** The first `n` frames end in at least the minimum of speech. */
  ghost predicate Spoken(c: Settings, h: seq<Frame>, n: nat)
    requires n <= |h|
  {
    exists k :: IsLastRun(h[..n], k, true) && Ms(h[k..n]) >= c.minSpeech
  }

  /** The first `n` frames end in at least two of silence, as long as ends a turn. */
  ghost predicate Silent(c: Settings, h: seq<Frame>, n: nat)
    requires n <= |h|
  {
    exists k :: IsLastRun(h[..n], k, false) && n - k >= 2 && Ms(h[k..n]) >= c.endSilence
  }

  lemma {:induction false} TrailingIsTheLastRun(h: seq<Frame>, speech: bool)
    ensures Trailing(h, speech) > 0 ==> IsLastRun(h, |h| - Trailing(h, speech), speech)
    ensures forall k :: IsLastRun(h, k, speech) ==> k == |h| - Trailing(h, speech)
  {
    if h != [] && h[|h| - 1].speech == speech {
      var front := h[..|h| - 1];
      TrailingIsTheLastRun(front, speech);
      assert forall k :: 0 <= k < |front| ==> front[k] == h[k];
      forall k | IsLastRun(h, k, speech) ensures k == |h| - Trailing(h, speech) {
        if k < |front| {
          assert IsLastRun(front, k, speech);
        } else if Trailing(front, speech) > 0 {
          assert front[|front| - 1].speech == speech;
        }
      }
    }
  }

  lemma {:induction false} QualifiesIsSpoken(c: Settings, h: seq<Frame>, n: nat)
    requires n <= |h|
    ensures Qualifies(c, h[..n]) <==> Spoken(c, h, n)
  {
    var now := h[..n];
    var m := Trailing(now, true);
    TrailingIsTheLastRun(now, true);
    TrailingIsSlice(now, true);
    assert now[n - m..] == h[n - m..n];
    hide Trailing;
    hide TrailingMs;
    hide IsLastRun;
    hide Ms;
    if Spoken(c, h, n) {
      var k :| IsLastRun(now, k, true) && Ms(h[k..n]) >= c.minSpeech;
      RunIsInside(now, k, true);
    }
  }

  lemma {:induction false} ExpiresIsSilent(c: Settings, h: seq<Frame>, n: nat)
    requires n <= |h|
    ensures Expires(c, h[..n]) <==> Silent(c, h, n)
  {
    var now := h[..n];
    var m := Trailing(now, false);
    TrailingIsTheLastRun(now, false);
    TrailingIsSlice(now, false);
    assert now[n - m..] == h[n - m..n];
    hide Trailing;
    hide TrailingMs;
    hide IsLastRun;
    hide Ms;
  }

  lemma {:induction false} RunIsInside(h: seq<Frame>, k: int, speech: bool)
    requires IsLastRun(h, k, speech)
    ensures 0 <= k < |h|
  {
  }

  /**
   * A turn starts with the frame that completes enough speech, unless one is open; it ends with the frame that
   * completes enough silence, at least two frames of it, after enough speech and with no such silence in between.
   */
  lemma {:induction false} TurnsAreTold(c: Settings, h: seq<Frame>)
    requires h != []
    ensures Ended(c, h) <==>
      Silent(c, h, |h|) && exists n: nat :: n < |h| && Spoken(c, h, n) && forall j :: n < j < |h| ==> !Silent(c, h, j)
    ensures Started(c, h) <==>
      Spoken(c, h, |h|) && forall n: nat :: n < |h| && Spoken(c, h, n) ==> exists j :: n < j < |h| && Silent(c, h, j)
  {
    var front := h[..|h| - 1];
    assert h[..|h|] == h;
    forall n | 0 <= n <= |h|
      ensures (Qualifies(c, h[..n]) <==> Spoken(c, h, n)) && (Expires(c, h[..n]) <==> Silent(c, h, n))
    {
      QualifiesIsSpoken(c, h, n);
      ExpiresIsSilent(c, h, n);
    }
    assert forall n :: 0 <= n <= |front| ==> front[..n] == h[..n];
    hide Qualifies;
    hide Expires;
    hide Spoken;
    hide Silent;
    assert Open(c, front) <==>
      exists n: nat :: n < |h| && Spoken(c, h, n) && forall j :: n < j < |h| ==> !Silent(c, h, j) by {
      if Open(c, front) {
        var n :| 0 <= n <= |front| && OpenSince(c, front, n);
        assert Spoken(c, h, n);
      }
      if n: nat :| n < |h| && Spoken(c, h, n) && forall j :: n < j < |h| ==> !Silent(c, h, j) {
        assert OpenSince(c, front, n);
      }
    }
    hide Open;
  }
}
