/** Which response holds the floor while one is produced, told by what the tasks and the session have done. */
module PipelineFloor {
  import opened Options
  import opened Flow
  import opened Responses
  import opened Pipeline
  import opened PipelineSafety

  /** The step is the session's, and handles this event. */
  predicate Handles(s: State, t: Task, e: Outside) {
    t == OutsideTask && s.session.cancelling == None && s.session.outside != [] && s.session.outside[0] == e
  }

  /** The step runs the callback of a hard limit. */
  predicate Reacts(s: State, t: Task) {
    match t
    case LlmTask => s.llm.LlmCall? && s.llm.callback == Announce
    case TtsTask => s.tts.TtsCall? && s.tts.callback == Announce
    case TransportTask => false
    case OutsideTask => s.session.cancelling == Some(Announce)
  }

  /** A known response is cancelled from outside, or because it holds the floor when a hard limit is reacted to. */
  predicate Cancels(s: State, t: Task, id: Id) {
    id in s.fence.turns && (Handles(s, t, CancelFromOutside(id)) || (Reacts(s, t) && s.fence.active == Some(id)))
  }

  /** A known response that is not cancelled takes the floor back. */
  predicate Takes(s: State, t: Task, id: Id) {
    Handles(s, t, RestoreFromOutside(id)) && id in s.fence.turns && id !in s.fence.cancelled
  }

  /** The response is played out: it is reported played after all of it was sent, or it is sent after that report. */
  predicate PlaysOut(p: Setup, s: State, t: Task, id: Id) {
    || (Handles(s, t, PlaybackFinished(id)) && (id == p.response ==> s.transport == TransportDone))
    || (id == p.response && t == TransportTask && s.transport == TransportHas(AudioEnd) && s.session.playbackDone)
  }

  ghost predicate Loses(p: Setup, s: State, t: Task, id: Id) {
    Cancels(s, t, id) || PlaysOut(p, s, t, id) || exists other: Id :: other != id && Takes(s, t, other)
  }

  // ------------------------------------------------------------------ one step

  lemma {:induction false} CallbackTells(p: Setup, s: State, callback: Callback, id: Id)
    requires Fenced(s.fence)
    ensures var s' := CallbackStep(p, s, callback).0;
      && s' == s.(fence := s'.fence, text := s'.text, audio := s'.audio)
      && s'.fence.turns == s.fence.turns
      && (id in s'.fence.cancelled <==> id in s.fence.cancelled || (callback == Announce && s.fence.active == Some(id)))
      && s'.fence.active == if callback == Announce then None else s.fence.active
  {
    hide Flush;
  }

  /** What a step does to a response's hold of the floor, its cancellation and the report of its playback. */
  ghost predicate Tells(p: Setup, s: State, t: Task, s': State, id: Id) {
    && s'.fence.turns == s.fence.turns
    && (id in s'.fence.cancelled <==> id in s.fence.cancelled || Cancels(s, t, id))
    && (s'.fence.active == Some(id) <==> Takes(s, t, id) || (s.fence.active == Some(id) && !Loses(p, s, t, id)))
    && (s'.session.playbackDone <==>
          Handles(s, t, PlaybackFinished(p.response)) || (s.session.playbackDone && !Takes(s, t, p.response)))
  }

  lemma {:induction false} LlmTells(p: Setup, s: State, id: Id)
    requires Fenced(s.fence)
    ensures Tells(p, s, LlmTask, LlmStep(p, s), id)
  {
    hide Append;
    if s.llm.LlmCall? {
      CallbackTells(p, s, s.llm.callback, id);
    }
    hide CallbackStep;
  }

  lemma {:induction false} TtsTells(p: Setup, s: State, id: Id)
    requires Fenced(s.fence)
    ensures Tells(p, s, TtsTask, TtsStep(p, s), id)
  {
    hide Append;
    hide Take;
    hide PhraseReady;
    hide AllBlank;
    if s.tts.TtsCall? {
      CallbackTells(p, s, s.tts.callback, id);
    }
    hide CallbackStep;
  }

  lemma {:induction false} TransportTells(p: Setup, s: State, id: Id)
    requires Fenced(s.fence)
    ensures Tells(p, s, TransportTask, TransportStep(p, s), id)
  {
    hide Take;
  }

  lemma {:induction false} CancelTells(p: Setup, s: State, e: Id, id: Id)
    requires Fenced(s.fence) && Handles(s, OutsideTask, CancelFromOutside(e))
    ensures Tells(p, s, OutsideTask, OutsideStep(p, s), id)
  {
    assert forall other :: !Takes(s, OutsideTask, other);
  }

  lemma {:induction false} RestoreTells(p: Setup, s: State, e: Id, id: Id)
    requires Fenced(s.fence) && Handles(s, OutsideTask, RestoreFromOutside(e))
    ensures Tells(p, s, OutsideTask, OutsideStep(p, s), id)
  {
    assert Loses(p, s, OutsideTask, id) <==> e != id && Takes(s, OutsideTask, e);
    hide Loses;
  }

  lemma {:induction false} PlaybackTells(p: Setup, s: State, e: Id, id: Id)
    requires Fenced(s.fence) && Handles(s, OutsideTask, PlaybackFinished(e))
    ensures Tells(p, s, OutsideTask, OutsideStep(p, s), id)
  {
    assert forall other :: !Takes(s, OutsideTask, other);
  }

  lemma {:induction false} SessionCallbackTells(p: Setup, s: State, id: Id)
    requires Fenced(s.fence) && s.session.cancelling.Some?
    ensures Tells(p, s, OutsideTask, OutsideStep(p, s), id)
  {
    CallbackTells(p, s, s.session.cancelling.value, id);
    hide CallbackStep;
  }

  lemma {:induction false} OutsideTells(p: Setup, s: State, id: Id)
    requires Fenced(s.fence) && Enabled(p, s, OutsideTask)
    ensures Tells(p, s, OutsideTask, OutsideStep(p, s), id)
  {
    hide OutsideStep;
    hide Tells;
    if s.session.cancelling.Some? {
      SessionCallbackTells(p, s, id);
    } else {
      match s.session.outside[0]
      case CancelFromOutside(e) => CancelTells(p, s, e, id);
      case RestoreFromOutside(e) => RestoreTells(p, s, e, id);
      case PlaybackFinished(e) => PlaybackTells(p, s, e, id);
    }
  }

  lemma {:induction false} NextTells(p: Setup, s: State, t: Task, id: Id)
    requires Fenced(s.fence)
    ensures Tells(p, s, t, Next(p, s, t), id)
  {
    match t
    case LlmTask => LlmTells(p, s, id);
    case TtsTask => TtsTells(p, s, id);
    case TransportTask => TransportTells(p, s, id);
    case OutsideTask => if Enabled(p, s, OutsideTask) { OutsideTells(p, s, id); }
    hide LlmStep;
    hide TtsStep;
    hide TransportStep;
    hide OutsideStep;
  }

  // ---------------------------------------------------------------- every run

  /** The state step `i` of a run was taken in. */
  function At(p: Setup, s: State, tasks: seq<Task>, i: nat): State
    requires i <= |tasks|
  {
    Run(p, s, tasks[..i])
  }

  ghost predicate WasCancelled(p: Setup, s: State, tasks: seq<Task>, id: Id) {
    exists i :: 0 <= i < |tasks| && Cancels(At(p, s, tasks, i), tasks[i], id)
  }

  /** Nothing from step `i` on took the floor from the response. */
  ghost predicate KeptFrom(p: Setup, s: State, tasks: seq<Task>, id: Id, i: nat) {
    forall j :: i <= j < |tasks| ==> !Loses(p, At(p, s, tasks, j), tasks[j], id)
  }

  ghost predicate TookAt(p: Setup, s: State, tasks: seq<Task>, id: Id, i: nat) {
    i < |tasks| && Takes(At(p, s, tasks, i), tasks[i], id)
  }

  /** The response had the floor at the start, or took it back, and has not lost it since. */
  ghost predicate Holds(p: Setup, s: State, tasks: seq<Task>, id: Id) {
    || (s.fence.active == Some(id) && KeptFrom(p, s, tasks, id, 0))
    || exists i: nat :: TookAt(p, s, tasks, id, i) && KeptFrom(p, s, tasks, id, i + 1)
  }

  ghost predicate PlayedAt(p: Setup, s: State, tasks: seq<Task>, i: nat) {
    i < |tasks| && Handles(At(p, s, tasks, i), tasks[i], PlaybackFinished(p.response))
  }

  /** The response was reported played, and was not put back in charge since. */
  ghost predicate Played(p: Setup, s: State, tasks: seq<Task>) {
    exists i: nat :: PlayedAt(p, s, tasks, i) && forall j: nat :: i < j ==> !TookAt(p, s, tasks, p.response, j)
  }

  lemma {:induction false} AtSnoc(p: Setup, s: State, tasks: seq<Task>, t: Task)
    ensures forall i :: 0 <= i <= |tasks| ==> At(p, s, tasks + [t], i) == At(p, s, tasks, i)
    ensures At(p, s, tasks, |tasks|) == Run(p, s, tasks)
  {
    assert forall i :: 0 <= i <= |tasks| ==> (tasks + [t])[..i] == tasks[..i];
    assert tasks[..|tasks|] == tasks;
    hide Run;
  }

  lemma {:induction false} CancelledSnoc(p: Setup, s: State, tasks: seq<Task>, t: Task, id: Id)
    ensures WasCancelled(p, s, tasks + [t], id) <==>
      WasCancelled(p, s, tasks, id) || Cancels(Run(p, s, tasks), t, id)
  {
    AtSnoc(p, s, tasks, t);
    hide At;
    hide Run;
    hide Cancels;
    var all := tasks + [t];
    assert all[|tasks|] == t && forall i :: 0 <= i < |tasks| ==> all[i] == tasks[i];
  }

  lemma {:induction false} HoldsSnoc(p: Setup, s: State, tasks: seq<Task>, t: Task, id: Id)
    ensures Holds(p, s, tasks + [t], id) <==>
      Takes(Run(p, s, tasks), t, id) || (Holds(p, s, tasks, id) && !Loses(p, Run(p, s, tasks), t, id))
  {
    AtSnoc(p, s, tasks, t);
    hide At;
    hide Run;
    hide Takes;
    hide Loses;
    var all, now := tasks + [t], Run(p, s, tasks);
    assert all[|tasks|] == t && forall i :: 0 <= i < |tasks| ==> all[i] == tasks[i];
    assert forall i: nat :: i <= |tasks| ==>
      (KeptFrom(p, s, all, id, i) <==> KeptFrom(p, s, tasks, id, i) && !Loses(p, now, t, id));
    assert forall i: nat :: TookAt(p, s, all, id, i) <==>
      TookAt(p, s, tasks, id, i) || (i == |tasks| && Takes(now, t, id));
    assert KeptFrom(p, s, all, id, |tasks| + 1);
    hide KeptFrom;
    hide TookAt;
    if Takes(now, t, id) {
      assert TookAt(p, s, all, id, |tasks|);
    }
    if Holds(p, s, all, id) && !(s.fence.active == Some(id) && KeptFrom(p, s, all, id, 0)) {
      var i: nat :| TookAt(p, s, all, id, i) && KeptFrom(p, s, all, id, i + 1);
      assert TookAt(p, s, tasks, id, i) ==> i < |tasks| by {
        TookInside(p, s, tasks, id, i);
      }
    }
    if exists i: nat :: TookAt(p, s, tasks, id, i) && KeptFrom(p, s, tasks, id, i + 1) {
      var i: nat :| TookAt(p, s, tasks, id, i) && KeptFrom(p, s, tasks, id, i + 1);
      TookInside(p, s, tasks, id, i);
      assert TookAt(p, s, all, id, i);
    }
  }

  lemma {:induction false} TookInside(p: Setup, s: State, tasks: seq<Task>, id: Id, i: nat)
    ensures TookAt(p, s, tasks, id, i) ==> i < |tasks|
  {
  }

  lemma {:induction false} PlayedSnoc(p: Setup, s: State, tasks: seq<Task>, t: Task)
    ensures Played(p, s, tasks + [t]) <==>
      || Handles(Run(p, s, tasks), t, PlaybackFinished(p.response))
      || (Played(p, s, tasks) && !Takes(Run(p, s, tasks), t, p.response))
  {
    AtSnoc(p, s, tasks, t);
    hide At;
    hide Run;
    var all, now := tasks + [t], Run(p, s, tasks);
    assert all[|tasks|] == t && forall i :: 0 <= i < |tasks| ==> all[i] == tasks[i];
    assert forall i: nat :: TookAt(p, s, all, p.response, i) <==>
      TookAt(p, s, tasks, p.response, i) || (i == |tasks| && Takes(now, t, p.response));
    assert forall i: nat :: TookAt(p, s, tasks, p.response, i) ==> i < |tasks|;
    assert forall i: nat :: PlayedAt(p, s, all, i) <==>
      PlayedAt(p, s, tasks, i) || (i == |tasks| && Handles(now, t, PlaybackFinished(p.response)));
    assert forall i: nat :: PlayedAt(p, s, tasks, i) ==> i < |tasks|;
    hide Takes;
    hide Handles;
    hide TookAt;
    hide PlayedAt;
    if Handles(now, t, PlaybackFinished(p.response)) {
      assert PlayedAt(p, s, all, |tasks|);
    } else if Played(p, s, tasks) && !Takes(now, t, p.response) {
      var i: nat :| PlayedAt(p, s, tasks, i) && forall j: nat :: i < j ==> !TookAt(p, s, tasks, p.response, j);
      assert PlayedAt(p, s, all, i);
    }
    if Played(p, s, all) && !Handles(now, t, PlaybackFinished(p.response)) {
      var i: nat :| PlayedAt(p, s, all, i) && forall j: nat :: i < j ==> !TookAt(p, s, all, p.response, j);
      assert PlayedAt(p, s, tasks, i);
      assert i < |tasks| && !TookAt(p, s, all, p.response, |tasks|);
    }
  }

  /**
   * In every interleaving, whatever the session does meanwhile: a response is cancelled exactly if it was cancelled
   * before, from outside, or for holding the floor when a hard limit was reacted to; it is active exactly if it had
   * or took the floor and neither lost it to a cancel or another response nor was played out since; and the
   * playback counts as done exactly from its report until the response is put back in charge.
   */
  lemma {:induction false} FloorIsTold(p: Setup, s: State, tasks: seq<Task>, id: Id)
    requires Init(p, s)
    ensures var now := Run(p, s, tasks);
      && now.fence.turns == s.fence.turns
      && (id in now.fence.cancelled <==> id in s.fence.cancelled || WasCancelled(p, s, tasks, id))
      && (now.fence.active == Some(id) <==> Holds(p, s, tasks, id))
      && (now.session.playbackDone <==> Played(p, s, tasks))
  {
    if tasks == [] {
      assert KeptFrom(p, s, tasks, id, 0);
    } else {
      var front, t := tasks[..|tasks| - 1], tasks[|tasks| - 1];
      assert tasks == front + [t];
      FloorIsTold(p, s, front, id);
      RunIsSafe(p, s, front);
      assert Fenced(Run(p, s, front).fence);
      NextTells(p, Run(p, s, front), t, id);
      CancelledSnoc(p, s, front, t, id);
      HoldsSnoc(p, s, front, t, id);
      PlayedSnoc(p, s, front, t);
      hide Next;
      hide WasCancelled;
      hide Holds;
      hide Played;
      hide Cancels;
      hide Takes;
      hide Loses;
      hide Handles;
    }
  }
}
