/** Worked examples on the demonstration song that backend/main.py stores
    (lines 62-71): eight cues of "Amazing Grace", already in time order. */
module Scenarios {
  import opened Common
  import opened Cues
  import opened Cursor
  import opened Scheduler
  import opened LiveTrigger

  /** The demonstration cue list. */
  function AmazingGrace(): (tc: seq<Cue>)
    ensures |tc| == 8
  {
    [ Cue(0.0, "Amazing Grace, how sweet the sound,"),
      Cue(3.0, "That saved a wretch like me."),
      Cue(6.0, "I once was lost, but now am found,"),
      Cue(9.0, "Was blind, but now I see."),
      Cue(14.0, "'Twas Grace that taught my heart to fear,"),
      Cue(17.0, "And Grace my fears relieved."),
      Cue(20.0, "How precious did that Grace appear,"),
      Cue(23.0, "The hour I first believed.") ]
  }

  /** The list is in time order, so sorting it (as the scheduler and the
      client do) leaves it as it is. */
  lemma AmazingGraceSorted()
    ensures Sorted(AmazingGrace())
    ensures SortByTime(AmazingGrace()) == AmazingGrace()
  {
    SortByTimeOfSorted(AmazingGrace());
  }

  /** At 10 s the fourth line is the last one due; the client's length
      estimate is 23 + (23 - 20) = 26 s. */
  lemma AmazingGraceAtTen()
    ensures LastDue(AmazingGrace(), 10.0) == 3
    ensures TotalDuration(AmazingGrace()) == 26.0
  {
    var tc := AmazingGrace();
    assert tc[3].time <= 10.0 && tc[4].time > 10.0;
  }

  /** `trigger_lyric` at 10 s: the current lyric is the fourth line and the
      next three lines follow it. */
  method TriggerAtTen() returns (current: Option<string>, next: seq<string>)
    ensures current == Some("Was blind, but now I see.")
    ensures |next| == 3
    ensures next[0] == "'Twas Grace that taught my heart to fear,"
    ensures next[1] == "And Grace my fears relieved."
    ensures next[2] == "How precious did that Grace appear,"
  {
    AmazingGraceSorted();
    AmazingGraceAtTen();
    var tc := AmazingGrace();
    ghost var scanned;
    current, next, scanned := Scan(tc, 10.0);
    assert next == Texts(tc, 4, 7);
  }

  /** The scheduler with its default half-second lead, polled three times at
      2.6 s: the first call hands out the first line, the second the line
      at 3 s (already within the lead), and the third nothing, as the line
      at 6 s is still more than the lead away. */
  method ScheduleAtTwoPointSix() returns (r1: Option<Cue>, r2: Option<Cue>, r3: Option<Cue>)
    ensures r1 == Some(Cue(0.0, "Amazing Grace, how sweet the sound,"))
    ensures r2 == Some(Cue(3.0, "That saved a wretch like me."))
    ensures r3 == None
  {
    AmazingGraceSorted();
    var s := new LyricScheduler(AmazingGrace());
    assert s.timecodes == AmazingGrace();
    r1 := s.GetNextLyric(2.6);
    r2 := s.GetNextLyric(2.6);
    r3 := s.GetNextLyric(2.6);
  }

  /** A caller polling the scheduler at the audio times `times`, in order.
      The number of calls that hand out a cue is `Hits`, so between resets
      no more cues are handed out than the list holds after the cursor. */
  method Poll(s: LyricScheduler, times: seq<real>) returns (handedOut: nat)
    requires s.Valid()
    modifies s`currentIndex
    ensures s.Valid()
    ensures handedOut == Hits(s.timecodes, s.leadOffset, old(s.currentIndex), times)
    ensures handedOut <= |s.timecodes| - 1 - old(s.currentIndex)
  {
    handedOut := 0;
    for i := 0 to |times|
      invariant s.Valid()
      invariant handedOut + Hits(s.timecodes, s.leadOffset, s.currentIndex, times[i..])
        == Hits(s.timecodes, s.leadOffset, old(s.currentIndex), times)
    {
      assert times[i..][0] == times[i] && times[i..][1..] == times[i + 1..];
      var r := s.GetNextLyric(times[i]);
      if r.Some? {
        handedOut := handedOut + 1;
      }
    }
  }
}

/** Pausing and resuming the client (frontend/script.js): the loop that keeps
    running while paused, and the second loop a resume starts beside it. */
module PauseResume {
  import opened Cues
  import opened Playback

  /** As written: start a song, pause, let the paused loop run one frame
      (it queues itself again), resume. Two callbacks are then outstanding,
      each of which queues its successor: two refresh loops. */
  method ResumeAfterPausedFrame() returns (pending: set<nat>, oneLoop: bool)
    ensures pending == {2, 3} && !oneLoop
  {
    var s := new Session();
    s.StartSong([Cue(0.0, "first"), Cue(5.0, "second")], 0.0);
    s.TogglePlayPause();
    s.Tick(1, 16.0);
    s.TogglePlayPause();
    pending := s.frames.pending;
    oneLoop := |pending| <= 1;
    assert 2 in pending && 3 in pending;
  }

  /** The same steps with the corrected toggle: the paused loop's frame is
      replaced, and one callback is outstanding. */
  method ResumeAfterPausedFrameSingleLoop() returns (pending: set<nat>)
    ensures pending == {3}
  {
    var s := new Session();
    s.StartSong([Cue(0.0, "first"), Cue(5.0, "second")], 0.0);
    s.TogglePlayPauseSingleLoop();
    s.Tick(1, 16.0);
    s.TogglePlayPauseSingleLoop();
    pending := s.frames.pending;
  }

  /** Toggling twice restores the play state and leaves the clock origin,
      the cursor and the lyrics as they were. */
  method ToggleTwice(s: Session)
    requires s.Valid()
    modifies s, s.page, s.frames
    ensures s.Valid()
    ensures s.playing == old(s.playing)
    ensures s.startTime == old(s.startTime) && s.index == old(s.index) && s.track == old(s.track)
    ensures s.page.currentText == old(s.page.currentText) && s.page.nextTexts == old(s.page.nextTexts)
  {
    s.TogglePlayPause();
    s.TogglePlayPause();
  }
}
