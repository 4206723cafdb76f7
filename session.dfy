/** The client playback engine of frontend/script.js: the module-level
    state of lines 23-29 as one object, driven by the push messages, the
    animation-frame ticks, seeking, the play/pause button and the loss of the
    connection. The wall clock (`performance.now()` and the timestamp the
    browser hands an animation-frame callback) is the `now` parameter, in
    milliseconds. The browser's animation-frame queue is the set `pending`
    of outstanding callback handles; handles are issued from 1 upwards, so a
    handle is truthy exactly when it is present. */
module Playback {
  import opened Common
  import opened Cues
  import opened Cursor
  import opened TimeFormat

  /** The push messages the client distinguishes by their `type` field. */
  datatype Message =
    | LyricUpdate(currentLyric: Option<string>, nextLyrics: seq<string>)
    | SongStart(songId: string, title: string, timecodes: seq<Cue>)
    | Unrecognised(kind: string)

  /** The handles a recorded frame id stands for (none for `null`). */
  function FrameSet(id: Option<nat>): set<nat> {
    if id.Some? then {id.value} else {}
  }

  /** `timecodes.sort((a, b) => a.time - b.time)` on the array that parsing
      the message produced: the array is sorted in place and becomes the
      session's track. */
  method SortParsed(timecodes: seq<Cue>) returns (sorted: seq<Cue>)
    ensures sorted == SortByTime(timecodes) && Sorted(sorted)
  {
    var a := new Cue[|timecodes|](i requires 0 <= i < |timecodes| => timecodes[i]);
    assert a[..] == timecodes;
    SortInPlace(a);
    SortByTimeSorts(timecodes);
    sorted := a[..];
  }

  /** The browser's queue of animation-frame callbacks. */
  class FrameQueue {
    var pending: set<nat>   // handles requested and neither run nor cancelled
    var nextHandle: nat     // the handle the next request returns

    ghost predicate Valid()
      reads this
    {
      nextHandle >= 1 && forall h :: h in pending ==> 1 <= h < nextHandle
    }

    constructor ()
      ensures Valid() && pending == {} && nextHandle == 1
    {
      pending, nextHandle := {}, 1;
    }

    /** `requestAnimationFrame(updateLyricDisplay)`: queues a callback and
        returns its fresh handle. */
    method Request() returns (h: nat)
      requires Valid()
      modifies this
      ensures Valid()
      ensures h == old(nextHandle) && h !in old(pending) && nextHandle == old(nextHandle) + 1
      ensures pending == old(pending) + {h}
    {
      h := nextHandle;
      pending := pending + {h};
      nextHandle := nextHandle + 1;
    }

    /** `cancelAnimationFrame(id)`; a no-op for `null` or for a handle whose
        callback has already run. */
    method Cancel(id: Option<nat>)
      requires Valid()
      modifies this
      ensures Valid()
      ensures pending == old(pending) - FrameSet(id) && nextHandle == old(nextHandle)
    {
      if id.Some? {
        pending := pending - {id.value};
      }
    }

    /** The browser takes a due callback off the queue before running it. */
    method Fire(h: nat)
      requires Valid() && h in pending
      modifies this
      ensures Valid()
      ensures pending == old(pending) - {h} && nextHandle == old(nextHandle)
    {
      pending := pending - {h};
    }
  }

  /** The page elements the engine writes. */
  class Page {
    var currentText: string      // #current-lyric
    var nextTexts: seq<string>   // .next-1, .next-2, .next-3
    var progressValue: real      // #progress-bar value
    var progressMax: real        // #progress-bar max
    var currentTimeText: string  // #current-time
    var totalTimeText: string    // #total-duration
    var buttonLabel: string      // #play-pause-button

    constructor ()
      ensures currentText == "" && nextTexts == ["", "", ""]
    {
      currentText, nextTexts := "", ["", "", ""];
      progressValue, progressMax := 0.0, 0.0;
      currentTimeText, totalTimeText, buttonLabel := "", "", "";
    }

    /** `updateLyrics` (lines 96-103): a missing or empty current lyric shows
        as '', and each of the three next slots takes the list's entry, or ''
        when the list is shorter. */
    method UpdateLyrics(current: Option<string>, next: seq<string>)
      modifies this`currentText, this`nextTexts
      ensures currentText == (if current.Some? then current.value else "")
      ensures |nextTexts| == 3
      ensures forall k :: 0 <= k < 3 ==> nextTexts[k] == (if k < |next| then next[k] else "")
    {
      currentText := if current.Some? then current.value else "";
      nextTexts := ["", "", ""];
      for k := 0 to 3
        modifies this`nextTexts
        invariant |nextTexts| == 3
        invariant forall j :: 0 <= j < k ==> nextTexts[j] == (if j < |next| then next[j] else "")
      {
        nextTexts := nextTexts[k := if k < |next| then next[k] else ""];
      }
    }

    /** `updateProgressBar` (lines 171-174). */
    method ShowProgress(seconds: real)
      modifies this`progressValue, this`currentTimeText
      ensures progressValue == seconds && currentTimeText == FormatTime(seconds)
    {
      progressValue := seconds;
      currentTimeText := FormatTime(seconds);
    }

    /** Lines 62-63 of the `song_start` branch: the bar's range and the
        total-time label. */
    method ShowDuration(seconds: real)
      modifies this`progressMax, this`totalTimeText
      ensures progressMax == seconds && totalTimeText == FormatTime(seconds)
    {
      progressMax := seconds;
      totalTimeText := FormatTime(seconds);
    }

    /** Computes the window around cursor `index` and writes it. */
    method ShowWindow(track: seq<Cue>, index: int)
      requires -1 <= index < |track|
      modifies this`currentText, this`nextTexts
      ensures Shows(track, index)
    {
      var current, next := BuildWindow(track, index);
      UpdateLyrics(Some(current), next);
    }

    /** The lyric elements show the window around cursor `index`. */
    ghost predicate Shows(track: seq<Cue>, index: int)
      reads this`currentText, this`nextTexts
      requires -1 <= index
    {
      && currentText == CurrentText(track, index)
      && nextTexts == [WindowSlot(track, index, 0), WindowSlot(track, index, 1), WindowSlot(track, index, 2)]
    }
  }

  class Session {
    var track: seq<Cue>        // currentSongTimecodes
    var index: int             // currentLyricIndex
    var startTime: real        // playbackStartTime, ms
    var frameId: Option<nat>   // animationFrameId
    var playing: bool          // isPlaying
    var lastFrameTime: real    // lastFrameTime: written, never read
    var totalDuration: real    // totalSongDuration, s
    const page: Page
    const frames: FrameQueue

    /** The cursor lies on the track and the recorded frame is a handle the
        queue has issued. (That the track is sorted is stated apart, as
        `Sorted(track)`: only `StartSong` changes the track.) */
    ghost predicate Valid()
      reads this, frames
    {
      && -1 <= index < |track|
      && frames.Valid()
      && (frameId.Some? ==> 1 <= frameId.value < frames.nextHandle)
    }

    /** A single refresh loop: no callback is outstanding except the frame
        the engine last recorded. */
    ghost predicate AtMostOneLoop()
      reads this, frames
    {
      frames.pending <= FrameSet(frameId)
    }

    /** The state when the page has loaded and no song has started. */
    constructor ()
      ensures Valid() && AtMostOneLoop() && fresh(page) && fresh(frames)
      ensures track == [] && index == -1 && startTime == 0.0 && frameId == None
      ensures playing && lastFrameTime == 0.0 && totalDuration == 0.0
      ensures frames.pending == {} && frames.nextHandle == 1
      ensures page.currentText == "" && page.nextTexts == ["", "", ""]
    {
      track, index, startTime, frameId := [], -1, 0.0, None;
      playing, lastFrameTime, totalDuration := true, 0.0, 0.0;
      page := new Page();
      frames := new FrameQueue();
    }
    /** `animationFrameId = requestAnimationFrame(updateLyricDisplay)`:
        queues a frame and records its handle. */
    method QueueFrame()
      requires frames.Valid()
      modifies this`frameId, frames
      ensures frames.Valid()
      ensures frameId == Some(old(frames.nextHandle)) && frames.nextHandle == old(frames.nextHandle) + 1
      ensures frames.pending == old(frames.pending) + {old(frames.nextHandle)}
    {
      var h := frames.Request();
      frameId := Some(h);
    }

    /** The cursor loop of lines 121-128 (and, from -1, lines 187-194):
        moves `index` over each following cue that is due at `elapsed` and
        stops at the first one that is not. Reports whether it moved. */
    method AdvanceCursor(elapsed: real) returns (moved: bool)
      requires -1 <= index < |track|
      modifies this`index
      ensures index == Advance(track, old(index), elapsed)
      ensures moved == (index != old(index))
    {
      moved := false;
      var i := index + 1;
      while i < |track|
        invariant old(index) <= index < |track| && i == index + 1
        invariant moved == (index != old(index))
        invariant Advance(track, index, elapsed) == Advance(track, old(index), elapsed)
      {
        if elapsed >= track[i].time {
          index := i;
          moved := true;
        } else {
          break;
        }
        i := i + 1;
      }
    }

    /** The `song_start` branch (lines 44-75): sorts the received cues (a
        freshly parsed array) in place, resets the cursor, estimates the
        length, restarts the clock at `now` and replaces any recorded frame
        with exactly one new request. The lyric display is left as it was
        until the first tick moves the cursor. */
    method StartSong(timecodes: seq<Cue>, now: real)
      requires Valid()
      modifies this, page, frames
      ensures Valid() && Sorted(track)
      ensures track == SortByTime(timecodes) && index == -1
      ensures totalDuration == TotalDuration(track) && page.progressMax == totalDuration
      ensures page.totalTimeText == FormatTime(totalDuration)
      ensures playing && page.buttonLabel == "Pause"
      ensures startTime == now && lastFrameTime == now
      ensures frameId == Some(old(frames.nextHandle)) && frames.nextHandle == old(frames.nextHandle) + 1
      ensures frames.pending == old(frames.pending) - FrameSet(old(frameId)) + {old(frames.nextHandle)}
      ensures old(AtMostOneLoop()) ==> frames.pending == {old(frames.nextHandle)}
      ensures page.currentText == old(page.currentText) && page.nextTexts == old(page.nextTexts)
      ensures page.progressValue == old(page.progressValue) && page.currentTimeText == old(page.currentTimeText)
    {
      LoadTrack(timecodes);
      playing := true;
      page.buttonLabel := "Pause";
      startTime := now;
      lastFrameTime := startTime;
      ReplaceFrame();
    }

    /** Lines 47-63 of the `song_start` branch: the sorted cues become the
        track under a cursor before the first cue, and the estimated length
        goes to the bar's range and the total-time label. */
    method LoadTrack(timecodes: seq<Cue>)
      modifies this`track, this`index, this`totalDuration, page`progressMax, page`totalTimeText
      ensures track == SortByTime(timecodes) && Sorted(track) && index == -1
      ensures totalDuration == TotalDuration(track) && page.progressMax == totalDuration
      ensures page.totalTimeText == FormatTime(totalDuration)
    {
      track := SortParsed(timecodes);
      index := -1;

      totalDuration := TotalDuration(track);

      page.ShowDuration(totalDuration);
    }

    /** Lines 71-74: cancels the recorded frame, if any, and queues a new
        one in its place. */
    method ReplaceFrame()
      requires frames.Valid() && (frameId.Some? ==> 1 <= frameId.value < frames.nextHandle)
      modifies this`frameId, frames
      ensures frames.Valid()
      ensures frameId == Some(old(frames.nextHandle)) && frames.nextHandle == old(frames.nextHandle) + 1
      ensures frames.pending == old(frames.pending) - FrameSet(old(frameId)) + {old(frames.nextHandle)}
    {
      if frameId.Some? {
        frames.Cancel(frameId);
      }
      QueueFrame();
    }

    /** One animation-frame callback, `updateLyricDisplay(now)` (lines
        105-160), run for the queued `handle`. While paused it only queues
        itself again. While playing it advances the cursor with one forward
        scan, rewrites the lyrics only when the cursor moved, shows the
        progress, and either queues the next frame or, once the elapsed time
        reaches the estimated length, stops: it cancels the recorded frame
        (the handle now running, unless a second loop recorded a newer one),
        records `null`, pauses and sets the progress to the end. */
    method Tick(handle: nat, now: real)
      requires Valid() && Sorted(track) && handle in frames.pending
      modifies this`index, this`frameId, this`playing, this`lastFrameTime, frames
      modifies page`currentText, page`nextTexts, page`progressValue, page`currentTimeText, page`buttonLabel
      ensures Valid()
      ensures track == old(track) && startTime == old(startTime) && totalDuration == old(totalDuration)
      ensures lastFrameTime == now
      ensures !old(playing) ==>
        && index == old(index) && !playing && page.buttonLabel == old(page.buttonLabel)
        && page.currentText == old(page.currentText) && page.nextTexts == old(page.nextTexts)
        && page.progressValue == old(page.progressValue)
        && page.currentTimeText == old(page.currentTimeText)
        && frameId == Some(old(frames.nextHandle)) && frames.nextHandle == old(frames.nextHandle) + 1
        && frames.pending == old(frames.pending) - {handle} + {old(frames.nextHandle)}
      ensures old(playing) ==> index == Advance(track, old(index), Elapsed(now, startTime))
      ensures old(playing) && (old(index) == -1 || track[old(index)].time <= Elapsed(now, startTime)) ==>
        index == LastDue(track, Elapsed(now, startTime))
      ensures old(playing) && index != old(index) ==> page.Shows(track, index)
      ensures index == old(index) ==>
        page.currentText == old(page.currentText) && page.nextTexts == old(page.nextTexts)
      ensures old(playing) && Elapsed(now, startTime) < totalDuration ==>
        && playing && page.buttonLabel == old(page.buttonLabel)
        && page.progressValue == Elapsed(now, startTime)
        && page.currentTimeText == FormatTime(Elapsed(now, startTime))
        && frameId == Some(old(frames.nextHandle)) && frames.nextHandle == old(frames.nextHandle) + 1
        && frames.pending == old(frames.pending) - {handle} + {old(frames.nextHandle)}
      ensures old(playing) && Elapsed(now, startTime) >= totalDuration ==>
        && !playing && page.buttonLabel == "Play"
        && page.progressValue == totalDuration && page.currentTimeText == FormatTime(totalDuration)
        && frameId == None && frames.nextHandle == old(frames.nextHandle)
        && frames.pending == old(frames.pending) - {handle} - FrameSet(old(frameId))
      ensures old(AtMostOneLoop()) ==> AtMostOneLoop()
    {
      frames.Fire(handle);
      lastFrameTime := now;
      if !playing {
        QueueFrame();
      } else {
        PlayingTick(Elapsed(now, startTime));
      }
    }

    /** A tick while playing, `elapsed` seconds into the song (lines 119-153):
        the frame is drawn, and the loop goes on or finishes. */
    method PlayingTick(elapsed: real)
      requires Valid() && Sorted(track) && playing
      modifies this`index, this`frameId, this`playing, frames
      modifies page`currentText, page`nextTexts, page`progressValue, page`currentTimeText, page`buttonLabel
      ensures Valid()
      ensures index == Advance(track, old(index), elapsed)
      ensures (old(index) == -1 || track[old(index)].time <= elapsed) ==> index == LastDue(track, elapsed)
      ensures index != old(index) ==> page.Shows(track, index)
      ensures index == old(index) ==>
        page.currentText == old(page.currentText) && page.nextTexts == old(page.nextTexts)
      ensures elapsed < totalDuration ==>
        && playing && page.buttonLabel == old(page.buttonLabel)
        && page.progressValue == elapsed && page.currentTimeText == FormatTime(elapsed)
        && frameId == Some(old(frames.nextHandle)) && frames.nextHandle == old(frames.nextHandle) + 1
        && frames.pending == old(frames.pending) + {old(frames.nextHandle)}
      ensures elapsed >= totalDuration ==>
        && !playing && page.buttonLabel == "Play"
        && page.progressValue == totalDuration && page.currentTimeText == FormatTime(totalDuration)
        && frameId == None && frames.nextHandle == old(frames.nextHandle)
        && frames.pending == old(frames.pending) - FrameSet(old(frameId))
    {
      DrawFrame(elapsed);
      ContinueOrFinish(elapsed);
    }

    /** Lines 119-142 of a playing tick: one forward scan of the cursor, the
        lyric window rewritten only when the cursor moved, and the progress
        shown. On a sorted track whose current cue is itself due, the scan
        lands on the last due cue. */
    method DrawFrame(elapsed: real)
      requires -1 <= index < |track| && Sorted(track)
      modifies this`index, page`currentText, page`nextTexts, page`progressValue, page`currentTimeText
      ensures index == Advance(track, old(index), elapsed)
      ensures (old(index) == -1 || track[old(index)].time <= elapsed) ==> index == LastDue(track, elapsed)
      ensures index != old(index) ==> page.Shows(track, index)
      ensures index == old(index) ==>
        page.currentText == old(page.currentText) && page.nextTexts == old(page.nextTexts)
      ensures page.progressValue == elapsed && page.currentTimeText == FormatTime(elapsed)
    {
      var newLyricFound := AdvanceCursor(elapsed);
      if old(index) == -1 || track[old(index)].time <= elapsed {
        AdvanceFindsLastDue(track, old(index), elapsed);
      }
      if newLyricFound {
        page.ShowWindow(track, index);
      }

      page.ShowProgress(elapsed);
    }

    /** The tail of a playing tick (lines 145-157): before the estimated end
        it queues the next frame; from the end on it cancels the recorded
        frame, records `null`, pauses and puts the progress at the end. */
    method ContinueOrFinish(elapsed: real)
      requires playing && frames.Valid() && (frameId.Some? ==> 1 <= frameId.value < frames.nextHandle)
      modifies this`frameId, this`playing, page`buttonLabel, page`progressValue, page`currentTimeText, frames
      ensures frames.Valid() && (frameId.Some? ==> 1 <= frameId.value < frames.nextHandle)
      ensures elapsed < totalDuration ==>
        && playing && page.buttonLabel == old(page.buttonLabel)
        && page.progressValue == old(page.progressValue)
        && page.currentTimeText == old(page.currentTimeText)
        && frameId == Some(old(frames.nextHandle)) && frames.nextHandle == old(frames.nextHandle) + 1
        && frames.pending == old(frames.pending) + {old(frames.nextHandle)}
      ensures elapsed >= totalDuration ==>
        && !playing && page.buttonLabel == "Play"
        && page.progressValue == totalDuration && page.currentTimeText == FormatTime(totalDuration)
        && frameId == None && frames.nextHandle == old(frames.nextHandle)
        && frames.pending == old(frames.pending) - FrameSet(old(frameId))
    {
      if playing && elapsed < totalDuration {
        QueueFrame();
      } else if elapsed >= totalDuration {
        frames.Cancel(frameId);
        frameId := None;
        playing := false;
        page.buttonLabel := "Play";
        page.ShowProgress(totalDuration);
      }
    }

    /** `seekToTime(target)` (lines 176-213): cancels the recorded frame,
        moves the clock origin so that the elapsed time at `now` is `target`,
        recomputes the cursor by a full scan from -1, rewrites the lyrics and
        the progress, and queues a frame only when playing. */
    method Seek(target: real, now: real)
      requires Valid() && Sorted(track)
      modifies this`startTime, this`lastFrameTime, this`index, this`frameId, frames
      modifies page`currentText, page`nextTexts, page`progressValue, page`currentTimeText
      ensures Valid()
      ensures track == old(track) && playing == old(playing) && totalDuration == old(totalDuration)
      ensures startTime == now - target * 1000.0 && Elapsed(now, startTime) == target
      ensures lastFrameTime == now
      ensures index == Advance(track, -1, target) == LastDue(track, target)
      ensures page.Shows(track, index)
      ensures page.progressValue == target && page.currentTimeText == FormatTime(target)
      ensures page.buttonLabel == old(page.buttonLabel)
      ensures playing ==>
        && frameId == Some(old(frames.nextHandle)) && frames.nextHandle == old(frames.nextHandle) + 1
        && frames.pending == old(frames.pending) - FrameSet(old(frameId)) + {old(frames.nextHandle)}
      ensures !playing ==>
        && frameId == old(frameId) && frames.nextHandle == old(frames.nextHandle)
        && frames.pending == old(frames.pending) - FrameSet(old(frameId))
      ensures old(AtMostOneLoop()) ==> AtMostOneLoop()
    {
      if frameId.Some? {
        frames.Cancel(frameId);
      }

      startTime := now - target * 1000.0;
      lastFrameTime := now;

      Relocate(target);

      if playing {
        QueueFrame();
      }
    }

    /** Lines 187-207 of `seekToTime`: the cursor is recomputed by a full
        forward scan from -1, which on a sorted track lands on the last cue
        due at `target`, and the lyrics and the progress are rewritten. */
    method Relocate(target: real)
      requires Sorted(track)
      modifies this`index, page`currentText, page`nextTexts, page`progressValue, page`currentTimeText
      ensures index == Advance(track, -1, target) == LastDue(track, target)
      ensures page.Shows(track, index)
      ensures page.progressValue == target && page.currentTimeText == FormatTime(target)
    {
      index := -1;
      var _ := AdvanceCursor(target);
      AdvanceFindsLastDue(track, -1, target);

      page.ShowWindow(track, index);
      page.ShowProgress(target);
    }

    /** `togglePlayPause` (lines 302-312). Resuming queues a frame without
        cancelling anything, and neither direction touches the clock origin
        or the cursor, so wall time spent paused counts as song time. */
    method TogglePlayPause()
      requires Valid()
      modifies this`playing, this`frameId, page`buttonLabel, frames
      ensures Valid()
      ensures playing == !old(playing)
      ensures track == old(track) && index == old(index) && startTime == old(startTime)
      ensures totalDuration == old(totalDuration)
      ensures page.currentText == old(page.currentText) && page.nextTexts == old(page.nextTexts)
      ensures page.progressValue == old(page.progressValue)
      ensures playing ==>
        && page.buttonLabel == "Pause"
        && frameId == Some(old(frames.nextHandle)) && frames.nextHandle == old(frames.nextHandle) + 1
        && frames.pending == old(frames.pending) + {old(frames.nextHandle)}
        && |frames.pending| == |old(frames.pending)| + 1
      ensures !playing ==>
        && page.buttonLabel == "Play"
        && frameId == old(frameId) && frames.nextHandle == old(frames.nextHandle)
        && frames.pending == old(frames.pending)
      ensures old(AtMostOneLoop()) && (!playing || old(frames.pending) == {}) ==> AtMostOneLoop()
    {
      playing := !playing;
      if playing {
        page.buttonLabel := "Pause";
        QueueFrame();
      } else {
        page.buttonLabel := "Play";
      }
    }

    /** `togglePlayPause` as evidently intended: a paused session's loop
        keeps queuing itself (lines 106-111), so resuming replaces the
        recorded frame, as `song_start` does at lines 71-74, instead of
        starting a second loop beside it. */
    method TogglePlayPauseSingleLoop()
      requires Valid()
      modifies this`playing, this`frameId, page`buttonLabel, frames
      ensures Valid()
      ensures playing == !old(playing)
      ensures playing ==>
        && page.buttonLabel == "Pause"
        && frameId == Some(old(frames.nextHandle)) && frames.nextHandle == old(frames.nextHandle) + 1
        && frames.pending == old(frames.pending) - FrameSet(old(frameId)) + {old(frames.nextHandle)}
      ensures !playing ==>
        && page.buttonLabel == "Play"
        && frameId == old(frameId) && frames.nextHandle == old(frames.nextHandle)
        && frames.pending == old(frames.pending)
      ensures old(AtMostOneLoop()) ==> AtMostOneLoop()
    {
      playing := !playing;
      if playing {
        page.buttonLabel := "Pause";
        ReplaceFrame();
      } else {
        page.buttonLabel := "Play";
      }
    }

    /** `websocket.onclose` and `websocket.onerror` (lines 81-93): cancel the
        recorded frame. The recorded id itself is not cleared. */
    method Disconnect()
      requires Valid()
      modifies frames
      ensures Valid()
      ensures frames.pending == old(frames.pending) - FrameSet(frameId)
      ensures frames.nextHandle == old(frames.nextHandle)
      ensures old(AtMostOneLoop()) ==> frames.pending == {}
    {
      if frameId.Some? {
        frames.Cancel(frameId);
      }
    }

    /** The message dispatch of `websocket.onmessage` (lines 41-75). */
    method OnMessage(msg: Message, now: real)
      requires Valid()
      modifies this, page, frames
      ensures Valid()
      ensures msg.LyricUpdate? ==>
        && page.currentText == (if msg.currentLyric.Some? then msg.currentLyric.value else "")
        && |page.nextTexts| == 3
        && (forall k :: 0 <= k < 3 ==>
              page.nextTexts[k] == (if k < |msg.nextLyrics| then msg.nextLyrics[k] else ""))
        && unchanged(this, frames)
        && unchanged(page`progressValue, page`progressMax, page`currentTimeText, page`totalTimeText, page`buttonLabel)
      ensures msg.SongStart? ==>
        && track == SortByTime(msg.timecodes) && index == -1 && playing && startTime == now
        && totalDuration == TotalDuration(track)
        && Sorted(track) && lastFrameTime == now
        && page.progressMax == totalDuration && page.totalTimeText == FormatTime(totalDuration)
        && page.buttonLabel == "Pause"
        && page.currentText == old(page.currentText) && page.nextTexts == old(page.nextTexts)
        && page.progressValue == old(page.progressValue) && page.currentTimeText == old(page.currentTimeText)
        && frameId == Some(old(frames.nextHandle)) && frames.nextHandle == old(frames.nextHandle) + 1
        && frames.pending == old(frames.pending) - FrameSet(old(frameId)) + {old(frames.nextHandle)}
      ensures msg.Unrecognised? ==> unchanged(this, page, frames)
    {
      match msg
      case LyricUpdate(current, next) =>
        page.UpdateLyrics(current, next);
      case SongStart(_, _, timecodes) =>
        StartSong(timecodes, now);
      case Unrecognised(_) =>
    }
  }
}
