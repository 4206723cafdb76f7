# LyricPilot lyric playback, modelled in Dafny

LyricPilot shows song lyrics in time with playback. The server keeps each
song's lyric cue points (`{time, text}`) and pushes them to a browser client.
The client sorts the cues, starts a local playback clock, and on every
animation frame moves a lyric cursor forward and redraws the current line,
the next three lines, the progress bar and the `MM:SS` readout.

This project models, and proves properties of:

- **The client playback engine** of `frontend/script.js` (module
  `Playback`, with `Cursor`, `Cues` and `TimeFormat`).
  - The module state of lines 23-29 is the class `Playback.Session`.
  - The page elements it writes are the class `Playback.Page`.
  - The browser's animation-frame queue is the class
    `Playback.FrameQueue`: a set of outstanding handles, issued from 1
    upwards.
  - Events are methods of `Session`: the `song_start` and `lyric_update`
    messages, a frame callback (`Tick`), seeking, the play/pause button,
    and the loss of the connection.
  - The wall clock is the `now` parameter, in milliseconds.
- **The server-side scheduler** `LyricScheduler` of
  `backend/lyric_scheduler.py` (module `Scheduler`).
- **The plain-text lyrics parser and timecode generator** of
  `backend/lyrics_text_parser.py` (module `TextParser`).
- **The current/next scan of `trigger_lyric`** in `backend/main.py`, lines
  183-193 (module `LiveTrigger`).
- **Worked examples** (modules `Scenarios` and `PauseResume`): the
  demonstration song of `backend/main.py` lines 62-71, run through the scan
  and the scheduler, and a pause/resume sequence on the client.

Both sides sort cues with a stable ascending sort by time. The model defines
that sort once, as insertion sort: `Cues.SortByTime` is the function and
`Cues.SortInPlace` the in-place array method. Times are exact reals.

The model follows the code as written, including these behaviours:

- Pausing does not freeze the elapsed time. `togglePlayPause` never moves
  the clock origin, so wall time spent paused counts as song time.
- A paused frame callback keeps re-queuing itself. Resuming queues one more
  without cancelling it, so after a pause and resume two callbacks can be
  outstanding (see Findings).
- Elapsed time is not clamped at 0, and negative cue times are neither
  clamped nor rejected.
- A song with no cues still queues a frame on `song_start`. The first frame
  ends the song, because its estimated length is 0.
- A single cue at time `t` gives an estimated length of `2·t`, because the
  code counts a missing second-to-last cue as time 0.

## Model

| member | source | states |
|---|---|---|
| `Cues.Insert` | backend/lyric_scheduler.py:6 | one pass of a stable insertion sort: the cue goes in after the last cue, looking from the right, whose time is at most its own, so it follows earlier cues with the same time |
| `Cues.SortByTime` | backend/lyric_scheduler.py:6 | `sorted(timecodes, key=lambda x: x['time'])` (and `sort((a, b) => a.time - b.time)` at frontend/script.js:47): the stable ascending sort by time, built by `Insert`; the `Cues.SortByTime…` lemmas state its properties |
| `Cues.SortByTimeSorts` | frontend/script.js:47 | the sort's result is ascending by time |
| `Cues.SortByTimeLength` | frontend/script.js:47 | the sort keeps the number of cues |
| `Cues.SortByTimePermutes` | frontend/script.js:47 | the sort's result is a permutation of its input (same multiset) |
| `Cues.SortByTimeStable` | backend/lyric_scheduler.py:6 | stability: for every time value, the cues with that time keep their input order |
| `Cues.SortByTimeOfSorted` | backend/lyric_scheduler.py:6 | sorting an already sorted list changes nothing |
| `Cues.InsertSorted` | frontend/script.js:47 | inserting one cue into a sorted list keeps it sorted |
| `Cues.InsertPermutes` | frontend/script.js:47 | insertion adds exactly the one cue to the multiset |
| `Cues.InsertStable` | frontend/script.js:47 | insertion puts the new cue after the earlier cues with the same time |
| `Cues.InsertInPlace` | frontend/script.js:47 | one in-place pass turns the array's first i+1 cells into the insertion of cell i into the first i, and leaves the rest of the array alone |
| `Cues.InsertPosition` | frontend/script.js:47 | the inserted cue goes right after the last cue whose time is at most its own |
| `Cues.SortInPlace` | frontend/script.js:47 | the array ends up holding exactly the stable sort of its old contents |
| `Playback.SortParsed` | frontend/script.js:47 | the received cue list sorted in a fresh array equals the stable sort and is ascending |
| `Cursor.Elapsed` | frontend/script.js:114 | `(currentTime - playbackStartTime) / 1000`: the wall-clock milliseconds since the origin, in seconds, not clamped at 0 |
| `Cursor.Advance` | frontend/script.js:121-128 | the forward scan never moves back; every cue it passes is due, and the cue after it is not due or does not exist |
| `Cursor.LastDue` | frontend/script.js:187-194 | reference: the highest position whose cue is due, or -1, with every later cue not due |
| `Cursor.AdvanceFindsLastDue` | frontend/script.js:121-128 | on a sorted track whose current cue is due, the forward scan lands on the last due cue |
| `Cursor.AdvanceComposes` | frontend/script.js:121-128 | a scan at e1 followed by one at a later e2 gives the cursor of one scan at e2 |
| `Cursor.ForwardScanCannotSeekBack` | frontend/script.js:186-194 | after a seek backward, the forward scan from the old cursor overshoots the last due cue, which is why a seek rescans from -1 |
| `Cursor.TotalDuration` | frontend/script.js:51-58 | the estimate is 0 for no cues and 2·t for one cue at t; on a sorted, non-negative track it is at least every cue time |
| `Cursor.AllZeroTrackHasNoDuration` | frontend/script.js:51-58 | a track of cues all at 0 (generated without a duration) has length 0 |
| `Cursor.LastCueCurrentAtEnd` | frontend/script.js:145-150 | once elapsed reaches the estimated length, the scan reaches the last cue |
| `Cursor.BuildWindow` | frontend/script.js:131-137 | current is the cursor's text (or '' at -1); next holds the texts of the following cues, min(3, len-1-index) of them, in order |
| `Playback.FrameQueue.constructor` | frontend/script.js:26 | the queue at page load, when `animationFrameId` is still `null`: nothing outstanding and the next handle is 1 |
| `Playback.FrameQueue.Request` | frontend/script.js:74 | a fresh handle, not outstanding before, is added to the outstanding set |
| `Playback.FrameQueue.Cancel` | frontend/script.js:71-73 | the given handle, if any, is no longer outstanding; nothing else changes |
| `Playback.FrameQueue.Fire` | frontend/script.js:105 | the queue drops the callback it runs |
| `Playback.Page.constructor` | frontend/script.js:1-6 | the lyric elements at page load: '' for the current lyric and for the three next slots |
| `Playback.Page.UpdateLyrics` | frontend/script.js:96-103 | a missing lyric shows as ''; all three next slots are filled, padded with '' |
| `Playback.Page.ShowProgress` | frontend/script.js:171-174 | the bar's value is the time and the readout is its `formatTime` |
| `Playback.Page.ShowDuration` | frontend/script.js:62-63 | the bar's maximum is the length and the total label is its `formatTime` |
| `Playback.Page.ShowWindow` | frontend/script.js:196-204 | the lyric elements show the window around the cursor |
| `Playback.Session.constructor` | frontend/script.js:23-29 | the initial state: no track, cursor -1, origin 0, no frame, playing, length 0 |
| `Playback.Session.QueueFrame` | frontend/script.js:74 | a new frame is requested and its handle recorded |
| `Playback.Session.AdvanceCursor` | frontend/script.js:121-128 | the loop leaves the cursor at `Advance` of the old one, and reports whether it moved |
| `Playback.Session.StartSong` | frontend/script.js:44-75 | the track is the stable sort of the cues, cursor -1, playing, origin `now`, length and labels set; the recorded frame is cancelled and exactly one new frame queued (the only one, if at most one was outstanding); the lyric display is untouched |
| `Playback.Session.LoadTrack` | frontend/script.js:47-63 | the sorted track, cursor -1, the estimated length and the bar's range and label |
| `Playback.Session.ReplaceFrame` | frontend/script.js:71-74 | the recorded frame is cancelled and one new frame requested and recorded |
| `Playback.Session.Tick` | frontend/script.js:105-160 | paused: only queues itself again. Playing: cursor = `Advance` from the old cursor at the elapsed time; lyrics rewritten exactly when it moved; before the end, progress shown and exactly one frame queued; at the end, the recorded frame cancelled, no frame queued, `null` recorded, paused, progress at the length; at most one loop stays at most one |
| `Playback.Session.PlayingTick` | frontend/script.js:119-153 | with the elapsed time given: cursor = `Advance` from the old cursor, and `LastDue` when the old cursor was due; lyrics shown exactly when it moved; before the end exactly one frame queued and the progress at the elapsed time; at the end the recorded frame cancelled, `null` recorded, paused, progress at the length |
| `Playback.Session.DrawFrame` | frontend/script.js:119-142 | one forward scan, the window redrawn exactly when the cursor moved, the progress shown; on a sorted track whose current cue is due, the cursor is the last due cue |
| `Playback.Session.ContinueOrFinish` | frontend/script.js:145-157 | before the length one frame is queued and nothing else changes; at the length the recorded frame is cancelled, `null` recorded, paused, label 'Play', progress at the length |
| `Playback.Session.Seek` | frontend/script.js:176-213 | elapsed at `now` becomes the target; the cursor is rescanned from -1 and is the last cue due at the target; display and progress always rewritten; a frame queued only when playing; play state and track unchanged |
| `Playback.Session.Relocate` | frontend/script.js:187-207 | the cursor is the full scan from -1, which is the last due cue; window and progress rewritten |
| `Playback.Session.TogglePlayPause` | frontend/script.js:302-312 | the play state flips, and clock origin, cursor and lyrics stay; resuming requests a frame without cancelling one, adding one to the outstanding set; pausing changes no frame; nothing but the play state, the recorded frame, the button label and the frame queue changes |
| `Playback.Session.TogglePlayPauseSingleLoop` | frontend/script.js:302-312 | corrected toggle: resuming replaces the recorded frame, so at most one loop always stays at most one |
| `Playback.Session.Disconnect` | frontend/script.js:81-93 | the recorded frame is cancelled, leaving nothing outstanding when only one loop ran; no handle is issued |
| `Playback.Session.OnMessage` | frontend/script.js:36-75 | `lyric_update` writes the lyric elements as `updateLyrics` does and leaves the session, the frame queue and the progress, time and button elements alone; `song_start` sorts and loads the song, resets the cursor and clock, shows the duration and the Pause label, leaves the lyric elements, and replaces the recorded frame with a fresh one; any other type changes nothing |
| `TimeFormat.Minutes` | frontend/script.js:164 | `Math.floor(seconds / 60)`: rounds toward minus infinity |
| `TimeFormat.JsRemainder` | frontend/script.js:165 | JavaScript's `%` on numbers: `x - y * trunc(x / y)`, so the remainder takes the sign of `x` (Dafny's own `%` would not) |
| `TimeFormat.RemainingSeconds` | frontend/script.js:165 | `Math.floor(seconds % 60)` with JavaScript's truncating `%` |
| `TimeFormat.IntToString` | frontend/script.js:166-167 | `String(i)` for an integer: decimal digits without leading zeros, with '-' in front of a negative value |
| `TimeFormat.PadStart2` | frontend/script.js:166-167 | `padStart(2, '0')`: '0's in front up to two characters; longer text is left as it is |
| `TimeFormat.FormatTime` | frontend/script.js:163-169 | `formatTime`: `Math.floor(s/60)` and `Math.floor(s % 60)`, each `String()`-ed and `padStart(2,'0')`-ed, joined by ':'; the `TimeFormat.FormatTime…` and `ClockText…` lemmas state its properties |
| `TimeFormat.ClockFields` | frontend/script.js:164-165 | for s ≥ 0: minutes ≥ 0, seconds in 0..59, and minutes·60 + seconds = floor(s) |
| `TimeFormat.DecimalRoundTrip` | frontend/script.js:166-167 | the decimal text of n is digits only and reads back as n |
| `TimeFormat.PaddedDecimal` | frontend/script.js:166-167 | padding to two characters keeps digits only and the value, and gives width 2 under 100 |
| `TimeFormat.FormatTimeFields` | frontend/script.js:163-169 | for s ≥ 0 the readout is the padded minutes and seconds joined by ':' |
| `TimeFormat.ClockTextShape` | frontend/script.js:166-168 | the readout is at least five characters: digits, ':', two digits |
| `TimeFormat.ClockTextReadBack` | frontend/script.js:166-168 | the two fields of the readout read back as the minutes and the seconds |
| `TimeFormat.FormatTimeRoundTrip` | frontend/script.js:163-169 | for s ≥ 0 the readout has the shape digits ':' two digits, and reading it back gives floor(s) with seconds ≤ 59 |
| `TimeFormat.FormatTimeWidth` | frontend/script.js:163-169 | under 100 minutes the readout is exactly five characters |
| `TimeFormat.FormatTimeOneMinute` | frontend/script.js:163-169 | 65 s shows as "01:05" |
| `TimeFormat.FormatTimeZero` | frontend/script.js:163-169 | 0 s shows as "00:00" |
| `TimeFormat.FormatTimeLastOfHour` | frontend/script.js:163-169 | 3599 s shows as "59:59" |
| `TextParser.Split` | backend/lyrics_text_parser.py:6 | splitting at '\n' gives one more piece than there are separators |
| `TextParser.SplitPiecesNoNewLine` | backend/lyrics_text_parser.py:6 | no piece contains '\n' |
| `TextParser.JoinSplit` | backend/lyrics_text_parser.py:6 | joining the pieces with '\n' gives back the text |
| `TextParser.SplitConcat` | backend/lyrics_text_parser.py:6 | splitting a + '\n' + b gives the pieces of a followed by those of b |
| `TextParser.NoNewLineSplit` | backend/lyrics_text_parser.py:6 | text without '\n' is a single piece |
| `TextParser.SplitJoin` | backend/lyrics_text_parser.py:6 | splitting the join of '\n'-free pieces gives back the pieces |
| `TextParser.IsSpace` | backend/lyrics_text_parser.py:6 | the characters `str.strip()` removes, those of Python's `str.isspace()`: U+0009-U+000D, U+001C-U+001F, space, U+0085, U+00A0, U+1680, U+2000-U+200A, U+2028, U+2029, U+202F, U+205F and U+3000 |
| `TextParser.Strip` | backend/lyrics_text_parser.py:6 | `strip()` leaves an infix with no whitespace at either end, dropping only whitespace before and after it, which is empty exactly when the text is blank |
| `TextParser.StripStripped` | backend/lyrics_text_parser.py:6 | stripping stripped text changes nothing |
| `TextParser.StripNoNewLine` | backend/lyrics_text_parser.py:6 | stripping brings in no '\n' |
| `TextParser.KeepLines` | backend/lyrics_text_parser.py:6 | the kept lines are non-empty and stripped, no more of them than pieces |
| `TextParser.KeepLinesNoNewLine` | backend/lyrics_text_parser.py:6 | no kept line contains '\n' when no piece does |
| `TextParser.KeepLinesConcat` | backend/lyrics_text_parser.py:6 | keeping lines distributes over concatenation of piece lists |
| `TextParser.KeepLinesOfLines` | backend/lyrics_text_parser.py:6 | lines that are already non-empty and stripped are all kept unchanged |
| `TextParser.ParsePlainText` | backend/lyrics_text_parser.py:4-6 | every output line is non-empty, stripped and without '\n'; at most one line more than there are '\n' |
| `TextParser.ParseConcat` | backend/lyrics_text_parser.py:6 | the lines of a + '\n' + b are those of a followed by those of b, so input order is kept |
| `TextParser.ParseIdempotent` | backend/lyrics_text_parser.py:4-6 | parsing the '\n'-join of the output gives the same lines |
| `TextParser.Truthy` | backend/lyrics_text_parser.py:15 | the `total_duration` half of `if total_duration and num_lines > 0`: `None` and `0.0` are false, every other duration, negative ones too, is true |
| `TextParser.CueTime` | backend/lyrics_text_parser.py:15-23 | line `i` of `n` is at `i * (d / n)` when the duration `d` is truthy and `n > 0`, and at 0.0 otherwise |
| `TextParser.BasicTimecodes` | backend/lyrics_text_parser.py:12-25 | one cue per line, with the lines' texts in order |
| `TextParser.GenerateBasicTimecodes` | backend/lyrics_text_parser.py:8-25 | both append loops produce exactly `BasicTimecodes` (i·(d/n) with a truthy duration, else 0) |
| `TextParser.EvenlySpaced` | backend/lyrics_text_parser.py:15-19 | with duration d > 0 the first time is 0, consecutive times differ by d/n, times strictly increase and all lie below d |
| `TextParser.NoDurationAllZero` | backend/lyrics_text_parser.py:20-23 | with `None` or 0.0 every time is 0 and the list is sorted |
| `Scheduler.Due` | backend/lyric_scheduler.py:14 | `current_audio_time >= lyric_entry['time'] - self.lead_offset`: a cue is due from `lead` seconds before its time on |
| `Scheduler.FirstDue` | backend/lyric_scheduler.py:12-17 | the first position after the cursor whose cue is due within the lead, with none due before it; `None` when no later cue is due |
| `Scheduler.SortedStepsByOne` | backend/lyric_scheduler.py:12-16 | on the sorted list a call can only hand out the cue right after the cursor, and does exactly when that cue is due |
| `Scheduler.Hits` | backend/lyric_scheduler.py:12-17 | calls at a series of times hand out at most as many cues as follow the cursor, and at most one per call |
| `Scheduler.LyricScheduler.constructor` | backend/lyric_scheduler.py:5-8 | the stored list is the stable sort of the input (sorted), the lead offset defaults to 0.5, the cursor is -1 |
| `Scheduler.LyricScheduler.GetNextLyric` | backend/lyric_scheduler.py:10-17 | a hit returns the first due cue after the cursor and moves the cursor exactly there; no hit returns `None` and keeps the cursor; the cursor never decreases and stays in range |
| `Scheduler.LyricScheduler.Reset` | backend/lyric_scheduler.py:19-20 | the cursor is -1 and the list is unchanged |
| `LiveTrigger.Texts` | backend/main.py:190-191 | the texts of a range of cues, in order |
| `LiveTrigger.LaterTexts` | backend/main.py:190-191 | the texts of the not-yet-due cues among a prefix, in order |
| `LiveTrigger.LastDueIn` | backend/main.py:187-189 | `Cursor.LastDue` of the first `m` cues: the last due position among them, with every later one among them not due |
| `LiveTrigger.LastDueText` | backend/main.py:183-189 | `None` exactly when no cue of the prefix is due |
| `LiveTrigger.LaterTextsGrow` | backend/main.py:190-193 | a longer prefix never has fewer cues to come |
| `LiveTrigger.ShorterPrefixesFewer` | backend/main.py:192-193 | below three cues to come in a prefix, every shorter prefix also has fewer than three |
| `LiveTrigger.NothingLaterBeforeLastDue` | backend/main.py:187-191 | on a sorted list no cue up to the last due one is still to come |
| `LiveTrigger.LastDueOfLongerPrefix` | backend/main.py:187-189 | a prefix that holds the last due cue has it as its own last due cue |
| `LiveTrigger.LaterTextsPastLastDue` | backend/main.py:187-193 | past the last due cue, a longer prefix only adds cues to come |
| `LiveTrigger.SortedScanWindow` | backend/main.py:187-193 | on a sorted list the scan's result is the client's window around the last due cue |
| `LiveTrigger.Scan` | backend/main.py:183-193 | current is the last due text among the scanned cues (`None` iff none); next holds the texts of the scanned cues still to come, in order, at most three, and the scan stops right after the third and not before; on a sorted list this is the client's window |
| `Scenarios.AmazingGrace` | backend/main.py:62-71 | the demonstration list has eight cues |
| `Scenarios.AmazingGraceSorted` | backend/main.py:62-71 | the demonstration list is in time order, so sorting leaves it unchanged |
| `Scenarios.AmazingGraceAtTen` | backend/main.py:62-71 | at 10 s the fourth line is the last due one; the client's length estimate is 26 s |
| `Scenarios.TriggerAtTen` | backend/main.py:183-193 | the scan at 10 s gives the fourth line as current and the next three lines |
| `Scenarios.ScheduleAtTwoPointSix` | backend/lyric_scheduler.py:10-17 | three calls at 2.6 s with the 0.5 s lead give the first line, the line at 3 s, then `None` |
| `Scenarios.Poll` | backend/lyric_scheduler.py:10-17 | between resets, calls hand out no more cues than follow the cursor |
| `PauseResume.ResumeAfterPausedFrame` | frontend/script.js:302-312 | as written: start, pause, one paused frame, resume leaves two callbacks outstanding |
| `PauseResume.ResumeAfterPausedFrameSingleLoop` | frontend/script.js:302-312 | with the corrected toggle the same steps leave one callback outstanding |
| `PauseResume.ToggleTwice` | frontend/script.js:302-312 | toggling twice restores the play state and keeps clock origin, cursor, track and lyrics |

## Left out

- WebSocket transport, JSON parsing, `onopen` and console logging: the
  connection delivers already decoded messages (`Playback.Message`).
- The `try`/`catch` paths of `onmessage` and `updateLyricDisplay`. A message
  without the expected fields, or a `next_lyrics` that is not a list, is not
  modelled. Messages are assumed well formed.
- `null` entries inside `next_lyrics` are not modelled (a list of strings).
  `currentLyric || ''` is modelled by an `Option`, and an empty string shows
  as '' either way.
- IEEE floating point: times are exact reals. NaN comparators in the sort,
  the rounding of `/1000` and of `i * interval`, and `String()` switching to
  exponent notation for huge numbers are not modelled.
- `seekToTime` reads `performance.now()` twice (lines 183 and 184). The model
  uses one `now` for both.
- `Playback.Page.constructor` assumes empty lyric elements at page load. The
  other elements' initial contents are not modelled.
- The DOM wiring of lines 314-339: the button's click handler, and the
  progress bar's `input` handler (a `formatTime` of the dragged value) and
  `change` handler (which calls `seekToTime`). The engine operations they
  call are modelled.
- The song-management code of frontend/script.js (lines 215-300 and
  341-442): HTTP requests and markup.
- `lastFrameTime` is written as the source writes it, but nothing reads it.
- The browser's timing of frame callbacks: a callback may run for any
  outstanding handle at any `now`. The model does not require `now` to
  increase.
- backend/main.py apart from the scan and the demonstration list: the HTTP
  endpoint around the scan (song lookup, the 404 path, broadcasting the
  result), the other endpoints, the database and the file writes.
- `generate_basic_timecodes_from_text` returns a `TimecodeData` wrapper. The
  model returns the cue list it holds.
- backend/song_loader.py, trigger_interface.py, database.py,
  timecode_generator.py and the placeholder modules are not part of this
  model.
- `TimeFormat.FormatTimeRoundTrip` covers non-negative times only. For a
  negative time `formatTime` writes a '-' sign, which `TimeFormat.FormatTime`
  models, but no property is proved about it.

## Findings

| source | as written | input that shows it | evidently intended | confidence | as-written member | corrected member |
|---|---|---|---|---|---|---|
| frontend/script.js:302-312 | resuming requests a frame (line 307) without cancelling the frame that the paused callback keeps re-requesting (lines 106-111), so each pause and resume adds a refresh loop | start a song, pause, let one paused frame run, resume: handles 2 and 3 are both outstanding, and each re-queues itself | resuming replaces the recorded frame, as `song_start` does at lines 71-74, so one loop runs | not executed; medium | `Playback.Session.TogglePlayPause`, `PauseResume.ResumeAfterPausedFrame` | `Playback.Session.TogglePlayPauseSingleLoop`, `PauseResume.ResumeAfterPausedFrameSingleLoop` |
