/** The lyric cursor of the client (frontend/script.js): the playback clock's
    elapsed time, the forward scan that advances the cursor, the reference
    "last due cue" it is checked against, the display window around the
    cursor and the song's total-duration estimate. */
module Cursor {
  import opened Common
  import opened Cues

  /** Elapsed song seconds at wall time `now` for the clock origin `start`,
      both in milliseconds (script.js line 114 and line 183). */
  function Elapsed(now: real, start: real): real {
    (now - start) / 1000.0
  }

  ghost predicate NonNegative(track: seq<Cue>) {
    forall k :: 0 <= k < |track| ==> track[k].time >= 0.0
  }

  /** The forward scan: starting after `index`, move the cursor over every
      cue that is due (`elapsed >= time`) and stop at the first one that is
      not. It never looks back at cues at or before `index`. */
  function Advance(track: seq<Cue>, index: int, elapsed: real): (r: int)
    requires -1 <= index < |track|
    ensures index <= r < |track|
    ensures forall k :: index < k <= r ==> track[k].time <= elapsed
    ensures r + 1 == |track| || track[r + 1].time > elapsed
    decreases |track| - index
  {
    if index + 1 < |track| && elapsed >= track[index + 1].time then
      Advance(track, index + 1, elapsed)
    else
      index
  }

  /** Reference definition: the highest position whose cue is due at `t`,
      or -1 when no cue is. */
  function LastDue(track: seq<Cue>, t: real): (r: int)
    ensures -1 <= r < |track|
    ensures r >= 0 ==> track[r].time <= t
    ensures forall k :: r < k < |track| ==> track[k].time > t
  {
    if |track| == 0 then -1
    else if track[|track| - 1].time <= t then |track| - 1
    else LastDue(track[..|track| - 1], t)
  }

  /** On a sorted track, when every cue up to the cursor is due, the forward
      scan lands exactly on the last due cue. */
  lemma AdvanceFindsLastDue(track: seq<Cue>, index: int, elapsed: real)
    requires Sorted(track)
    requires -1 <= index < |track|
    requires index == -1 || track[index].time <= elapsed
    ensures Advance(track, index, elapsed) == LastDue(track, elapsed)
  {
    var r := Advance(track, index, elapsed);
    assert forall k :: r < k < |track| ==> track[r + 1].time <= track[k].time;
    assert r >= 0 ==> track[r].time <= elapsed;
  }

  /** Scanning forward at `e1` and then again at a later `e2` gives the same
      cursor as one scan at `e2`: consecutive ticks never need to rescan. */
  lemma {:induction false} AdvanceComposes(track: seq<Cue>, index: int, e1: real, e2: real)
    requires -1 <= index < |track|
    requires e1 <= e2
    ensures Advance(track, Advance(track, index, e1), e2) == Advance(track, index, e2)
    decreases |track| - index
  {
    if index + 1 < |track| && e1 >= track[index + 1].time {
      AdvanceComposes(track, index + 1, e1, e2);
    }
  }

  /** After a backward seek the forward scan from the old cursor cannot reach
      the right cue: it never moves below its starting position, while the
      last cue due at the target lies before it. This is why a seek rescans
      from -1. */
  lemma ForwardScanCannotSeekBack(track: seq<Cue>, index: int, target: real)
    requires Sorted(track)
    requires 0 <= index < |track| && track[index].time > target
    ensures LastDue(track, target) < index <= Advance(track, index, target)
  {
  }

  /** The estimate of the song's length (script.js lines 51-58): the last cue
      time plus the gap between the last two cues, with a missing second-last
      cue counted as time 0. */
  function TotalDuration(track: seq<Cue>): (d: real)
    ensures |track| == 0 ==> d == 0.0
    ensures |track| == 1 ==> d == 2.0 * track[0].time
    ensures Sorted(track) && NonNegative(track) ==>
      d >= 0.0 && forall k :: 0 <= k < |track| ==> track[k].time <= d
  {
    if |track| == 0 then 0.0
    else
      var last := track[|track| - 1].time;
      var secondLast := if |track| > 1 then track[|track| - 2].time else 0.0;
      last + (last - secondLast)
  }

  /** When every cue is at 0 (untimed plain-text lyrics) the song is over
      as soon as it starts. */
  lemma AllZeroTrackHasNoDuration(track: seq<Cue>)
    requires forall k :: 0 <= k < |track| ==> track[k].time == 0.0
    ensures TotalDuration(track) == 0.0
  {
  }

  /** By the time the song is over, the scan from any due position reaches
      the last cue, so the last line is current at the end of the song. */
  lemma LastCueCurrentAtEnd(track: seq<Cue>, index: int, elapsed: real)
    requires Sorted(track) && NonNegative(track)
    requires -1 <= index < |track|
    requires index == -1 || track[index].time <= elapsed
    requires elapsed >= TotalDuration(track)
    ensures Advance(track, index, elapsed) == LastDue(track, elapsed) == |track| - 1
  {
    AdvanceFindsLastDue(track, index, elapsed);
    if |track| > 0 {
      assert track[|track| - 1].time <= TotalDuration(track);
    }
  }

  /** The text shown as the current lyric for cursor `index`: empty before
      the first cue (script.js lines 131 and 197). */
  function CurrentText(track: seq<Cue>, index: int): string {
    if 0 <= index < |track| then track[index].text else ""
  }

  /** The `k`-th "next" display slot for cursor `index` once `updateLyrics`
      has padded the list of upcoming texts with empty strings. */
  function WindowSlot(track: seq<Cue>, index: int, k: nat): string
    requires -1 <= index
  {
    if index + 1 + k < |track| then track[index + 1 + k].text else ""
  }

  /** Builds the current text and the texts of the up to three following
      cues (script.js lines 131-137, repeated at lines 197-203). */
  method BuildWindow(track: seq<Cue>, index: int) returns (current: string, next: seq<string>)
    requires -1 <= index < |track|
    ensures current == (if index >= 0 then track[index].text else "")
    ensures |next| == Min(3, |track| - 1 - index)
    ensures forall k :: 0 <= k < |next| ==> next[k] == track[index + 1 + k].text
  {
    current := if 0 <= index < |track| then track[index].text else "";
    next := [];
    for i := 1 to 4
      invariant |next| == Min(i - 1, |track| - 1 - index)
      invariant forall k :: 0 <= k < |next| ==> next[k] == track[index + 1 + k].text
    {
      if index + i < |track| {
        next := next + [track[index + i].text];
      }
    }
  }
}
