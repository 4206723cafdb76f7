/** `LyricScheduler` of backend/lyric_scheduler.py: a server-side cursor over
    the cues of a song, sorted by time, that hands out the next cue once the
    audio time has come within `leadOffset` seconds of it. */
module Scheduler {
  import opened Common
  import opened Cues

  /** A cue counts as due at audio time `now` from `lead` seconds before its
      time on. */
  predicate Due(c: Cue, now: real, lead: real) {
    now >= c.time - lead
  }

  /** The first position after `cursor` whose cue is due at `now`, if any. */
  function FirstDue(tc: seq<Cue>, cursor: int, now: real, lead: real): (r: Option<nat>)
    requires -1 <= cursor < |tc|
    ensures r.Some? ==>
      && cursor < r.value < |tc| && Due(tc[r.value], now, lead)
      && forall k :: cursor < k < r.value ==> !Due(tc[k], now, lead)
    ensures r.None? ==> forall k :: cursor < k < |tc| ==> !Due(tc[k], now, lead)
    decreases |tc| - cursor
  {
    if cursor + 1 == |tc| then None
    else if Due(tc[cursor + 1], now, lead) then Some(cursor + 1)
    else FirstDue(tc, cursor + 1, now, lead)
  }

  /** On a sorted list a call can only hand out the cue right after the
      cursor: it does exactly when that cue is due. */
  lemma SortedStepsByOne(tc: seq<Cue>, cursor: int, now: real, lead: real)
    requires Sorted(tc) && -1 <= cursor < |tc|
    ensures FirstDue(tc, cursor, now, lead) ==
      if cursor + 1 < |tc| && Due(tc[cursor + 1], now, lead) then Some(cursor + 1) else None
  {
  }

  /** How many of the calls made at the audio times `times`, in order and
      starting at cursor `cursor`, hand out a cue. */
  function Hits(tc: seq<Cue>, lead: real, cursor: int, times: seq<real>): (n: nat)
    requires -1 <= cursor < |tc|
    ensures n <= |tc| - 1 - cursor
    ensures n <= |times|
    decreases |times|
  {
    if |times| == 0 then 0
    else match FirstDue(tc, cursor, times[0], lead)
      case None => Hits(tc, lead, cursor, times[1..])
      case Some(i) => 1 + Hits(tc, lead, i, times[1..])
  }

  class LyricScheduler {
    var timecodes: seq<Cue>   // self.timecodes
    var leadOffset: real      // self.lead_offset, s
    var currentIndex: int     // self.current_lyric_index

    ghost predicate Valid()
      reads this
    {
      -1 <= currentIndex < |timecodes| && Sorted(timecodes)
    }

    /** `__init__` (lines 5-8): keeps a copy of the cues sorted by time, ties
        in their original order, under a cursor before the first cue. */
    constructor (input: seq<Cue>, lead: real := 0.5)
      ensures Valid()
      ensures timecodes == SortByTime(input) && leadOffset == lead && currentIndex == -1
    {
      SortByTimeSorts(input);
      timecodes := SortByTime(input);
      leadOffset := lead;
      currentIndex := -1;
    }

    /** `get_next_lyric` (lines 10-17): scans the cues after the cursor for
        the first due one; on a hit it moves the cursor there and returns the
        cue, otherwise it returns nothing and the cursor stays. */
    method GetNextLyric(now: real) returns (r: Option<Cue>)
      requires Valid()
      modifies this`currentIndex
      ensures Valid()
      ensures currentIndex >= old(currentIndex)
      ensures FirstDue(timecodes, old(currentIndex), now, leadOffset).Some? ==>
        var i := FirstDue(timecodes, old(currentIndex), now, leadOffset).value;
        r == Some(timecodes[i]) && currentIndex == i
      ensures FirstDue(timecodes, old(currentIndex), now, leadOffset).None? ==>
        r.None? && currentIndex == old(currentIndex)
    {
      var i := currentIndex + 1;
      while i < |timecodes|
        invariant currentIndex == old(currentIndex) && currentIndex < i <= |timecodes|
        invariant FirstDue(timecodes, i - 1, now, leadOffset) == FirstDue(timecodes, old(currentIndex), now, leadOffset)
      {
        var entry := timecodes[i];
        if now >= entry.time - leadOffset {
          currentIndex := i;
          return Some(entry);
        }
        i := i + 1;
      }
      return None;
    }

    /** `reset` (lines 19-20): the cursor goes back before the first cue. */
    method Reset()
      requires Valid()
      modifies this`currentIndex
      ensures Valid() && currentIndex == -1
    {
      currentIndex := -1;
    }
  }
}
