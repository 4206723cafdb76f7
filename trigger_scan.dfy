/** The current/next scan of `trigger_lyric` in backend/main.py (lines
    183-193): one pass over the stored cues that remembers the text of the
    last cue due at the given time and collects the texts of the cues not yet
    due, stopping as soon as it holds three. */
module LiveTrigger {
  import opened Common
  import opened Cues
  import opened Cursor

  /** The texts of the cues at positions `lo` up to `hi` of `tc`, in order. */
  function Texts(tc: seq<Cue>, lo: nat, hi: nat): (texts: seq<string>)
    requires lo <= hi <= |tc|
    ensures |texts| == hi - lo
    ensures forall k :: 0 <= k < hi - lo ==> texts[k] == tc[lo + k].text
    decreases hi
  {
    if hi == lo then [] else Texts(tc, lo, hi - 1) + [tc[hi - 1].text]
  }

  /** The texts of the cues among the first `m` of `tc` that are not yet due
      at `t`, in their order in `tc`. */
  function LaterTexts(tc: seq<Cue>, t: real, m: nat): (texts: seq<string>)
    requires m <= |tc|
    ensures |texts| <= m
  {
    if m == 0 then []
    else LaterTexts(tc, t, m - 1) + (if tc[m - 1].time > t then [tc[m - 1].text] else [])
  }

  /** `LastDue` of the first `m` cues of `tc`: the last position among them
      whose cue is due at `t`, or -1 when none is. */
  function LastDueIn(tc: seq<Cue>, t: real, m: nat): (r: int)
    requires m <= |tc|
    ensures -1 <= r < m
    ensures r >= 0 ==> tc[r].time <= t
    ensures forall k :: r < k < m ==> tc[k].time > t
  {
    var r := LastDue(tc[..m], t);
    assert forall k :: r < k < m ==> tc[..m][k] == tc[k];
    r
  }

  /** The text of the last cue among the first `m` that is due at `t`, if
      any. */
  function LastDueText(tc: seq<Cue>, t: real, m: nat): (r: Option<string>)
    requires m <= |tc|
    ensures r.None? <==> forall k :: 0 <= k < m ==> tc[k].time > t
  {
    var d := LastDueIn(tc, t, m);
    if d >= 0 then Some(tc[d].text) else None
  }

  /** A longer prefix never has fewer cues not yet due. */
  lemma {:induction false} LaterTextsGrow(tc: seq<Cue>, t: real, m: nat, n: nat)
    requires m <= n <= |tc|
    ensures |LaterTexts(tc, t, m)| <= |LaterTexts(tc, t, n)|
    decreases n - m
  {
    if m < n {
      LaterTextsGrow(tc, t, m, n - 1);
    }
  }

  /** While the first `n` cues hold fewer than three to come, so does every
      shorter prefix. */
  lemma ShorterPrefixesFewer(tc: seq<Cue>, t: real, n: nat)
    requires n <= |tc| && |LaterTexts(tc, t, n)| < 3
    ensures forall m :: 0 <= m <= n ==> |LaterTexts(tc, t, m)| < 3
  {
    forall m | 0 <= m <= n ensures |LaterTexts(tc, t, m)| < 3 {
      LaterTextsGrow(tc, t, m, n);
    }
  }

  /** On a sorted list no cue up to the last due one is still to come. */
  lemma {:induction false} NothingLaterBeforeLastDue(tc: seq<Cue>, t: real, m: nat)
    requires Sorted(tc)
    requires m <= LastDue(tc, t) + 1
    ensures LaterTexts(tc, t, m) == []
    decreases m
  {
    if m > 0 {
      NothingLaterBeforeLastDue(tc, t, m - 1);
      assert tc[m - 1].time <= tc[LastDue(tc, t)].time;
    }
  }

  /** Any prefix that holds the last due cue of the whole list has it as its
      own last due cue. */
  lemma LastDueOfLongerPrefix(tc: seq<Cue>, t: real, m: nat)
    requires LastDue(tc, t) + 1 <= m <= |tc|
    ensures LastDueIn(tc, t, m) == LastDue(tc, t)
  {
  }

  /** Past the last due cue, extending a prefix only adds cues still to
      come. */
  lemma {:induction false} LaterTextsPastLastDue(tc: seq<Cue>, t: real, m: nat)
    requires LastDue(tc, t) + 1 <= m <= |tc|
    ensures LaterTexts(tc, t, m) == LaterTexts(tc, t, LastDue(tc, t) + 1) + Texts(tc, LastDue(tc, t) + 1, m)
    decreases m
  {
    var d := LastDue(tc, t);
    if m > d + 1 {
      LaterTextsPastLastDue(tc, t, m - 1);
      var x := tc[m - 1].text;
      assert tc[m - 1].time > t;
      assert LaterTexts(tc, t, m) == LaterTexts(tc, t, m - 1) + [x];
      assert Texts(tc, d + 1, m) == Texts(tc, d + 1, m - 1) + [x];
      assert (LaterTexts(tc, t, d + 1) + Texts(tc, d + 1, m - 1)) + [x] ==
        LaterTexts(tc, t, d + 1) + (Texts(tc, d + 1, m - 1) + [x]);
    }
  }

  /** For a sorted list the scan agrees with the client's window: its
      current lyric is the last due cue's and the lyrics to come are the
      texts of the up to three cues after it. */
  lemma SortedScanWindow(tc: seq<Cue>, t: real, scanned: nat)
    requires Sorted(tc) && scanned <= |tc|
    requires |LaterTexts(tc, t, scanned)| <= 3
    requires scanned < |tc| ==> |LaterTexts(tc, t, scanned)| == 3
    ensures var d := LastDue(tc, t);
      && LastDueIn(tc, t, scanned) == d
      && LaterTexts(tc, t, scanned) == Texts(tc, d + 1, d + 1 + Min(3, |tc| - 1 - d))
  {
    var d := LastDue(tc, t);
    if scanned < d + 1 {
      NothingLaterBeforeLastDue(tc, t, scanned);
      assert false;
    }
    NothingLaterBeforeLastDue(tc, t, d + 1);
    LastDueOfLongerPrefix(tc, t, scanned);
    LaterTextsPastLastDue(tc, t, scanned);
    assert LaterTexts(tc, t, scanned) == Texts(tc, d + 1, scanned);
    assert scanned == d + 1 + Min(3, |tc| - 1 - d);
  }

  /** The scan of lines 183-193. `scanned` is how many cues it looked at.
      The current lyric is that of the last due cue among them (`None` when
      none was due) and the lyrics to come are, in order, the texts of those
      not yet due: at most three, the scan stopping right after the third
      and not before. On a sorted list this is the client's window around
      the last due cue. */
  method Scan(timecodes: seq<Cue>, currentTime: real) returns (current: Option<string>, next: seq<string>, ghost scanned: nat)
    ensures scanned <= |timecodes|
    ensures current == LastDueText(timecodes, currentTime, scanned)
    ensures next == LaterTexts(timecodes, currentTime, scanned)
    ensures |next| <= 3
    ensures scanned < |timecodes| ==> |next| == 3 && timecodes[scanned - 1].time > currentTime
    ensures forall m :: 0 <= m < scanned ==> |LaterTexts(timecodes, currentTime, m)| < 3
    ensures Sorted(timecodes) ==>
      var d := LastDue(timecodes, currentTime);
      && current == (if d >= 0 then Some(timecodes[d].text) else None)
      && next == Texts(timecodes, d + 1, d + 1 + Min(3, |timecodes| - 1 - d))
  {
    current := None;
    next := [];
    scanned := |timecodes|;
    ghost var stopped := false;
    for i := 0 to |timecodes|
      invariant current == LastDueText(timecodes, currentTime, i)
      invariant next == LaterTexts(timecodes, currentTime, i)
      invariant |next| < 3
      invariant scanned == |timecodes| && !stopped
    {
      var tc := timecodes[i];
      if tc.time <= currentTime {
        current := Some(tc.text);
      } else {
        ShorterPrefixesFewer(timecodes, currentTime, i);
        next := next + [tc.text];
        if |next| >= 3 {
          scanned, stopped := i + 1, true;
          break;
        }
      }
    }
    if !stopped {
      ShorterPrefixesFewer(timecodes, currentTime, scanned);
    }
    if Sorted(timecodes) {
      SortedScanWindow(timecodes, currentTime, scanned);
    }
  }
}
