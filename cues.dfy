/** A lyric cue point `{time, text}` (the `TimecodeEntry` record shared by the
    server and the client) and the stable ascending sort by `time` that both
    sides apply to a cue list: JavaScript's `Array.prototype.sort` with the
    comparator `a.time - b.time`, and Python's `sorted(..., key=time)`. Both
    sorts are stable, so cues with equal times keep their relative order. */
module Cues {

  datatype Cue = Cue(time: real, text: string)

  /** Ascending by time. */
  ghost predicate Sorted(s: seq<Cue>) {
    forall i, j :: 0 <= i < j < |s| ==> s[i].time <= s[j].time
  }

  /** The cues of `s` whose time is exactly `t`, in their order in `s`. A sort
      is stable when it leaves every such subsequence as it was. */
  function WithTime(s: seq<Cue>, t: real): seq<Cue> {
    if |s| == 0 then []
    else WithTime(s[..|s| - 1], t) + (if s[|s| - 1].time == t then [s[|s| - 1]] else [])
  }

  /** Inserts `c` after every cue of `s` whose time is at most `c.time`
      looking from the right: one pass of a stable insertion sort. */
  function Insert(s: seq<Cue>, c: Cue): seq<Cue> {
    if |s| == 0 then [c]
    else if s[|s| - 1].time <= c.time then s + [c]
    else Insert(s[..|s| - 1], c) + [s[|s| - 1]]
  }

  /** The stable ascending sort by time, as insertion sort. */
  function SortByTime(s: seq<Cue>): seq<Cue> {
    if |s| == 0 then [] else Insert(SortByTime(s[..|s| - 1]), s[|s| - 1])
  }

  lemma {:induction false} InsertPermutes(s: seq<Cue>, c: Cue)
    ensures multiset(Insert(s, c)) == multiset(s) + multiset{c}
    decreases |s|
  {
    if |s| == 0 {
      assert Insert(s, c) == [c];
    } else if s[|s| - 1].time <= c.time {
      assert Insert(s, c) == s + [c];
    } else {
      var init, last := s[..|s| - 1], s[|s| - 1];
      assert Insert(s, c) == Insert(init, c) + [last];
      InsertPermutes(init, c);
      SplitLast(s);
    }
  }

  /** Every cue of `s` is at or before time `b`. */
  ghost predicate AllAtMost(s: seq<Cue>, b: real) {
    forall k :: 0 <= k < |s| ==> s[k].time <= b
  }

  lemma {:induction false} InsertLength(s: seq<Cue>, c: Cue)
    ensures |Insert(s, c)| == |s| + 1
    decreases |s|
  {
    if |s| > 0 && s[|s| - 1].time > c.time {
      InsertLength(s[..|s| - 1], c);
    }
  }

  /** Inserting a cue no later than `b` into cues no later than `b`. */
  lemma {:induction false} InsertAtMost(s: seq<Cue>, c: Cue, b: real)
    requires AllAtMost(s, b) && c.time <= b
    ensures AllAtMost(Insert(s, c), b)
    decreases |s|
  {
    if |s| == 0 {
      assert Insert(s, c) == [c];
    } else if s[|s| - 1].time <= c.time {
      assert Insert(s, c) == s + [c];
    } else {
      var init := s[..|s| - 1];
      assert AllAtMost(init, b);
      InsertAtMost(init, c, b);
      assert Insert(s, c) == Insert(init, c) + [s[|s| - 1]];
    }
  }

  /** A sorted list stays sorted when a cue no earlier than all of it is
      appended. */
  lemma SortedSnoc(s: seq<Cue>, c: Cue)
    requires Sorted(s) && AllAtMost(s, c.time)
    ensures Sorted(s + [c])
  {
    var r := s + [c];
    forall i, j | 0 <= i < j < |r| ensures r[i].time <= r[j].time {
      if j < |s| {
        assert r[i] == s[i] && r[j] == s[j];
      } else {
        assert r[i] == s[i] && r[j] == c;
      }
    }
  }

  lemma {:induction false} InsertSorted(s: seq<Cue>, c: Cue)
    requires Sorted(s)
    ensures Sorted(Insert(s, c))
    decreases |s|
  {
    if |s| == 0 {
      assert Insert(s, c) == [c];
    } else {
      var init, last := s[..|s| - 1], s[|s| - 1];
      assert AllAtMost(init, last.time);
      if last.time <= c.time {
        assert AllAtMost(s, c.time);
        SortedSnoc(s, c);
      } else {
        InsertSorted(init, c);
        InsertAtMost(init, c, last.time);
        SortedSnoc(Insert(init, c), last);
      }
    }
  }

  /** The cues with time `t` after appending `x`. */
  lemma WithTimeSnoc(s: seq<Cue>, x: Cue, t: real)
    ensures WithTime(s + [x], t) == WithTime(s, t) + (if x.time == t then [x] else [])
  {
    assert (s + [x])[..|s|] == s;
  }

  lemma {:induction false} InsertStable(s: seq<Cue>, c: Cue, t: real)
    ensures WithTime(Insert(s, c), t) == WithTime(s, t) + (if c.time == t then [c] else [])
    decreases |s|
  {
    if |s| == 0 {
      assert Insert(s, c) == s + [c];
      WithTimeSnoc(s, c, t);
    } else if s[|s| - 1].time <= c.time {
      assert Insert(s, c) == s + [c];
      WithTimeSnoc(s, c, t);
    } else {
      var init, last := s[..|s| - 1], s[|s| - 1];
      var r := Insert(init, c);
      assert Insert(s, c) == r + [last];
      WithTimeSnoc(r, last, t);
      InsertStable(init, c, t);
      assert s == init + [last];
      WithTimeSnoc(init, last, t);
      assert !(c.time == t && last.time == t);
    }
  }

  lemma {:induction false} SortByTimeLength(s: seq<Cue>)
    ensures |SortByTime(s)| == |s|
    decreases |s|
  {
    if |s| > 0 {
      SortByTimeLength(s[..|s| - 1]);
      InsertLength(SortByTime(s[..|s| - 1]), s[|s| - 1]);
    }
  }

  lemma {:induction false} SortByTimeSorts(s: seq<Cue>)
    ensures Sorted(SortByTime(s))
    decreases |s|
  {
    if |s| > 0 {
      SortByTimeSorts(s[..|s| - 1]);
      InsertSorted(SortByTime(s[..|s| - 1]), s[|s| - 1]);
    }
  }

  lemma {:induction false} SortByTimePermutes(s: seq<Cue>)
    ensures multiset(SortByTime(s)) == multiset(s)
    decreases |s|
  {
    if |s| > 0 {
      var init, last := s[..|s| - 1], s[|s| - 1];
      var sortedInit := SortByTime(init);
      assert SortByTime(s) == Insert(sortedInit, last);
      SortByTimePermutes(init);
      InsertPermutes(sortedInit, last);
      SplitLast(s);
    }
  }

  /** The multiset of a non-empty list is that of all but its last cue plus
      the last one. */
  lemma SplitLast(s: seq<Cue>)
    requires |s| > 0
    ensures multiset(s) == multiset(s[..|s| - 1]) + multiset{s[|s| - 1]}
  {
    assert s == s[..|s| - 1] + [s[|s| - 1]];
  }

  /** The sort is stable: for every time value, the cues with that time
      appear in the output in the order they had in the input. */
  lemma {:induction false} SortByTimeStable(s: seq<Cue>, t: real)
    ensures WithTime(SortByTime(s), t) == WithTime(s, t)
    decreases |s|
  {
    if |s| > 0 {
      var init := s[..|s| - 1];
      SortByTimeStable(init, t);
      InsertStable(SortByTime(init), s[|s| - 1], t);
    }
  }

  /** Sorting an already sorted list changes nothing. */
  lemma {:induction false} SortByTimeOfSorted(s: seq<Cue>)
    requires Sorted(s)
    ensures SortByTime(s) == s
    decreases |s|
  {
    if |s| > 0 {
      var init := s[..|s| - 1];
      SortByTimeOfSorted(init);
      assert s == init + [s[|s| - 1]];
    }
  }

  /** One pass of the in-place insertion sort: shifts the cues of `a[..i]`
      that are later than `a[i]` one place right and drops `a[i]` into the
      gap, so that `a[..i + 1]` becomes `Insert(a[..i], a[i])`. */
  method InsertInPlace(a: array<Cue>, i: nat)
    requires i < a.Length
    modifies a
    ensures a[..i + 1] == Insert(old(a[..i]), old(a[i]))
    ensures a[i + 1..] == old(a[i + 1..])
  {
    ghost var done := a[..i];
    var c := a[i];
    var j := i;
    while j > 0 && a[j - 1].time > c.time
      invariant 0 <= j <= i
      invariant forall k :: 0 <= k < j ==> a[k] == done[k]
      invariant forall k :: j < k <= i ==> a[k] == done[k - 1]
      invariant forall k :: i < k < a.Length ==> a[k] == old(a[k])
      invariant forall k :: j <= k < i ==> done[k].time > c.time
    {
      a[j] := a[j - 1];
      j := j - 1;
    }
    InsertPosition(done, c, j);
    a[j] := c;
    assert a[..i + 1] == done[..j] + [c] + done[j..];
    assert a[i + 1..] == old(a[i + 1..]);
  }

  /** `Insert` places `c` right after the last cue whose time is at most
      `c.time`: at position `j` when every cue from `j` on is later than `c`. */
  lemma {:induction false} InsertPosition(s: seq<Cue>, c: Cue, j: nat)
    requires j <= |s|
    requires j == 0 || s[j - 1].time <= c.time
    requires forall k :: j <= k < |s| ==> s[k].time > c.time
    ensures Insert(s, c) == s[..j] + [c] + s[j..]
    decreases |s|
  {
    if j == |s| {
      assert s[..j] == s && s[j..] == [];
    } else {
      var init := s[..|s| - 1];
      InsertPosition(init, c, j);
      assert init[..j] == s[..j];
      assert init[j..] + [s[|s| - 1]] == s[j..];
    }
  }

  /** The in-place insertion sort that `Array.prototype.sort` is modelled by.
      It leaves the array holding exactly `SortByTime` of its old contents. */
  method SortInPlace(a: array<Cue>)
    modifies a
    ensures a[..] == SortByTime(old(a[..]))
  {
    ghost var input := a[..];
    var i := 0;
    while i < a.Length
      invariant 0 <= i <= a.Length
      invariant a[..i] == SortByTime(input[..i])
      invariant a[i..] == input[i..]
    {
      assert a[i + 1..] == input[i + 1..] by {
        assert a[i..][1..] == a[i + 1..] && input[i..][1..] == input[i + 1..];
      }
      InsertInPlace(a, i);
      assert input[..i + 1][..i] == input[..i];
      i := i + 1;
    }
    assert a[..] == a[..a.Length];
    assert input == input[..a.Length];
  }
}
