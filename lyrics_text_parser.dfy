/** backend/lyrics_text_parser.py: plain-text lyrics become a list of
    trimmed, non-blank lines, and a list of lines becomes a cue list, either
    spread evenly over a known duration or all at time 0. */
module TextParser {
  import opened Common
  import opened Cues

  // ---------------------------------------------------------------------
  // `str.split('\n')`

  /** Text without a '\n'. */
  predicate NoNewLine(s: string) {
    forall k :: 0 <= k < |s| ==> s[k] != '\n'
  }

  /** The number of '\n' characters in `s`. */
  function NewLines(s: string): nat {
    if |s| == 0 then 0 else (if s[0] == '\n' then 1 else 0) + NewLines(s[1..])
  }

  /** The pieces of `[c] + s` from the pieces of `s`: a '\n' starts a new
      empty piece, any other character goes in front of the first piece. */
  function PrependChar(c: char, pieces: seq<string>): (r: seq<string>)
    requires |pieces| >= 1
    ensures |r| == |pieces| + (if c == '\n' then 1 else 0)
  {
    if c == '\n' then [""] + pieces else [[c] + pieces[0]] + pieces[1..]
  }

  /** `s.split('\n')`: the pieces between the '\n' separators, one more
      piece than there are separators (so "" gives [""]). */
  function Split(s: string): (pieces: seq<string>)
    ensures |pieces| == NewLines(s) + 1
    decreases |s|
  {
    if |s| == 0 then [""] else PrependChar(s[0], Split(s[1..]))
  }

  /** No piece of a split contains a '\n'. */
  lemma {:induction false} SplitPiecesNoNewLine(s: string)
    ensures forall i :: 0 <= i < |Split(s)| ==> NoNewLine(Split(s)[i])
    decreases |s|
  {
    if |s| > 0 {
      SplitPiecesNoNewLine(s[1..]);
      var rest := Split(s[1..]);
      if s[0] != '\n' {
        var first := [s[0]] + rest[0];
        assert NoNewLine(first) by {
          assert forall k :: 1 <= k < |first| ==> first[k] == rest[0][k - 1];
        }
      }
    }
  }

  /** `'\n'.join(pieces)`. */
  function Join(pieces: seq<string>): string
    decreases |pieces|
  {
    if |pieces| == 0 then ""
    else if |pieces| == 1 then pieces[0]
    else pieces[0] + "\n" + Join(pieces[1..])
  }

  /** Splitting and joining again gives back the text. */
  lemma {:induction false} JoinSplit(s: string)
    ensures Join(Split(s)) == s
    decreases |s|
  {
    if |s| > 0 {
      var rest := Split(s[1..]);
      JoinSplit(s[1..]);
      if s[0] != '\n' {
        var ps := [[s[0]] + rest[0]] + rest[1..];
        assert ps[1..] == rest[1..];
        if |rest| > 1 {
          assert Join(rest) == rest[0] + "\n" + Join(rest[1..]);
        }
      }
      assert s == [s[0]] + s[1..];
    }
  }

  /** `Split` of a text with one more character in front. */
  lemma SplitCons(c: char, s: string)
    ensures Split([c] + s) == PrependChar(c, Split(s))
  {
    assert ([c] + s)[0] == c && ([c] + s)[1..] == s;
  }

  /** Prepending a character only touches the first piece. */
  lemma PrependCharConcat(c: char, pa: seq<string>, pb: seq<string>)
    requires |pa| >= 1
    ensures PrependChar(c, pa + pb) == PrependChar(c, pa) + pb
  {
    if c != '\n' {
      assert (pa + pb)[0] == pa[0];
      assert (pa + pb)[1..] == pa[1..] + pb;
    }
  }

  /** Splitting a concatenation at a '\n' concatenates the pieces. */
  lemma {:induction false} SplitConcat(a: string, b: string)
    ensures Split(a + "\n" + b) == Split(a) + Split(b)
    decreases |a|
  {
    if |a| == 0 {
      assert a + "\n" + b == ['\n'] + b;
      SplitCons('\n', b);
      assert Split(a) == [""];
    } else {
      var c, a1 := a[0], a[1..];
      SplitConcat(a1, b);
      assert a == [c] + a1;
      assert a + "\n" + b == [c] + (a1 + "\n" + b);
      SplitCons(c, a1 + "\n" + b);
      SplitCons(c, a1);
      PrependCharConcat(c, Split(a1), Split(b));
    }
  }

  /** Text without '\n' is a single piece. */
  lemma {:induction false} NoNewLineSplit(s: string)
    requires NoNewLine(s)
    ensures Split(s) == [s]
    decreases |s|
  {
    if |s| > 0 {
      NoNewLineSplit(s[1..]);
      assert s == [s[0]] + s[1..];
    }
  }

  /** Joining pieces that contain no '\n' and splitting again gives back
      the pieces. */
  lemma {:induction false} SplitJoin(pieces: seq<string>)
    requires |pieces| >= 1
    requires forall i :: 0 <= i < |pieces| ==> NoNewLine(pieces[i])
    ensures Split(Join(pieces)) == pieces
    decreases |pieces|
  {
    NoNewLineSplit(pieces[0]);
    if |pieces| > 1 {
      SplitJoin(pieces[1..]);
      SplitConcat(pieces[0], Join(pieces[1..]));
      assert [pieces[0]] + pieces[1..] == pieces;
    }
  }

  // ---------------------------------------------------------------------
  // `str.strip()`

  /** The characters `str.strip()` removes: those for which Python's
      `str.isspace()` holds. */
  predicate IsSpace(c: char) {
    || ('\t' <= c <= '\r') || ('\U{1c}' <= c <= '\U{1f}') || c == ' '
    || c == '\U{85}' || c == '\U{a0}' || c == '\U{1680}'
    || ('\U{2000}' <= c <= '\U{200a}') || c == '\U{2028}' || c == '\U{2029}'
    || c == '\U{202f}' || c == '\U{205f}' || c == '\U{3000}'
  }

  /** Text with nothing to strip at either end. */
  predicate Stripped(s: string) {
    |s| == 0 || (!IsSpace(s[0]) && !IsSpace(s[|s| - 1]))
  }

  /** Text made only of whitespace (including the empty text). */
  predicate Blank(s: string) {
    forall k :: 0 <= k < |s| ==> IsSpace(s[k])
  }

  /** Where `s.strip()` cuts at the start: the first position from `i` on
      that is not whitespace, or the end. */
  function StripStartFrom(s: string, i: nat): (lo: nat)
    requires i <= |s|
    ensures i <= lo <= |s|
    ensures forall k :: i <= k < lo ==> IsSpace(s[k])
    ensures lo == |s| || !IsSpace(s[lo])
    decreases |s| - i
  {
    if i < |s| && IsSpace(s[i]) then StripStartFrom(s, i + 1) else i
  }

  /** Where `s.strip()` cuts at the end: going down from `j` no lower than
      `lo`, just after the last position that is not whitespace. */
  function StripEndFrom(s: string, lo: nat, j: nat): (hi: nat)
    requires lo <= j <= |s|
    ensures lo <= hi <= j
    ensures forall k :: hi <= k < j ==> IsSpace(s[k])
    ensures hi == lo || !IsSpace(s[hi - 1])
    decreases j
  {
    if j > lo && IsSpace(s[j - 1]) then StripEndFrom(s, lo, j - 1) else j
  }

  /** How many whitespace characters `s.strip()` drops at the start. */
  function LeadingSpaces(s: string): (n: nat)
    ensures n <= |s|
  {
    StripStartFrom(s, 0)
  }

  /** `s.strip()`: the infix of `s` left once whitespace is dropped at both
      ends, so it neither starts nor ends with whitespace; it is empty
      exactly when `s` is blank. */
  function Strip(s: string): (r: string)
    ensures Stripped(r)
    ensures LeadingSpaces(s) + |r| <= |s|
    ensures forall k :: 0 <= k < |r| ==> r[k] == s[LeadingSpaces(s) + k]
    ensures forall k :: LeadingSpaces(s) + |r| <= k < |s| ==> IsSpace(s[k])
    ensures r == "" <==> Blank(s)
  {
    var lo := StripStartFrom(s, 0);
    s[lo..StripEndFrom(s, lo, |s|)]
  }

  /** Stripping stripped text changes nothing. */
  lemma StripStripped(s: string)
    requires Stripped(s)
    ensures Strip(s) == s
  {
  }

  /** Stripping cannot bring in a '\n'. */
  lemma StripNoNewLine(s: string)
    requires NoNewLine(s)
    ensures NoNewLine(Strip(s))
  {
  }

  // ---------------------------------------------------------------------
  // `parse_plain_text_lyrics`

  /** A line the parser can produce: not empty, nothing to strip. */
  predicate IsLine(l: string) {
    l != "" && Stripped(l)
  }

  /** The list comprehension over the pieces: each piece that is not blank,
      stripped, in order. */
  function KeepLines(pieces: seq<string>): (lines: seq<string>)
    ensures |lines| <= |pieces|
    ensures forall i :: 0 <= i < |lines| ==> IsLine(lines[i])
    decreases |pieces|
  {
    if |pieces| == 0 then []
    else
      var line := Strip(pieces[0]);
      var rest := KeepLines(pieces[1..]);
      if line != "" then [line] + rest else rest
  }

  /** No kept line contains a '\n' when no piece does. */
  lemma {:induction false} KeepLinesNoNewLine(pieces: seq<string>)
    requires forall i :: 0 <= i < |pieces| ==> NoNewLine(pieces[i])
    ensures forall i :: 0 <= i < |KeepLines(pieces)| ==> NoNewLine(KeepLines(pieces)[i])
    decreases |pieces|
  {
    if |pieces| > 0 {
      KeepLinesNoNewLine(pieces[1..]);
      StripNoNewLine(pieces[0]);
    }
  }

  /** `parse_plain_text_lyrics` (line 6): the non-blank '\n'-separated
      pieces of the text, stripped, in order. No line is empty, starts or
      ends with whitespace or contains '\n', and there are at most as many
      lines as the text has '\n' characters plus one. */
  function ParsePlainText(text: string): (lines: seq<string>)
    ensures forall i :: 0 <= i < |lines| ==> IsLine(lines[i]) && NoNewLine(lines[i])
    ensures |lines| <= NewLines(text) + 1
  {
    SplitPiecesNoNewLine(text);
    KeepLinesNoNewLine(Split(text));
    KeepLines(Split(text))
  }

  /** Keeping lines distributes over concatenation of the piece lists. */
  lemma {:induction false} KeepLinesConcat(p: seq<string>, q: seq<string>)
    ensures KeepLines(p + q) == KeepLines(p) + KeepLines(q)
    decreases |p|
  {
    if |p| == 0 {
      assert p + q == q;
    } else {
      assert (p + q)[0] == p[0] && (p + q)[1..] == p[1..] + q;
      KeepLinesConcat(p[1..], q);
    }
  }

  /** Parsing two texts joined by '\n' gives the lines of the first
      followed by the lines of the second: the output keeps the input
      order, piece by piece. */
  lemma ParseConcat(a: string, b: string)
    ensures ParsePlainText(a + "\n" + b) == ParsePlainText(a) + ParsePlainText(b)
  {
    SplitConcat(a, b);
    KeepLinesConcat(Split(a), Split(b));
  }

  /** `KeepLines` of a list with one more piece in front. */
  lemma KeepLinesCons(piece: string, rest: seq<string>)
    ensures KeepLines([piece] + rest) ==
      if Strip(piece) != "" then [Strip(piece)] + KeepLines(rest) else KeepLines(rest)
  {
    assert ([piece] + rest)[0] == piece && ([piece] + rest)[1..] == rest;
  }

  /** Lines that are already non-empty and stripped are all kept as they
      are. */
  lemma {:induction false} KeepLinesOfLines(lines: seq<string>)
    requires forall i :: 0 <= i < |lines| ==> IsLine(lines[i])
    ensures KeepLines(lines) == lines
    decreases |lines|
  {
    if |lines| > 0 {
      var l, tail := lines[0], lines[1..];
      assert lines == [l] + tail;
      assert IsLine(l);
      assert forall i :: 0 <= i < |tail| ==> IsLine(tail[i]) by {
        forall i | 0 <= i < |tail| ensures IsLine(tail[i]) {
          assert tail[i] == lines[i + 1];
        }
      }
      KeepLinesOfLines(tail);
      StripStripped(l);
      KeepLinesCons(l, tail);
    }
  }

  /** Parsing is idempotent: parsing the '\n'-join of its output gives the
      same lines. */
  lemma ParseIdempotent(text: string)
    ensures ParsePlainText(Join(ParsePlainText(text))) == ParsePlainText(text)
  {
    var lines := ParsePlainText(text);
    if |lines| > 0 {
      SplitJoin(lines);
      KeepLinesOfLines(lines);
    }
  }

  // ---------------------------------------------------------------------
  // `generate_basic_timecodes_from_text`

  /** Python truthiness of the optional `total_duration`: `None` and `0.0`
      are false. */
  predicate Truthy(totalDuration: Option<real>) {
    totalDuration.Some? && totalDuration.value != 0.0
  }

  /** The time the generator gives line `i` of `n`: `i * (d / n)` for a
      truthy duration `d`, otherwise 0. */
  function CueTime(i: nat, n: nat, totalDuration: Option<real>): real {
    if Truthy(totalDuration) && n > 0 then (i as real) * (totalDuration.value / (n as real)) else 0.0
  }

  /** The cue list the generator produces: one cue per line, in order, at
      `CueTime`. */
  function BasicTimecodes(lines: seq<string>, totalDuration: Option<real>): (tc: seq<Cue>)
    ensures |tc| == |lines|
    ensures forall i :: 0 <= i < |tc| ==> tc[i].text == lines[i]
  {
    seq(|lines|, i requires 0 <= i < |lines| => Cue(CueTime(i, |lines|, totalDuration), lines[i]))
  }

  /** `generate_basic_timecodes_from_text` (lines 8-25): appends one cue per
      line, spaced by `total_duration / n` in the first loop, all at 0 in the
      second. */
  method GenerateBasicTimecodes(lines: seq<string>, totalDuration: Option<real>) returns (timecodes: seq<Cue>)
    ensures timecodes == BasicTimecodes(lines, totalDuration)
  {
    timecodes := [];
    var numLines := |lines|;
    if Truthy(totalDuration) && numLines > 0 {
      var interval := totalDuration.value / (numLines as real);
      for i := 0 to numLines
        invariant |timecodes| == i
        invariant forall k :: 0 <= k < i ==> timecodes[k] == Cue(CueTime(k, numLines, totalDuration), lines[k])
      {
        timecodes := timecodes + [Cue((i as real) * interval, lines[i])];
      }
    } else {
      for i := 0 to numLines
        invariant |timecodes| == i
        invariant forall k :: 0 <= k < i ==> timecodes[k] == Cue(CueTime(k, numLines, totalDuration), lines[k])
      {
        timecodes := timecodes + [Cue(0.0, lines[i])];
      }
    }
  }

  /** With a positive duration `d` the cues start at 0, follow each other
      every `d / n` seconds, so strictly increase, and all lie before `d`. */
  lemma EvenlySpaced(lines: seq<string>, d: real)
    requires d > 0.0 && |lines| > 0
    ensures BasicTimecodes(lines, Some(d))[0].time == 0.0
    ensures forall i :: 0 <= i && i + 1 < |lines| ==>
      BasicTimecodes(lines, Some(d))[i + 1].time == BasicTimecodes(lines, Some(d))[i].time + d / (|lines| as real)
    ensures forall i, j :: 0 <= i < j < |lines| ==>
      BasicTimecodes(lines, Some(d))[i].time < BasicTimecodes(lines, Some(d))[j].time
    ensures forall i :: 0 <= i < |lines| ==> BasicTimecodes(lines, Some(d))[i].time < d
  {
    var tc := BasicTimecodes(lines, Some(d));
    var n := |lines| as real;
    var interval := d / n;
    assert interval > 0.0;
    assert n * interval == d;
    forall i | 0 <= i < |lines| ensures tc[i].time < d {
      assert (i as real) * interval < n * interval;
    }
    forall i, j | 0 <= i < j < |lines| ensures tc[i].time < tc[j].time {
      assert (i as real) * interval < (j as real) * interval;
    }
    forall i | 0 <= i && i + 1 < |lines| ensures tc[i + 1].time == tc[i].time + interval {
      assert ((i + 1) as real) * interval == (i as real) * interval + interval;
    }
  }

  /** Without a truthy duration, or without lines, every cue is at time 0,
      and the list is trivially sorted. */
  lemma NoDurationAllZero(lines: seq<string>, totalDuration: Option<real>)
    requires !Truthy(totalDuration)
    ensures forall i :: 0 <= i < |lines| ==> BasicTimecodes(lines, totalDuration)[i].time == 0.0
    ensures Sorted(BasicTimecodes(lines, totalDuration))
  {
  }
}
