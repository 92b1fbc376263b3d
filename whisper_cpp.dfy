/**
  Handling of whisper.cpp results: reading the segment lines it prints, the
  JSON file it writes, writing SRT and WebVTT subtitles, the command line it is
  started with, and where the result is taken from once the process has run.
  Every time is an integer number of milliseconds.
 */
module WhisperCpp {
  import opened Wrappers
  import opened Text

  datatype Word = Word(word: string, start: nat, end: nat)

  datatype Segment = Segment(id: nat, start: nat, end: nat, text: string, words: seq<Word>)

  /** The result dictionary both parsers produce. */
  datatype Transcript = Transcript(text: string, language: string, segments: seq<Segment>)

  const MillisPerHour := 3600000
  const MillisPerMinute := 60000
  const MillisPerSecond := 1000

  /** Times are printed with two-digit hours, so they read back below 100 hours. */
  const PrintableLimit := 100 * MillisPerHour

  // ---------------------------------------------------------------- timestamps

  /** `HH:MM:SS.mmm`, with ASCII digits. */
  predicate IsTimestamp(t: string) {
    && |t| == 12
    && IsDigit(t[0]) && IsDigit(t[1]) && t[2] == ':'
    && IsDigit(t[3]) && IsDigit(t[4]) && t[5] == ':'
    && IsDigit(t[6]) && IsDigit(t[7]) && t[8] == '.'
    && IsDigit(t[9]) && IsDigit(t[10]) && IsDigit(t[11])
  }

  /** `_time_to_seconds`, in milliseconds: hours, minutes, seconds and the fraction. */
  function TimeToMillis(t: string): nat
    requires IsTimestamp(t)
  {
    DigitsValue(t[0..2]) * MillisPerHour + DigitsValue(t[3..5]) * MillisPerMinute
      + DigitsValue(t[6..8]) * MillisPerSecond + DigitsValue(t[9..12])
  }

  /** `_seconds_to_vtt_time`: `HH:MM:SS.mmm`. */
  function VttTime(ms: nat): string {
    Pad(ms / MillisPerHour, 2) + ":" + Pad(ms % MillisPerHour / MillisPerMinute, 2) + ":"
      + Pad(ms % MillisPerMinute / MillisPerSecond, 2) + "." + Pad(ms % MillisPerSecond, 3)
  }

  /** `_seconds_to_srt_time`: the same digits with a comma before the milliseconds. */
  function SrtTime(ms: nat): string {
    ReplaceChar(VttTime(ms), '.', ',')
  }

  /** The four fields of a time split as it is printed, and how they make up the time. */
  lemma TimeFields(ms: nat) returns (h: nat, m: nat, s: nat, f: nat)
    requires ms < PrintableLimit
    ensures h < 100 && m < 60 && s < 60 && f < 1000
    ensures ms == h * MillisPerHour + m * MillisPerMinute + s * MillisPerSecond + f
    ensures VttTime(ms) == Pad(h, 2) + ":" + Pad(m, 2) + ":" + Pad(s, 2) + "." + Pad(f, 3)
  {
    h := ms / MillisPerHour;
    var r := ms % MillisPerHour;
    m := r / MillisPerMinute;
    var r2 := r % MillisPerMinute;
    s := ms % MillisPerMinute / MillisPerSecond;
    f := ms % MillisPerSecond;
    assert ms == h * MillisPerHour + r;
    assert r == m * MillisPerMinute + r2;
    assert ms == (h * 60 + m) * MillisPerMinute + r2;
    assert r2 == ms % MillisPerMinute;
  }

  lemma SliceOfAppend<T>(x: seq<T>, y: seq<T>, i: nat, j: nat)
    requires i <= j <= |x|
    ensures (x + y)[i..j] == x[i..j]
  {
  }

  /** Four digit fields joined with the separators make a timestamp whose fields are those four. */
  lemma TimestampLayout(h: string, m: string, s: string, f: string)
    requires |h| == 2 && |m| == 2 && |s| == 2 && |f| == 3
    requires AllDigits(h) && AllDigits(m) && AllDigits(s) && AllDigits(f)
    ensures var t := h + ":" + m + ":" + s + "." + f;
      IsTimestamp(t) && t[0..2] == h && t[3..5] == m && t[6..8] == s && t[9..12] == f
  {
    var a := h + ":";
    var b := a + m;
    var d := b + ":" + s;
    var t := d + "." + f;
    SliceOfAppend(d + ".", f, 0, 8);
    SliceOfAppend(d, ".", 0, 8);
    assert t[0..8] == d;
    SliceOfAppend(b + ":", s, 0, 5);
    SliceOfAppend(b, ":", 0, 5);
    assert d[0..5] == b;
    SliceOfAppend(a, m, 0, 2);
    assert b[0..2] == h;
    assert t[9..12] == f && t[6..8] == d[6..8] == s && t[3..5] == b[3..5] == m && t[0..2] == h;
  }

  /** Four digit fields with the given values read back as the time they make up. */
  lemma FieldsReadBack(h: string, m: string, s: string, f: string, hv: nat, mv: nat, sv: nat, fv: nat)
    requires |h| == 2 && |m| == 2 && |s| == 2 && |f| == 3
    requires AllDigits(h) && AllDigits(m) && AllDigits(s) && AllDigits(f)
    requires DigitsValue(h) == hv && DigitsValue(m) == mv && DigitsValue(s) == sv && DigitsValue(f) == fv
    ensures IsTimestamp(h + ":" + m + ":" + s + "." + f)
    ensures TimeToMillis(h + ":" + m + ":" + s + "." + f) == hv * MillisPerHour + mv * MillisPerMinute + sv * MillisPerSecond + fv
  {
    TimestampLayout(h, m, s, f);
  }

  /** A printed time is a well-formed timestamp that reads back as the same number of milliseconds. */
  lemma VttTimeRoundTrip(ms: nat)
    requires ms < PrintableLimit
    ensures IsTimestamp(VttTime(ms)) && TimeToMillis(VttTime(ms)) == ms
  {
    var hv, mv, sv, fv := TimeFields(ms);
    PadRoundTrip(hv, 2);
    PadRoundTrip(mv, 2);
    PadRoundTrip(sv, 2);
    PadRoundTrip(fv, 3);
    FieldsReadBack(Pad(hv, 2), Pad(mv, 2), Pad(sv, 2), Pad(fv, 3), hv, mv, sv, fv);
  }

  /** SRT and WebVTT times differ only in the millisecond separator. */
  lemma SrtTimeIsVttTime(ms: nat)
    requires ms < PrintableLimit
    ensures SrtTime(ms) == VttTime(ms)[..8] + "," + VttTime(ms)[9..]
  {
    VttTimeRoundTrip(ms);
    TimestampSeparator(VttTime(ms));
  }

  lemma TimestampSeparator(t: string)
    requires IsTimestamp(t)
    ensures ReplaceChar(t, '.', ',') == t[..8] + "," + t[9..]
  {
    var r := ReplaceChar(t, '.', ',');
    forall k | 0 <= k < 12
      ensures r[k] == (t[..8] + "," + t[9..])[k]
    {
      if k != 8 {
        assert t[k] != '.' by {
          if k != 2 && k != 5 { assert IsDigit(t[k]); }
        }
      }
    }
  }

  // ---------------------------------------------------------------- stdout

  /**
    One printed line `[HH:MM:SS.mmm --> HH:MM:SS.mmm]` followed by whitespace
    and the text: the two times and the stripped text, or None when the line
    does not have that shape.
   */
  function MatchSegmentLine(line: string): Option<(nat, nat, string)> {
    if |line| >= 32 && line[0] == '[' && IsTimestamp(line[1..13]) && line[13..18] == " --> "
       && IsTimestamp(line[18..30]) && line[30] == ']' && IsSpace(line[31])
    then Some((TimeToMillis(line[1..13]), TimeToMillis(line[18..30]), Strip(line[31..])))
    else None
  }

  /** The line whisper.cpp prints for a segment. */
  function SegmentLine(start: nat, end: nat, text: string): string {
    "[" + VttTime(start) + " --> " + VttTime(end) + "]" + "  " + text
  }

  /** A text that `strip()` leaves alone. */
  predicate IsStripped(text: string) {
    text == [] || (!IsSpace(text[0]) && !IsSpace(text[|text| - 1]))
  }

  /** Every printed segment line is recognised, with its times and its text. */
  lemma SegmentLineRoundTrip(start: nat, end: nat, text: string)
    requires start < PrintableLimit && end < PrintableLimit && IsStripped(text)
    ensures MatchSegmentLine(SegmentLine(start, end, text)) == Some((start, end, text))
  {
    VttTimeRoundTrip(start);
    VttTimeRoundTrip(end);
    SegmentLineParts(start, end, text);
    IndentedTextStrips(text);
  }

  lemma SegmentLineParts(start: nat, end: nat, text: string)
    requires start < PrintableLimit && end < PrintableLimit
    ensures var line := SegmentLine(start, end, text);
      && |line| >= 32 && line[0] == '[' && line[13..18] == " --> " && line[30] == ']' && line[31] == ' '
      && line[1..13] == VttTime(start) && line[18..30] == VttTime(end) && line[31..] == "  " + text
  {
    VttTimeRoundTrip(start);
    VttTimeRoundTrip(end);
    var line := SegmentLine(start, end, text);
    assert line == "[" + VttTime(start) + " --> " + VttTime(end) + "]" + "  " + text;
  }

  lemma IndentedTextStrips(text: string)
    requires IsStripped(text)
    ensures Strip("  " + text) == text
  {
    assert AllIn("  ", Whitespace) by { assert IsSpace(' '); }
    StripCharsOfPadded("  ", text, "", Whitespace);
    assert "  " + text + "" == "  " + text;
  }

  /** The segments of the lines `lines[..n]`: each matching line, with its index as id. */
  function StdoutSegments(lines: seq<string>): (segs: seq<Segment>)
    ensures |segs| <= |lines|
    ensures forall k :: 0 <= k < |segs| ==> segs[k].id < |lines| && segs[k].words == []
    ensures forall k :: 0 <= k < |segs| ==> MatchSegmentLine(lines[segs[k].id]) == Some((segs[k].start, segs[k].end, segs[k].text))
    ensures forall j, k :: 0 <= j < k < |segs| ==> segs[j].id < segs[k].id
    decreases |lines|
  {
    if lines == [] then []
    else
      var n := |lines| - 1;
      var init := StdoutSegments(lines[..n]);
      match MatchSegmentLine(lines[n])
      case None => init
      case Some((start, end, text)) => init + [Segment(n, start, end, text, [])]
  }

  /** Every matching line gives a segment: the ids are exactly the indices of the matching lines. */
  lemma {:induction false} StdoutSegmentsComplete(lines: seq<string>, i: nat)
    requires i < |lines| && MatchSegmentLine(lines[i]).Some?
    ensures exists k :: 0 <= k < |StdoutSegments(lines)| && StdoutSegments(lines)[k].id == i
    decreases |lines|
  {
    var n := |lines| - 1;
    if i < n {
      StdoutSegmentsComplete(lines[..n], i);
      var k :| 0 <= k < |StdoutSegments(lines[..n])| && StdoutSegments(lines[..n])[k].id == i;
      assert StdoutSegments(lines)[k] == StdoutSegments(lines[..n])[k];
    } else {
      var segs := StdoutSegments(lines);
      assert segs[|segs| - 1].id == i;
    }
  }

  function Texts(segs: seq<Segment>): (r: seq<string>)
    ensures |r| == |segs| && forall k :: 0 <= k < |segs| ==> r[k] == segs[k].text
  {
    seq(|segs|, k requires 0 <= k < |segs| => segs[k].text)
  }

  /** What `_parse_stdout_output` returns: the language defaults to "ru". */
  function StdoutTranscript(stdout: string): Transcript {
    var segs := StdoutSegments(Split(Strip(stdout), '\n'));
    Transcript(Join(" ", Texts(segs)), "ru", segs)
  }

  lemma TextsSnoc(segs: seq<Segment>, s: Segment)
    ensures Texts(segs + [s]) == Texts(segs) + [s.text]
  {
  }

  /** `_parse_stdout_output`: one pass over the lines, collecting segments and texts. */
  method ParseStdoutOutput(stdout: string) returns (result: Transcript)
    ensures result == StdoutTranscript(stdout)
  {
    var lines := Split(Strip(stdout), '\n');
    var segments: seq<Segment> := [];
    var fullText: seq<string> := [];
    var i := 0;
    while i < |lines|
      invariant 0 <= i <= |lines|
      invariant segments == StdoutSegments(lines[..i])
      invariant fullText == Texts(segments)
    {
      assert lines[..i + 1][..i] == lines[..i];
      var m := MatchSegmentLine(lines[i]);
      if m.Some? {
        var (start, end, text) := m.value;
        TextsSnoc(segments, Segment(i, start, end, text, []));
        fullText := fullText + [text];
        segments := segments + [Segment(i, start, end, text, [])];
      }
      i := i + 1;
    }
    assert lines[..i] == lines;
    result := Transcript(Join(" ", fullText), "ru", segments);
  }

  // ---------------------------------------------------------------- JSON output

  /** One element of the "transcription" list of whisper.cpp's JSON file; offsets are in milliseconds. */
  datatype CppSegment = CppSegment(text: Option<string>, from: Option<nat>, to: Option<nat>)

  /** The decoded JSON file: the "transcription" list (empty when absent) and "result"."language". */
  datatype CppOutput = CppOutput(transcription: seq<CppSegment>, language: Option<string>)

  function TextOr(seg: CppSegment): string {
    if seg.text.Some? then seg.text.value else ""
  }

  /** The elements of `xs` that pass `keep`, in order: Python's `[x for x in xs if keep(x)]`. */
  function Filter<T(!new)>(xs: seq<T>, keep: T -> bool): (r: seq<T>)
    ensures |r| <= |xs|
    ensures forall x :: x in r <==> x in xs && keep(x)
    decreases |xs|
  {
    if xs == [] then []
    else
      var rest := Filter(xs[..|xs| - 1], keep);
      var last := xs[|xs| - 1];
      assert xs == xs[..|xs| - 1] + [last];
      if keep(last) then rest + [last] else rest
  }

  /**
    `idx` lists, in increasing order, exactly the positions of `xs` whose
    element passes `keep`.
   */
  ghost predicate Selects<T>(xs: seq<T>, keep: T -> bool, idx: seq<nat>) {
    && (forall j :: 0 <= j < |idx| ==> idx[j] < |xs| && keep(xs[idx[j]]))
    && (forall j, k :: 0 <= j < k < |idx| ==> idx[j] < idx[k])
    && (forall k :: 0 <= k < |xs| && keep(xs[k]) ==> k in idx)
  }

  /** A filter's positions grow by the new position exactly when the new element passes. */
  lemma SelectsSnoc<T>(xs: seq<T>, keep: T -> bool, idx: seq<nat>, x: T)
    requires Selects(xs, keep, idx)
    ensures Selects(xs + [x], keep, if keep(x) then idx + [|xs|] else idx)
  {
    var ys := xs + [x];
    var out := if keep(x) then idx + [|xs|] else idx;
    forall j | 0 <= j < |out| ensures out[j] < |ys| && keep(ys[out[j]]) {
      if j < |idx| {
        assert out[j] == idx[j] && ys[idx[j]] == xs[idx[j]];
      }
    }
    forall k | 0 <= k < |ys| && keep(ys[k]) ensures k in out {
      if k < |xs| {
        assert ys[k] == xs[k];
        assert k in idx;
      } else {
        assert out == idx + [k];
      }
    }
  }

  lemma InitAndLast<T>(xs: seq<T>)
    requires xs != []
    ensures xs == xs[..|xs| - 1] + [xs[|xs| - 1]]
  {
  }

  /**
    `Filter` keeps, in their order, exactly the elements that pass: its j-th
    element is the one at position `idx[j]`.
   */
  lemma {:induction false} FilterSelect<T(!new)>(xs: seq<T>, keep: T -> bool) returns (idx: seq<nat>)
    ensures Selects(xs, keep, idx)
    ensures |idx| == |Filter(xs, keep)|
    ensures forall j :: 0 <= j < |idx| ==> idx[j] < |xs| && Filter(xs, keep)[j] == xs[idx[j]]
    decreases |xs|
  {
    if xs == [] {
      idx := [];
    } else {
      var init := xs[..|xs| - 1];
      var last := xs[|xs| - 1];
      var pre := FilterSelect(init, keep);
      InitAndLast(xs);
      SelectsSnoc(init, keep, pre, last);
      idx := if keep(last) then pre + [|init|] else pre;
      var rest := Filter(init, keep);
      assert Filter(xs, keep) == rest + (if keep(last) then [last] else []);
      forall j | 0 <= j < |idx| ensures idx[j] < |xs| && Filter(xs, keep)[j] == xs[idx[j]] {
        if j < |pre| {
          assert idx[j] == pre[j] && xs[pre[j]] == init[pre[j]];
        }
      }
    }
  }

  predicate HasText(seg: CppSegment) {
    TextOr(seg) != ""
  }

  /** The stripped texts of the segments whose text is present and non-empty, in order. */
  function FullTextParts(ts: seq<CppSegment>): (r: seq<string>)
    ensures |r| <= |ts|
    ensures (forall k :: 0 <= k < |ts| ==> TextOr(ts[k]) == "") ==> r == []
  {
    var kept := Filter(ts, HasText);
    assert kept != [] ==> kept[0] in ts && HasText(kept[0]);
    seq(|kept|, j requires 0 <= j < |kept| => Strip(TextOr(kept[j])))
  }

  /**
    `FullTextParts` keeps, in their order, exactly the segments whose text is
    present and non-empty, each stripped: `idx` lists their positions.
   */
  lemma FullTextPartsSelect(ts: seq<CppSegment>) returns (idx: seq<nat>)
    ensures Selects(ts, HasText, idx)
    ensures |idx| == |FullTextParts(ts)|
    ensures forall j :: 0 <= j < |idx| ==> idx[j] < |ts| && FullTextParts(ts)[j] == Strip(TextOr(ts[idx[j]]))
  {
    idx := FilterSelect(ts, HasText);
  }

  /** The segment made from the `idx`-th element: missing offsets count as 0, the text is kept unstripped. */
  function JsonSegment(idx: nat, seg: CppSegment): Segment {
    Segment(idx, if seg.from.Some? then seg.from.value else 0, if seg.to.Some? then seg.to.value else 0, TextOr(seg), [])
  }

  /** `_parse_whisper_output` after the file is decoded. */
  method ParseWhisperOutput(data: CppOutput) returns (result: Transcript)
    ensures result.text == Join(" ", FullTextParts(data.transcription))
    ensures result.language == if data.language.Some? then data.language.value else ""
    ensures |result.segments| == |data.transcription|
    ensures forall k :: 0 <= k < |result.segments| ==> result.segments[k] == JsonSegment(k, data.transcription[k])
  {
    var fullText := Join(" ", FullTextParts(data.transcription));
    var segments: seq<Segment> := [];
    var idx := 0;
    while idx < |data.transcription|
      invariant 0 <= idx <= |data.transcription|
      invariant |segments| == idx
      invariant forall k :: 0 <= k < idx ==> segments[k] == JsonSegment(k, data.transcription[k])
    {
      segments := segments + [JsonSegment(idx, data.transcription[idx])];
      idx := idx + 1;
    }
    result := Transcript(fullText, if data.language.Some? then data.language.value else "", segments);
  }

  // ---------------------------------------------------------------- subtitles

  /** The SRT block of the `k`-th segment: its 1-based number, its times, its stripped text and a blank line. */
  function SrtBlock(k: nat, s: Segment): seq<string> {
    [NatToString(k + 1), SrtTime(s.start) + " --> " + SrtTime(s.end), Strip(s.text), ""]
  }

  /** The WebVTT cue of a segment: its times, its stripped text and a blank line. */
  function VttCue(s: Segment): seq<string> {
    [VttTime(s.start) + " --> " + VttTime(s.end), Strip(s.text), ""]
  }

  /** The blocks one after the other. */
  function Flatten<T>(blocks: seq<seq<T>>): seq<T>
    decreases |blocks|
  {
    if blocks == [] then [] else Flatten(blocks[..|blocks| - 1]) + blocks[|blocks| - 1]
  }

  lemma FlattenSnoc<T>(blocks: seq<seq<T>>, b: seq<T>)
    ensures Flatten(blocks + [b]) == Flatten(blocks) + b
  {
    assert (blocks + [b])[..|blocks|] == blocks;
  }

  lemma {:induction false} FlattenAppend<T>(xs: seq<seq<T>>, ys: seq<seq<T>>)
    ensures Flatten(xs + ys) == Flatten(xs) + Flatten(ys)
    decreases |ys|
  {
    if ys == [] {
      assert xs + ys == xs;
    } else {
      var n := |ys| - 1;
      assert (xs + ys)[..|xs + ys| - 1] == xs + ys[..n];
      FlattenAppend(xs, ys[..n]);
    }
  }

  /** Blocks of `w` items each flatten to `w` times as many items. */
  lemma {:induction false} FlattenLength<T>(blocks: seq<seq<T>>, w: nat)
    requires forall k :: 0 <= k < |blocks| ==> |blocks[k]| == w
    ensures |Flatten(blocks)| == w * |blocks|
    decreases |blocks|
  {
    if blocks != [] {
      var n := |blocks| - 1;
      FlattenLength(blocks[..n], w);
      assert w * (n + 1) == w * n + w;
    }
  }

  /** The `k`-th block sits between the blocks before it and those after it. */
  lemma FlattenAt<T>(blocks: seq<seq<T>>, k: nat)
    requires k < |blocks|
    ensures Flatten(blocks) == Flatten(blocks[..k]) + blocks[k] + Flatten(blocks[k + 1..])
  {
    SplitAt(blocks, k);
    FlattenAppend(blocks[..k] + [blocks[k]], blocks[k + 1..]);
    FlattenSnoc(blocks[..k], blocks[k]);
  }

  lemma SplitAt<T>(s: seq<T>, k: nat)
    requires k < |s|
    ensures s == s[..k] + [s[k]] + s[k + 1..]
  {
  }

  /** The SRT blocks of `segs`, numbered from 1. */
  function SrtBlocks(segs: seq<Segment>): (r: seq<seq<string>>)
    ensures |r| == |segs| && forall k :: 0 <= k < |segs| ==> r[k] == SrtBlock(k, segs[k])
  {
    seq(|segs|, k requires 0 <= k < |segs| => SrtBlock(k, segs[k]))
  }

  /** The WebVTT cues of `segs`. */
  function VttCueBlocks(segs: seq<Segment>): (r: seq<seq<string>>)
    ensures |r| == |segs| && forall k :: 0 <= k < |segs| ==> r[k] == VttCue(segs[k])
  {
    seq(|segs|, k requires 0 <= k < |segs| => VttCue(segs[k]))
  }

  function SrtLines(segs: seq<Segment>): seq<string> {
    Flatten(SrtBlocks(segs))
  }

  function VttCues(segs: seq<Segment>): seq<string> {
    Flatten(VttCueBlocks(segs))
  }

  /** The `k`-th segment is written as lines `4k` to `4k+3`, numbered `k+1`. */
  lemma SrtLinesShape(segs: seq<Segment>)
    ensures |SrtLines(segs)| == 4 * |segs|
    ensures forall k :: 0 <= k < |segs| ==> SrtLines(segs)[4 * k..4 * k + 4] == SrtBlock(k, segs[k])
  {
    var blocks := SrtBlocks(segs);
    FlattenLength(blocks, 4);
    forall k | 0 <= k < |segs|
      ensures SrtLines(segs)[4 * k..4 * k + 4] == SrtBlock(k, segs[k])
    {
      FlattenAt(blocks, k);
      FlattenLength(blocks[..k], 4);
    }
  }

  /** The `k`-th segment is written as cue lines `3k` to `3k+2`. */
  lemma VttCuesShape(segs: seq<Segment>)
    ensures |VttCues(segs)| == 3 * |segs|
    ensures forall k :: 0 <= k < |segs| ==> VttCues(segs)[3 * k..3 * k + 3] == VttCue(segs[k])
  {
    var blocks := VttCueBlocks(segs);
    FlattenLength(blocks, 3);
    forall k | 0 <= k < |segs|
      ensures VttCues(segs)[3 * k..3 * k + 3] == VttCue(segs[k])
    {
      FlattenAt(blocks, k);
      FlattenLength(blocks[..k], 3);
    }
  }

  /** One more segment adds its block at the end. */
  lemma SrtBlocksSnoc(segs: seq<Segment>, i: nat)
    requires i < |segs|
    ensures SrtLines(segs[..i + 1]) == SrtLines(segs[..i]) + SrtBlock(i, segs[i])
  {
    assert SrtBlocks(segs[..i + 1]) == SrtBlocks(segs[..i]) + [SrtBlock(i, segs[i])];
    FlattenSnoc(SrtBlocks(segs[..i]), SrtBlock(i, segs[i]));
  }

  lemma VttCueBlocksSnoc(segs: seq<Segment>, i: nat)
    requires i < |segs|
    ensures VttCues(segs[..i + 1]) == VttCues(segs[..i]) + VttCue(segs[i])
  {
    assert VttCueBlocks(segs[..i + 1]) == VttCueBlocks(segs[..i]) + [VttCue(segs[i])];
    FlattenSnoc(VttCueBlocks(segs[..i]), VttCue(segs[i]));
  }

  /** The lines of a subtitle file: SRT, WebVTT (the "WEBVTT" header and a blank line first), or none. */
  function SubtitleLines(segs: seq<Segment>, format: string): seq<string> {
    if format == "srt" then SrtLines(segs)
    else if format == "vtt" then ["WEBVTT", ""] + VttCues(segs)
    else []
  }

  lemma AppendFour<T>(c: seq<T>, w: T, x: T, y: T, z: T)
    ensures c + [w] + [x] + [y] + [z] == c + [w, x, y, z]
  {
  }

  /** The SRT branch of `_generate_subtitle_file`: four lines appended per segment. */
  method SrtContent(segs: seq<Segment>) returns (content: seq<string>)
    ensures content == SrtLines(segs)
  {
    content := [];
    var i := 0;
    while i < |segs|
      invariant 0 <= i <= |segs|
      invariant content == SrtLines(segs[..i])
    {
      SrtBlocksSnoc(segs, i);
      ghost var before := content;
      var number := NatToString(i + 1);
      var timing := SrtTime(segs[i].start) + " --> " + SrtTime(segs[i].end);
      var text := Strip(segs[i].text);
      content := content + [number];
      content := content + [timing];
      content := content + [text];
      content := content + [""];
      AppendFour(before, number, timing, text, "");
      i := i + 1;
    }
    assert segs[..i] == segs;
  }

  lemma AppendThree<T>(c: seq<T>, x: T, y: T, z: T)
    ensures c + [x] + [y] + [z] == c + [x, y, z]
  {
  }

  /** The WebVTT branch of `_generate_subtitle_file`: the header, then three lines appended per segment. */
  method VttContent(segs: seq<Segment>) returns (content: seq<string>)
    ensures content == ["WEBVTT", ""] + VttCues(segs)
  {
    content := [];
    content := content + ["WEBVTT"];
    content := content + [""];
    var i := 0;
    while i < |segs|
      invariant 0 <= i <= |segs|
      invariant content == ["WEBVTT", ""] + VttCues(segs[..i])
    {
      VttCueBlocksSnoc(segs, i);
      AppendAssoc(["WEBVTT", ""], VttCues(segs[..i]), VttCue(segs[i]));
      ghost var before := content;
      var timing := VttTime(segs[i].start) + " --> " + VttTime(segs[i].end);
      var text := Strip(segs[i].text);
      content := content + [timing];
      content := content + [text];
      content := content + [""];
      AppendThree(before, timing, text, "");
      i := i + 1;
    }
    assert segs[..i] == segs;
  }

  /** `_generate_subtitle_file`: the lines of the chosen format joined with newlines. */
  method GenerateSubtitleFile(result: Transcript, format: string) returns (file: string)
    ensures file == Join("\n", SubtitleLines(result.segments, format))
  {
    var content: seq<string> := [];
    if format == "srt" {
      content := SrtContent(result.segments);
    } else if format == "vtt" {
      content := VttContent(result.segments);
    }
    file := Join("\n", content);
  }

  /** A WebVTT file starts with the "WEBVTT" line followed by a blank line. */
  lemma VttHeader(segs: seq<Segment>)
    ensures StartsWith(Join("\n", SubtitleLines(segs, "vtt")), "WEBVTT\n")
  {
    var lines := SubtitleLines(segs, "vtt");
    assert lines[0] == "WEBVTT" && lines[1..] == [""] + VttCues(segs);
    var j := Join("\n", lines);
    assert j == "WEBVTT" + "\n" + Join("\n", lines[1..]);
    assert j[..7] == "WEBVTT\n";
  }

  /** A format other than "srt" and "vtt" gives the empty file. */
  lemma OtherFormatIsEmpty(segs: seq<Segment>, format: string)
    requires format != "srt" && format != "vtt"
    ensures Join("\n", SubtitleLines(segs, format)) == ""
  {
  }

  // ---------------------------------------------------------------- command line

  /** One unit of the command line: an option with its value, or a flag on its own. */
  datatype CliArg = Opt(name: string, value: string) | Flag(name: string)

  /** The strings a unit contributes to the command line. */
  function Words(a: CliArg): seq<string> {
    if a.Opt? then [a.name, a.value] else [a.name]
  }

  function Render(args: seq<CliArg>): seq<string>
    decreases |args|
  {
    if args == [] then [] else Words(args[0]) + Render(args[1..])
  }

  /** The paths and thread count fixed when the model object is built. */
  datatype Config = Config(cliPath: string, modelPath: string, vadModelPath: string, threads: nat)

  /** The form fields of a transcription request that the command depends on ("" for an absent text). */
  datatype SttRequest = SttRequest(
    model: string, language: string, prompt: string, temperature: Option<real>,
    granularities: seq<string>, responseFormat: Option<ResponseFormat>)

  datatype ResponseFormat = TextFormat | SrtFormat | VttFormat | VerboseJsonFormat | JsonFormat

  /** `os.path.join(directory, name)` for a relative `name`. */
  function PathJoin(directory: string, name: string): string {
    if directory == [] || EndsWith(directory, "/") then directory + name else directory + "/" + name
  }

  /** A request model naming a `.bin` file replaces the configured model. */
  function ModelPathFor(config: Config, request: SttRequest): string {
    if request.model != "" && EndsWith(request.model, ".bin") then request.model else config.modelPath
  }

  /** `str(temperature)` when it is set and non-zero, otherwise "0.2"; `showReal` is Python's `str` on floats. */
  function TemperatureArg(request: SttRequest, showReal: real -> string): string {
    if request.temperature.Some? && request.temperature.value != 0.0 then showReal(request.temperature.value) else "0.2"
  }

  /** Audio shorter than five minutes is decoded with five candidates, longer audio with three. */
  const ShortAudioLimit := 5 * MillisPerMinute

  /** The options every command carries, in the groups the source lists them. */
  function BaseArgs(config: Config, audioPath: string, request: SttRequest, tempDir: string, showReal: real -> string): seq<CliArg> {
    InputArgs(config, audioPath, request) + QualityArgs(request, showReal) + OutputArgs(tempDir)
  }

  function InputArgs(config: Config, audioPath: string, request: SttRequest): seq<CliArg> {
    [Opt("--threads", NatToString(config.threads)), Opt("--model", ModelPathFor(config, request)), Opt("--file", audioPath)]
  }

  function QualityArgs(request: SttRequest, showReal: real -> string): seq<CliArg> {
    [ Opt("--temperature", TemperatureArg(request, showReal)), Opt("--word-thold", "0.005"),
      Opt("--no-speech-thold", "0.4"), Opt("--max-len", "448"), Flag("--suppress-nst"), Flag("--flash-attn") ]
  }

  function OutputArgs(tempDir: string): seq<CliArg> {
    [Flag("--output-json"), Opt("--output-file", PathJoin(tempDir, "output")), Flag("--no-prints")]
  }

  function VadArgs(config: Config, vadModelExists: bool): seq<CliArg> {
    if vadModelExists then
      [ Flag("--vad"), Opt("--vad-model", config.vadModelPath), Opt("--vad-threshold", "0.3"),
        Opt("--vad-min-speech-duration-ms", "200"), Opt("--vad-min-silence-duration-ms", "300"),
        Opt("--vad-speech-pad-ms", "50") ]
    else []
  }

  function DecodingArgs(durationMs: nat): seq<CliArg> {
    if durationMs < ShortAudioLimit then [Opt("--best-of", "5"), Opt("--beam-size", "5")]
    else [Opt("--best-of", "3"), Opt("--beam-size", "3"), Opt("--max-context", "0"), Opt("--entropy-thold", "2.5")]
  }

  function LanguageArgs(request: SttRequest): seq<CliArg> {
    if request.language != "" then [Opt("--language", request.language)] else []
  }

  function PromptArgs(request: SttRequest): seq<CliArg> {
    if request.prompt != "" then [Opt("--prompt", request.prompt)] else []
  }

  function WordArgs(request: SttRequest): seq<CliArg> {
    if "word" in request.granularities then [Flag("--word-timestamps"), Flag("--output-json-full")] else []
  }

  /** The command line after the executable, unit by unit. */
  function CommandArgs(config: Config, audioPath: string, request: SttRequest, tempDir: string,
                       vadModelExists: bool, durationMs: nat, showReal: real -> string): seq<CliArg>
  {
    BaseArgs(config, audioPath, request, tempDir, showReal) + VadArgs(config, vadModelExists)
      + LanguageArgs(request) + PromptArgs(request) + DecodingArgs(durationMs) + WordArgs(request)
  }

  /**
    `_build_whisper_command`: the list is built up step by step. The audio
    duration (from ffprobe, 0 when that fails) and whether the VAD model file
    exists are inputs.
   */
  method BuildWhisperCommand(config: Config, audioPath: string, request: SttRequest, tempDir: string,
                             vadModelExists: bool, durationMs: nat, showReal: real -> string)
    returns (cmd: seq<string>)
    ensures cmd == [config.cliPath] + Render(CommandArgs(config, audioPath, request, tempDir, vadModelExists, durationMs, showReal))
  {
    cmd := BaseCommand(config, audioPath, request, tempDir, showReal);
    ghost var args := BaseArgs(config, audioPath, request, tempDir, showReal);
    ghost var before := cmd;
    if vadModelExists {
      cmd := cmd + ["--vad", "--vad-model", config.vadModelPath, "--vad-threshold", "0.3",
                    "--vad-min-speech-duration-ms", "200", "--vad-min-silence-duration-ms", "300", "--vad-speech-pad-ms", "50"];
    }
    ExtendVad(config.cliPath, before, args, config, vadModelExists, cmd);
    args, before := args + VadArgs(config, vadModelExists), cmd;
    if request.language != "" {
      cmd := cmd + ["--language", request.language];
    }
    if request.prompt != "" {
      cmd := cmd + ["--prompt", request.prompt];
    }
    ExtendTexts(config.cliPath, before, args, request, cmd);
    args, before := args + LanguageArgs(request) + PromptArgs(request), cmd;
    if durationMs < ShortAudioLimit {
      cmd := cmd + ["--best-of", "5", "--beam-size", "5"];
    } else {
      cmd := cmd + ["--best-of", "3", "--beam-size", "3", "--max-context", "0", "--entropy-thold", "2.5"];
    }
    ExtendDecoding(config.cliPath, before, args, durationMs, cmd);
    args, before := args + DecodingArgs(durationMs), cmd;
    if "word" in request.granularities {
      cmd := cmd + ["--word-timestamps"];
      cmd := cmd + ["--output-json-full"];
    }
    ExtendWord(config.cliPath, before, args, request, cmd);
  }

  lemma ExtendVad(cli: string, before: seq<string>, args: seq<CliArg>, config: Config, vadModelExists: bool, cmd: seq<string>)
    requires before == [cli] + Render(args)
    requires cmd == if vadModelExists then
      before + ["--vad", "--vad-model", config.vadModelPath, "--vad-threshold", "0.3",
                "--vad-min-speech-duration-ms", "200", "--vad-min-silence-duration-ms", "300", "--vad-speech-pad-ms", "50"]
      else before
    ensures cmd == [cli] + Render(args + VadArgs(config, vadModelExists))
  {
    RenderVad(config, vadModelExists);
    RenderExtend(cli, before, args, VadArgs(config, vadModelExists), cmd);
  }

  lemma ExtendTexts(cli: string, before: seq<string>, args: seq<CliArg>, request: SttRequest, cmd: seq<string>)
    requires before == [cli] + Render(args)
    requires cmd == before + (if request.language != "" then ["--language", request.language] else [])
                           + (if request.prompt != "" then ["--prompt", request.prompt] else [])
    ensures cmd == [cli] + Render(args + LanguageArgs(request) + PromptArgs(request))
  {
    RenderOptional(request);
    var middle := before + Render(LanguageArgs(request));
    RenderExtend(cli, before, args, LanguageArgs(request), middle);
    RenderExtend(cli, middle, args + LanguageArgs(request), PromptArgs(request), cmd);
  }

  lemma ExtendDecoding(cli: string, before: seq<string>, args: seq<CliArg>, durationMs: nat, cmd: seq<string>)
    requires before == [cli] + Render(args)
    requires cmd == if durationMs < ShortAudioLimit then before + ["--best-of", "5", "--beam-size", "5"]
      else before + ["--best-of", "3", "--beam-size", "3", "--max-context", "0", "--entropy-thold", "2.5"]
    ensures cmd == [cli] + Render(args + DecodingArgs(durationMs))
  {
    RenderDecoding(durationMs);
    RenderExtend(cli, before, args, DecodingArgs(durationMs), cmd);
  }

  lemma ExtendWord(cli: string, before: seq<string>, args: seq<CliArg>, request: SttRequest, cmd: seq<string>)
    requires before == [cli] + Render(args)
    requires cmd == if "word" in request.granularities then before + ["--word-timestamps"] + ["--output-json-full"] else before
    ensures cmd == [cli] + Render(args + WordArgs(request))
  {
    RenderOptional(request);
    if "word" in request.granularities {
      AppendAssoc(before, ["--word-timestamps"], ["--output-json-full"]);
      assert ["--word-timestamps"] + ["--output-json-full"] == ["--word-timestamps", "--output-json-full"];
    }
    RenderExtend(cli, before, args, WordArgs(request), cmd);
  }

  /** The list the command starts from: the executable and the options every run carries. */
  method BaseCommand(config: Config, audioPath: string, request: SttRequest, tempDir: string, showReal: real -> string)
    returns (cmd: seq<string>)
    ensures cmd == [config.cliPath] + Render(BaseArgs(config, audioPath, request, tempDir, showReal))
  {
    var modelPath := config.modelPath;
    if request.model != "" && EndsWith(request.model, ".bin") {
      modelPath := request.model;
    }
    var outputBase := PathJoin(tempDir, "output");
    cmd := [config.cliPath]
      + ["--threads", NatToString(config.threads), "--model", modelPath, "--file", audioPath]
      + ["--temperature", TemperatureArg(request, showReal), "--word-thold", "0.005", "--no-speech-thold", "0.4",
         "--max-len", "448", "--suppress-nst", "--flash-attn"]
      + ["--output-json", "--output-file", outputBase, "--no-prints"];
    AppendAssoc([config.cliPath], ["--threads", NatToString(config.threads), "--model", modelPath, "--file", audioPath]
      + ["--temperature", TemperatureArg(request, showReal), "--word-thold", "0.005", "--no-speech-thold", "0.4",
         "--max-len", "448", "--suppress-nst", "--flash-attn"], ["--output-json", "--output-file", outputBase, "--no-prints"]);
    AppendAssoc([config.cliPath], ["--threads", NatToString(config.threads), "--model", modelPath, "--file", audioPath],
      ["--temperature", TemperatureArg(request, showReal), "--word-thold", "0.005", "--no-speech-thold", "0.4",
       "--max-len", "448", "--suppress-nst", "--flash-attn"]);
    RenderBase(config, audioPath, request, tempDir, showReal);
  }

  lemma AppendAssoc<T>(a: seq<T>, b: seq<T>, c: seq<T>)
    ensures a + b + c == a + (b + c)
  {
  }

  /** Appending a group's strings to a rendered command renders the command extended by that group. */
  lemma RenderExtend(cli: string, cmd: seq<string>, args: seq<CliArg>, group: seq<CliArg>, extended: seq<string>)
    requires cmd == [cli] + Render(args) && extended == cmd + Render(group)
    ensures extended == [cli] + Render(args + group)
  {
    RenderAppend(args, group);
    AppendAssoc([cli], Render(args), Render(group));
  }

  lemma RenderOptional(request: SttRequest)
    ensures Render(LanguageArgs(request)) == if request.language != "" then ["--language", request.language] else []
    ensures Render(PromptArgs(request)) == if request.prompt != "" then ["--prompt", request.prompt] else []
    ensures Render(WordArgs(request)) == if "word" in request.granularities then ["--word-timestamps", "--output-json-full"] else []
  {
    if "word" in request.granularities {
      var w := WordArgs(request);
      RenderTail(w, 1);
      RenderTail(w, 0);
    }
  }

  lemma {:induction false} RenderAppend(xs: seq<CliArg>, ys: seq<CliArg>)
    ensures Render(xs + ys) == Render(xs) + Render(ys)
    decreases |xs|
  {
    if xs == [] {
      assert xs + ys == ys;
    } else {
      assert (xs + ys)[1..] == xs[1..] + ys;
      RenderAppend(xs[1..], ys);
    }
  }

  lemma RenderCons(a: CliArg, rest: seq<CliArg>)
    ensures Render([a] + rest) == Words(a) + Render(rest)
  {
    assert ([a] + rest)[1..] == rest;
  }

  lemma RenderBase(config: Config, audioPath: string, request: SttRequest, tempDir: string, showReal: real -> string)
    ensures Render(BaseArgs(config, audioPath, request, tempDir, showReal)) ==
      ["--threads", NatToString(config.threads), "--model", ModelPathFor(config, request), "--file", audioPath]
      + ["--temperature", TemperatureArg(request, showReal), "--word-thold", "0.005", "--no-speech-thold", "0.4",
         "--max-len", "448", "--suppress-nst", "--flash-attn"]
      + ["--output-json", "--output-file", PathJoin(tempDir, "output"), "--no-prints"]
  {
    var input := InputArgs(config, audioPath, request);
    var quality := QualityArgs(request, showReal);
    var output := OutputArgs(tempDir);
    RenderAppend(input + quality, output);
    RenderAppend(input, quality);
    RenderThree(input[0], input[1], input[2]);
    RenderQuality(request, showReal);
    RenderThree(output[0], output[1], output[2]);
  }

  lemma RenderQuality(request: SttRequest, showReal: real -> string)
    ensures Render(QualityArgs(request, showReal)) ==
      ["--temperature", TemperatureArg(request, showReal), "--word-thold", "0.005", "--no-speech-thold", "0.4",
       "--max-len", "448", "--suppress-nst", "--flash-attn"]
  {
    var q := QualityArgs(request, showReal);
    assert q == [q[0], q[1], q[2]] + [q[3], q[4], q[5]];
    RenderAppend([q[0], q[1], q[2]], [q[3], q[4], q[5]]);
    RenderThree(q[0], q[1], q[2]);
    RenderThree(q[3], q[4], q[5]);
  }

  lemma RenderVad(config: Config, vadModelExists: bool)
    ensures Render(VadArgs(config, vadModelExists)) ==
      if vadModelExists then
        ["--vad", "--vad-model", config.vadModelPath, "--vad-threshold", "0.3",
         "--vad-min-speech-duration-ms", "200", "--vad-min-silence-duration-ms", "300", "--vad-speech-pad-ms", "50"]
      else []
  {
    if vadModelExists {
      var v := VadArgs(config, vadModelExists);
      assert v == [v[0], v[1], v[2]] + [v[3], v[4], v[5]];
      RenderAppend([v[0], v[1], v[2]], [v[3], v[4], v[5]]);
      RenderThree(v[0], v[1], v[2]);
      RenderThree(v[3], v[4], v[5]);
    }
  }

  lemma RenderDecoding(durationMs: nat)
    ensures Render(DecodingArgs(durationMs)) ==
      if durationMs < ShortAudioLimit then ["--best-of", "5", "--beam-size", "5"]
      else ["--best-of", "3", "--beam-size", "3", "--max-context", "0", "--entropy-thold", "2.5"]
  {
    var d := DecodingArgs(durationMs);
    if durationMs >= ShortAudioLimit {
      RenderTail(d, 3);
      RenderTail(d, 2);
    }
    RenderTail(d, 1);
    RenderTail(d, 0);
  }

  lemma RenderThree(a: CliArg, b: CliArg, c: CliArg)
    ensures Render([a, b, c]) == Words(a) + Words(b) + Words(c)
  {
    RenderTail([a, b, c], 2);
    RenderTail([a, b, c], 1);
    RenderTail([a, b, c], 0);
    assert [a, b, c][3..] == [];
  }

  lemma RenderTail(b: seq<CliArg>, i: nat)
    requires i < |b|
    ensures Render(b[i..]) == Words(b[i]) + Render(b[i + 1..])
  {
    assert b[i..][1..] == b[i + 1..];
  }

  // ---------------------------------------------------------------- what the command says

  /** The option and flag names of a command, in order. */
  function Names(args: seq<CliArg>): (r: seq<string>)
    ensures |r| == |args|
    ensures forall i :: 0 <= i < |args| ==> r[i] == args[i].name
  {
    seq(|args|, i requires 0 <= i < |args| => args[i].name)
  }

  lemma NamesAppend(xs: seq<CliArg>, ys: seq<CliArg>)
    ensures Names(xs + ys) == Names(xs) + Names(ys)
  {
  }

  lemma NameOfMember(args: seq<CliArg>, a: CliArg)
    requires a in args
    ensures a.name in Names(args)
  {
    var i :| 0 <= i < |args| && args[i] == a;
    assert Names(args)[i] == a.name;
  }

  /** The names each fixed group can contribute. */
  const BaseNames := ["--threads", "--model", "--file", "--temperature", "--word-thold", "--no-speech-thold", "--max-len",
                      "--suppress-nst", "--flash-attn", "--output-json", "--output-file", "--no-prints"]
  const VadNames := ["--vad", "--vad-model", "--vad-threshold", "--vad-min-speech-duration-ms",
                     "--vad-min-silence-duration-ms", "--vad-speech-pad-ms"]
  const DecodingNames := ["--best-of", "--beam-size", "--max-context", "--entropy-thold"]

  lemma BaseArgsNames(config: Config, audioPath: string, request: SttRequest, tempDir: string, showReal: real -> string)
    ensures Names(BaseArgs(config, audioPath, request, tempDir, showReal)) == BaseNames
  {
    var input := InputArgs(config, audioPath, request);
    var quality := QualityArgs(request, showReal);
    NamesAppend(input + quality, OutputArgs(tempDir));
    NamesAppend(input, quality);
  }

  /** A unit whose name is none of a group's names is not in that group. */
  lemma OutsideBase(config: Config, audioPath: string, request: SttRequest, tempDir: string, showReal: real -> string, a: CliArg)
    requires a.name !in BaseNames
    ensures a !in BaseArgs(config, audioPath, request, tempDir, showReal)
  {
    BaseArgsNames(config, audioPath, request, tempDir, showReal);
    Absent(BaseArgs(config, audioPath, request, tempDir, showReal), a);
  }

  lemma OutsideVad(config: Config, vadModelExists: bool, a: CliArg)
    requires a.name !in VadNames
    ensures a !in VadArgs(config, vadModelExists)
  {
    assert Names(VadArgs(config, vadModelExists)) == if vadModelExists then VadNames else [];
    Absent(VadArgs(config, vadModelExists), a);
  }

  lemma OutsideDecoding(durationMs: nat, a: CliArg)
    requires a.name !in DecodingNames
    ensures a !in DecodingArgs(durationMs)
  {
    assert Names(DecodingArgs(durationMs)) == if durationMs < ShortAudioLimit then DecodingNames[..2] else DecodingNames;
    Absent(DecodingArgs(durationMs), a);
  }

  lemma OutsideRequestGroups(request: SttRequest, a: CliArg)
    requires a.name !in ["--language", "--prompt", "--word-timestamps", "--output-json-full"]
    ensures a !in LanguageArgs(request) && a !in PromptArgs(request) && a !in WordArgs(request)
  {
    assert Names(LanguageArgs(request)) == if request.language != "" then ["--language"] else [];
    assert Names(PromptArgs(request)) == if request.prompt != "" then ["--prompt"] else [];
    assert Names(WordArgs(request)) == if "word" in request.granularities then ["--word-timestamps", "--output-json-full"] else [];
    Absent(LanguageArgs(request), a);
    Absent(PromptArgs(request), a);
    Absent(WordArgs(request), a);
  }

  /** The command's names are its groups' names, in the order the groups are added. */
  lemma CommandNames(config: Config, audioPath: string, request: SttRequest, tempDir: string,
                     vadModelExists: bool, durationMs: nat, showReal: real -> string)
    ensures Names(CommandArgs(config, audioPath, request, tempDir, vadModelExists, durationMs, showReal)) ==
      Names(BaseArgs(config, audioPath, request, tempDir, showReal)) + Names(VadArgs(config, vadModelExists))
      + Names(LanguageArgs(request)) + Names(PromptArgs(request)) + Names(DecodingArgs(durationMs)) + Names(WordArgs(request))
  {
    var b := BaseArgs(config, audioPath, request, tempDir, showReal);
    var v := VadArgs(config, vadModelExists);
    var l := LanguageArgs(request);
    var p := PromptArgs(request);
    var d := DecodingArgs(durationMs);
    var w := WordArgs(request);
    NamesAppend(b + v + l + p + d, w);
    NamesAppend(b + v + l + p, d);
    NamesAppend(b + v + l, p);
    NamesAppend(b + v, l);
    NamesAppend(b, v);
  }

  lemma Absent(args: seq<CliArg>, a: CliArg)
    requires a.name !in Names(args)
    ensures a !in args
  {
    if a in args {
      NameOfMember(args, a);
    }
  }

  /** A unit is in the command exactly when it is in one of the groups. */
  lemma MemberOfCommand(config: Config, audioPath: string, request: SttRequest, tempDir: string,
                        vadModelExists: bool, durationMs: nat, showReal: real -> string, a: CliArg)
    ensures a in CommandArgs(config, audioPath, request, tempDir, vadModelExists, durationMs, showReal) <==>
      || a in BaseArgs(config, audioPath, request, tempDir, showReal) || a in VadArgs(config, vadModelExists)
      || a in LanguageArgs(request) || a in PromptArgs(request) || a in DecodingArgs(durationMs) || a in WordArgs(request)
  {
  }

  /** The decoding options come from the decoding group alone. */
  lemma DecodingOnly(config: Config, audioPath: string, request: SttRequest, tempDir: string,
                     vadModelExists: bool, durationMs: nat, showReal: real -> string, a: CliArg)
    requires a.name == "--best-of" || a.name == "--beam-size" || a.name == "--max-context" || a.name == "--entropy-thold"
    ensures a in CommandArgs(config, audioPath, request, tempDir, vadModelExists, durationMs, showReal) <==> a in DecodingArgs(durationMs)
  {
    MemberOfCommand(config, audioPath, request, tempDir, vadModelExists, durationMs, showReal, a);
    OutsideBase(config, audioPath, request, tempDir, showReal, a);
    OutsideVad(config, vadModelExists, a);
    OutsideRequestGroups(request, a);
  }

  /** Five candidates and five beams below five minutes, three of each from five minutes on. */
  lemma SearchWidthFollowsDuration(config: Config, audioPath: string, request: SttRequest, tempDir: string,
                                   vadModelExists: bool, durationMs: nat, showReal: real -> string)
    ensures var args := CommandArgs(config, audioPath, request, tempDir, vadModelExists, durationMs, showReal);
      && (Opt("--best-of", "5") in args <==> durationMs < ShortAudioLimit)
      && (Opt("--beam-size", "5") in args <==> durationMs < ShortAudioLimit)
      && (Opt("--best-of", "3") in args <==> durationMs >= ShortAudioLimit)
      && (Opt("--beam-size", "3") in args <==> durationMs >= ShortAudioLimit)
  {
    DecodingOnly(config, audioPath, request, tempDir, vadModelExists, durationMs, showReal, Opt("--best-of", "5"));
    DecodingOnly(config, audioPath, request, tempDir, vadModelExists, durationMs, showReal, Opt("--beam-size", "5"));
    DecodingOnly(config, audioPath, request, tempDir, vadModelExists, durationMs, showReal, Opt("--best-of", "3"));
    DecodingOnly(config, audioPath, request, tempDir, vadModelExists, durationMs, showReal, Opt("--beam-size", "3"));
  }

  /** Long audio alone turns off the text context and sets an entropy threshold. */
  lemma LongAudioOptions(config: Config, audioPath: string, request: SttRequest, tempDir: string,
                         vadModelExists: bool, durationMs: nat, showReal: real -> string)
    ensures var args := CommandArgs(config, audioPath, request, tempDir, vadModelExists, durationMs, showReal);
      && (Opt("--max-context", "0") in args <==> durationMs >= ShortAudioLimit)
      && (Opt("--entropy-thold", "2.5") in args <==> durationMs >= ShortAudioLimit)
  {
    DecodingOnly(config, audioPath, request, tempDir, vadModelExists, durationMs, showReal, Opt("--max-context", "0"));
    DecodingOnly(config, audioPath, request, tempDir, vadModelExists, durationMs, showReal, Opt("--entropy-thold", "2.5"));
  }

  /** The voice-activity options come from the VAD group alone. */
  lemma VadOnly(config: Config, audioPath: string, request: SttRequest, tempDir: string,
                vadModelExists: bool, durationMs: nat, showReal: real -> string, a: CliArg)
    requires a.name == "--vad" || a.name == "--vad-model"
    ensures a in CommandArgs(config, audioPath, request, tempDir, vadModelExists, durationMs, showReal) <==> a in VadArgs(config, vadModelExists)
  {
    MemberOfCommand(config, audioPath, request, tempDir, vadModelExists, durationMs, showReal, a);
    OutsideBase(config, audioPath, request, tempDir, showReal, a);
    OutsideDecoding(durationMs, a);
    OutsideRequestGroups(request, a);
  }

  /** Voice-activity detection is switched on, with the configured model, exactly when that model file exists. */
  lemma VadFollowsModelFile(config: Config, audioPath: string, request: SttRequest, tempDir: string,
                            vadModelExists: bool, durationMs: nat, showReal: real -> string)
    ensures var args := CommandArgs(config, audioPath, request, tempDir, vadModelExists, durationMs, showReal);
      && (Flag("--vad") in args <==> vadModelExists)
      && (Opt("--vad-model", config.vadModelPath) in args <==> vadModelExists)
  {
    VadOnly(config, audioPath, request, tempDir, vadModelExists, durationMs, showReal, Flag("--vad"));
    VadOnly(config, audioPath, request, tempDir, vadModelExists, durationMs, showReal, Opt("--vad-model", config.vadModelPath));
  }

  /** The request-dependent options come from their own groups alone. */
  lemma RequestOptionsOnly(config: Config, audioPath: string, request: SttRequest, tempDir: string,
                           vadModelExists: bool, durationMs: nat, showReal: real -> string, a: CliArg)
    requires a.name == "--language" || a.name == "--prompt" || a.name == "--word-timestamps" || a.name == "--output-json-full"
    ensures a in CommandArgs(config, audioPath, request, tempDir, vadModelExists, durationMs, showReal) <==>
      a in LanguageArgs(request) || a in PromptArgs(request) || a in WordArgs(request)
  {
    MemberOfCommand(config, audioPath, request, tempDir, vadModelExists, durationMs, showReal, a);
    OutsideBase(config, audioPath, request, tempDir, showReal, a);
    OutsideVad(config, vadModelExists, a);
    OutsideDecoding(durationMs, a);
  }

  /** A language and a prompt are passed on exactly when the request sets them. */
  lemma LanguageAndPromptWhenSet(config: Config, audioPath: string, request: SttRequest, tempDir: string,
                                 vadModelExists: bool, durationMs: nat, showReal: real -> string, language: string, prompt: string)
    ensures var args := CommandArgs(config, audioPath, request, tempDir, vadModelExists, durationMs, showReal);
      && (Opt("--language", language) in args <==> language == request.language != "")
      && (Opt("--prompt", prompt) in args <==> prompt == request.prompt != "")
  {
    RequestOptionsOnly(config, audioPath, request, tempDir, vadModelExists, durationMs, showReal, Opt("--language", language));
    RequestOptionsOnly(config, audioPath, request, tempDir, vadModelExists, durationMs, showReal, Opt("--prompt", prompt));
  }

  /** Word timestamps, and the full JSON that carries them, are asked for exactly when "word" granularity is. */
  lemma WordTimestampsWhenAsked(config: Config, audioPath: string, request: SttRequest, tempDir: string,
                                vadModelExists: bool, durationMs: nat, showReal: real -> string)
    ensures var args := CommandArgs(config, audioPath, request, tempDir, vadModelExists, durationMs, showReal);
      && (Flag("--word-timestamps") in args <==> "word" in request.granularities)
      && (Flag("--output-json-full") in args <==> "word" in request.granularities)
  {
    RequestOptionsOnly(config, audioPath, request, tempDir, vadModelExists, durationMs, showReal, Flag("--word-timestamps"));
    RequestOptionsOnly(config, audioPath, request, tempDir, vadModelExists, durationMs, showReal, Flag("--output-json-full"));
  }

  /** The fixed options come from the base group alone. */
  lemma BaseOnly(config: Config, audioPath: string, request: SttRequest, tempDir: string,
                 vadModelExists: bool, durationMs: nat, showReal: real -> string, a: CliArg)
    requires a.name == "--model" || a.name == "--temperature" || a.name == "--output-file"
    ensures a in CommandArgs(config, audioPath, request, tempDir, vadModelExists, durationMs, showReal) <==>
      a in BaseArgs(config, audioPath, request, tempDir, showReal)
  {
    MemberOfCommand(config, audioPath, request, tempDir, vadModelExists, durationMs, showReal, a);
    OutsideVad(config, vadModelExists, a);
    OutsideDecoding(durationMs, a);
    OutsideRequestGroups(request, a);
  }

  /** The one model passed is the request's when it names a `.bin` file, and the configured one otherwise. */
  lemma ModelChoice(config: Config, audioPath: string, request: SttRequest, tempDir: string,
                    vadModelExists: bool, durationMs: nat, showReal: real -> string, model: string)
    ensures Opt("--model", model) in CommandArgs(config, audioPath, request, tempDir, vadModelExists, durationMs, showReal) <==>
      model == if request.model != "" && EndsWith(request.model, ".bin") then request.model else config.modelPath
  {
    BaseOnly(config, audioPath, request, tempDir, vadModelExists, durationMs, showReal, Opt("--model", model));
  }

  /**
    The one temperature passed is the request's when it is set and non-zero
    and 0.2 otherwise; the output files go to `output.*` in the temporary directory.
   */
  lemma TemperatureChoice(config: Config, audioPath: string, request: SttRequest, tempDir: string,
                          vadModelExists: bool, durationMs: nat, showReal: real -> string, temperature: string)
    ensures var args := CommandArgs(config, audioPath, request, tempDir, vadModelExists, durationMs, showReal);
      && (Opt("--temperature", temperature) in args <==>
            temperature == if request.temperature.Some? && request.temperature.value != 0.0
                           then showReal(request.temperature.value) else "0.2")
      && Opt("--output-file", PathJoin(tempDir, "output")) in args
  {
    BaseOnly(config, audioPath, request, tempDir, vadModelExists, durationMs, showReal, Opt("--temperature", temperature));
    BaseOnly(config, audioPath, request, tempDir, vadModelExists, durationMs, showReal, Opt("--output-file", PathJoin(tempDir, "output")));
  }

  // ---------------------------------------------------------------- after the process has run

  /** What the process left behind: the files in the temporary directory, its exit code and its output. */
  datatype RunOutcome = RunOutcome(files: seq<string>, returnCode: int, stdout: string, stderr: string)

  /** Where the transcript is read from. */
  datatype OutputSource = JsonFile(name: string) | StdoutText | Failure(message: string)

  predicate IsJsonName(f: string) {
    EndsWith(f, ".json")
  }

  /** The `.json` files among `files`, in listing order. */
  function JsonFiles(files: seq<string>): (r: seq<string>)
    ensures forall f :: f in r <==> f in files && EndsWith(f, ".json")
  {
    Filter(files, IsJsonName)
  }

  /** `JsonFiles` keeps, in their order, exactly the names ending in ".json": `idx` lists their positions. */
  lemma JsonFilesSelect(files: seq<string>) returns (idx: seq<nat>)
    ensures Selects(files, IsJsonName, idx)
    ensures |idx| == |JsonFiles(files)|
    ensures forall j :: 0 <= j < |idx| ==> idx[j] < |files| && JsonFiles(files)[j] == files[idx[j]]
  {
    idx := FilterSelect(files, IsJsonName);
  }

  const DefaultOutput := "output.json"

  /** The file at position `i` is the first one whose name ends in ".json". */
  predicate FirstJsonAt(files: seq<string>, i: int) {
    0 <= i < |files| && EndsWith(files[i], ".json") && forall j :: 0 <= j < i ==> !EndsWith(files[j], ".json")
  }

  /** The output selection of `generate`. */
  function PickOutput(run: RunOutcome): OutputSource {
    if DefaultOutput in run.files then JsonFile(DefaultOutput)
    else if run.returnCode == 0 && JsonFiles(run.files) != [] then JsonFile(JsonFiles(run.files)[0])
    else if run.returnCode == 0 && run.stdout != "" then StdoutText
    else Failure("Whisper.cpp failed with code " + IntToString(run.returnCode) + ": " + run.stderr)
  }

  /**
    The file `output.json` wins whatever the exit code; any other source needs
    a zero exit code; a JSON file read is one the process wrote; and the run
    fails, with its exit code and error output in the message, exactly when
    none of the sources is there.
   */
  lemma PickOutputOrder(run: RunOutcome)
    ensures DefaultOutput in run.files ==> PickOutput(run) == JsonFile(DefaultOutput)
    ensures PickOutput(run).JsonFile? ==> PickOutput(run).name in run.files && EndsWith(PickOutput(run).name, ".json")
    ensures PickOutput(run).JsonFile? && PickOutput(run).name != DefaultOutput ==> run.returnCode == 0
    ensures PickOutput(run).StdoutText? ==> run.returnCode == 0 && run.stdout != "" && JsonFiles(run.files) == []
    ensures PickOutput(run).Failure? <==>
      DefaultOutput !in run.files && (run.returnCode != 0 || (run.stdout == "" && forall f :: f in run.files ==> !EndsWith(f, ".json")))
    ensures PickOutput(run).Failure? ==>
      PickOutput(run).message == "Whisper.cpp failed with code " + IntToString(run.returnCode) + ": " + run.stderr
    ensures forall i :: FirstJsonAt(run.files, i) && DefaultOutput !in run.files && run.returnCode == 0 ==>
      PickOutput(run) == JsonFile(run.files[i])
  {
    if JsonFiles(run.files) != [] {
      assert JsonFiles(run.files)[0] in JsonFiles(run.files);
    }
    var idx := JsonFilesSelect(run.files);
    forall i | FirstJsonAt(run.files, i)
      ensures JsonFiles(run.files) != [] && JsonFiles(run.files)[0] == run.files[i]
    {
      assert IsJsonName(run.files[i]) && i in idx;
      assert IsJsonName(run.files[idx[0]]);
      assert idx[0] == i;
    }
  }

  /** The transcript read from a decoded JSON file. */
  function JsonTranscript(data: CppOutput): Transcript {
    Transcript(Join(" ", FullTextParts(data.transcription)), if data.language.Some? then data.language.value else "",
               seq(|data.transcription|, k requires 0 <= k < |data.transcription| => JsonSegment(k, data.transcription[k])))
  }

  /**
    `generate` once the command has run: the chosen JSON file is decoded by
    `load` (which fails when it is not valid JSON), the standard output is
    parsed, or the run fails with its message.
   */
  method Generate(run: RunOutcome, tempDir: string, load: string -> Result<CppOutput, string>) returns (r: Result<Transcript, string>)
    ensures PickOutput(run).Failure? ==> r == Err(PickOutput(run).message)
    ensures PickOutput(run).StdoutText? ==> r == Ok(StdoutTranscript(run.stdout))
    ensures PickOutput(run).JsonFile? ==>
      var loaded := load(PathJoin(tempDir, PickOutput(run).name));
      r == if loaded.Ok? then Ok(JsonTranscript(loaded.value)) else Err(loaded.error)
  {
    var source := PickOutput(run);
    match source
    case JsonFile(name) =>
      var loaded := load(PathJoin(tempDir, name));
      if loaded.Err? {
        return Err(loaded.error);
      }
      var result := ParseWhisperOutput(loaded.value);
      assert result.segments == JsonTranscript(loaded.value).segments;
      return Ok(result);
    case StdoutText =>
      var result := ParseStdoutOutput(run.stdout);
      return Ok(result);
    case Failure(message) =>
      return Err(message);
  }

  // ---------------------------------------------------------------- response formats

  datatype Response =
    | PlainText(body: string)
    | TextOnly(text: string)
    | FullResult(result: Transcript)
    | Summary(task: string, language: string, durationMs: nat, text: string, words: Option<seq<Word>>)

  /** The largest segment end, or 0 without segments. */
  function MaxEnd(segs: seq<Segment>): (d: nat)
    decreases |segs|
  {
    if segs == [] then 0
    else
      var rest := MaxEnd(segs[..|segs| - 1]);
      if segs[|segs| - 1].end > rest then segs[|segs| - 1].end else rest
  }

  /** The duration is an upper bound of every end and is reached by one of them, or is 0 without segments. */
  lemma {:induction false} MaxEndIsMaximum(segs: seq<Segment>)
    ensures forall k :: 0 <= k < |segs| ==> segs[k].end <= MaxEnd(segs)
    ensures segs == [] ==> MaxEnd(segs) == 0
    ensures segs != [] ==> exists k :: 0 <= k < |segs| && segs[k].end == MaxEnd(segs)
    decreases |segs|
  {
    if segs != [] {
      var n := |segs| - 1;
      MaxEndIsMaximum(segs[..n]);
      if segs[n].end <= MaxEnd(segs[..n]) && n > 0 {
        var k :| 0 <= k < n && segs[..n][k].end == MaxEnd(segs[..n]);
        assert segs[k].end == MaxEnd(segs);
      }
    }
  }

  /** The words of all segments, segment by segment. */
  function AllWords(segs: seq<Segment>): seq<Word> {
    Flatten(seq(|segs|, k requires 0 <= k < |segs| => segs[k].words))
  }

  /**
    The response for each format: the text alone as a string or as `{"text"}`,
    the subtitles, the whole result, or by default a summary whose duration is
    the largest segment end and whose words are listed only when word
    timestamps were asked for and there are some. What the parts mean is
    proved beside them: `MaxEndIsMaximum` for the duration, `FlattenAt` for
    the words of `AllWords`, and `SrtLinesShape`, `VttCuesShape`,
    `VttHeader` and `VttTimeRoundTrip` for the subtitles.
   */
  function FormatResponseSpec(result: Transcript, format: Option<ResponseFormat>, granularities: seq<string>): Response {
    match format
    case Some(TextFormat) => PlainText(result.text)
    case Some(SrtFormat) => PlainText(Join("\n", SubtitleLines(result.segments, "srt")))
    case Some(VttFormat) => PlainText(Join("\n", SubtitleLines(result.segments, "vtt")))
    case Some(VerboseJsonFormat) => FullResult(result)
    case Some(JsonFormat) => TextOnly(result.text)
    case None =>
      var words := if "word" in granularities then AllWords(result.segments) else [];
      Summary("transcribe", result.language, MaxEnd(result.segments), result.text, if words != [] then Some(words) else None)
  }

  /** `_format_response`; `None` stands for a format none of the named ones matches. */
  method FormatResponse(result: Transcript, format: Option<ResponseFormat>, granularities: seq<string>)
    returns (response: Response)
    ensures response == FormatResponseSpec(result, format, granularities)
  {
    match format
    case Some(TextFormat) =>
      return PlainText(result.text);
    case Some(SrtFormat) =>
      var file := GenerateSubtitleFile(result, "srt");
      return PlainText(file);
    case Some(VttFormat) =>
      var file := GenerateSubtitleFile(result, "vtt");
      return PlainText(file);
    case Some(VerboseJsonFormat) =>
      return FullResult(result);
    case Some(JsonFormat) =>
      return TextOnly(result.text);
    case None =>
      var duration := LongestEnd(result.segments);
      var words: seq<Word> := [];
      if "word" in granularities {
        words := CollectWords(result.segments);
      }
      return Summary("transcribe", result.language, duration, result.text, if words != [] then Some(words) else None);
  }

  /** The loop that keeps the largest segment end, starting from 0. */
  method LongestEnd(segs: seq<Segment>) returns (duration: nat)
    ensures duration == MaxEnd(segs)
  {
    duration := 0;
    var i := 0;
    while i < |segs|
      invariant 0 <= i <= |segs|
      invariant duration == MaxEnd(segs[..i])
    {
      assert segs[..i + 1][..i] == segs[..i];
      if segs[i].end > duration {
        duration := segs[i].end;
      }
      i := i + 1;
    }
    assert segs[..i] == segs;
  }

  /** The nested loop that appends every word of every segment. */
  method CollectWords(segs: seq<Segment>) returns (words: seq<Word>)
    ensures words == AllWords(segs)
  {
    ghost var blocks := seq(|segs|, k requires 0 <= k < |segs| => segs[k].words);
    words := [];
    var i := 0;
    while i < |segs|
      invariant 0 <= i <= |segs|
      invariant words == Flatten(blocks[..i])
    {
      var j := 0;
      while j < |segs[i].words|
        invariant 0 <= j <= |segs[i].words|
        invariant words == Flatten(blocks[..i]) + segs[i].words[..j]
      {
        words := words + [segs[i].words[j]];
        assert segs[i].words[..j + 1] == segs[i].words[..j] + [segs[i].words[j]];
        j := j + 1;
      }
      assert segs[i].words[..j] == blocks[i];
      assert blocks[..i + 1] == blocks[..i] + [blocks[i]];
      FlattenSnoc(blocks[..i], blocks[i]);
      i := i + 1;
    }
    assert blocks[..i] == blocks;
  }
}
