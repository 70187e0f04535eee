/** The incremental parser for marker-framed agent output. Its result does not depend on how the
    stream is cut into chunks, and it recovers exactly what the writer framed. Everything up to the
    writer holds for any pair of markers; the results on the writer are about the pair of the program. */
module FrameParser {
  datatype Markers = Markers(start: string, end: string)

  // ---- strings as JavaScript has them

  predicate At(s: string, m: string, i: nat) {
    i + |m| <= |s| && forall k :: 0 <= k < |m| ==> s[i + k] == m[k]
  }

  /** The first position from `from` on where m occurs in s, or -1. */
  function IndexOf(s: string, m: string, from: nat): (r: int)
    ensures r == -1 || from <= r <= |s| - |m|
    decreases |s| - from
  {
    if from + |m| > |s| then -1
    else if At(s, m, from) then from
    else IndexOf(s, m, from + 1)
  }

  /** It is the first one indeed, and -1 means there is none. */
  lemma {:induction false} FirstOccurrence(s: string, m: string, from: nat, k: nat)
    ensures IndexOf(s, m, from) == k <==>
            from <= k && At(s, m, k) && forall j :: from <= j < k ==> !At(s, m, j)
    ensures IndexOf(s, m, from) == -1 <==> forall j: nat :: from <= j ==> !At(s, m, j)
    decreases |s| - from
  {
    if from + |m| <= |s| && !At(s, m, from) {
      FirstOccurrence(s, m, from + 1, k);
    }
  }

  predicate Contains(s: string, m: string) {
    IndexOf(s, m, 0) >= 0
  }

  /** The white space and line terminators that trimming removes. */
  predicate IsSpace(c: char) {
    var u := c as int;
    || 0x09 <= u <= 0x0D || u == 0x20 || u == 0xA0 || u == 0x1680 || 0x2000 <= u <= 0x200A
    || u == 0x2028 || u == 0x2029 || u == 0x202F || u == 0x205F || u == 0x3000 || u == 0xFEFF
  }

  function TrimStart(s: string): string {
    if s != "" && IsSpace(s[0]) then TrimStart(s[1..]) else s
  }

  function TrimEnd(s: string): string {
    if s != "" && IsSpace(s[|s| - 1]) then TrimEnd(s[..|s| - 1]) else s
  }

  function Trim(s: string): string {
    TrimEnd(TrimStart(s))
  }

  /** The white space and line terminators of ECMAScript, one by one. */
  const SPACES: seq<int> := [
    0x09, 0x0A, 0x0B, 0x0C, 0x0D, 0x20, 0xA0, 0x1680, 0x2000, 0x2001, 0x2002, 0x2003, 0x2004, 0x2005, 0x2006,
    0x2007, 0x2008, 0x2009, 0x200A, 0x2028, 0x2029, 0x202F, 0x205F, 0x3000, 0xFEFF]

  lemma SpacesAre(c: char)
    ensures IsSpace(c) <==> c as int in SPACES
  {
  }

  ghost predicate AllSpaces(s: string) {
    forall i :: 0 <= i < |s| ==> IsSpace(s[i])
  }

  lemma {:induction false} TrimStartCuts(s: string) returns (n: nat)
    ensures n <= |s| && AllSpaces(s[..n]) && TrimStart(s) == s[n..] && (n < |s| ==> !IsSpace(s[n]))
  {
    hide IsSpace;
    n := 0;
    if s != "" && IsSpace(s[0]) {
      var k := TrimStartCuts(s[1..]);
      n := k + 1;
      assert s[..n] == [s[0]] + s[1..][..n - 1];
    }
  }

  lemma {:induction false} TrimEndCuts(s: string) returns (n: nat)
    ensures n <= |s| && AllSpaces(s[n..]) && TrimEnd(s) == s[..n] && (n > 0 ==> !IsSpace(s[n - 1]))
  {
    hide IsSpace;
    n := |s|;
    if s != "" && IsSpace(s[|s| - 1]) {
      var t := s[..|s| - 1];
      n := TrimEndCuts(t);
      assert s[n..] == t[n..] + [s[|s| - 1]];
    }
  }

  /** Trimming cuts spaces off both ends and stops at the first character of either end that is none. */
  lemma TrimCuts(s: string) returns (a: nat, b: nat)
    ensures a <= b <= |s| && Trim(s) == s[a..b] && AllSpaces(s[..a]) && AllSpaces(s[b..])
    ensures a < b ==> !IsSpace(s[a]) && !IsSpace(s[b - 1])
  {
    hide IsSpace, TrimStart, TrimEnd;
    a := TrimStartCuts(s);
    var n := TrimEndCuts(s[a..]);
    b := a + n;
    assert s[b..] == s[a..][n..] && s[a..b] == s[a..][..n];
  }

  /** slice(a, b): empty when b lies before a. */
  function Slice(s: string, a: nat, b: nat): string
    requires b <= |s|
  {
    if a <= b then s[a..b] else ""
  }

  // ---- one frame, and all of them

  datatype Cut = NoFrame | Frame(payload: string, rest: string)

  /** The first complete frame of the buffer. The end marker is searched from where the start
      marker begins, not from where it ends. */
  function FirstFrame(m: Markers, buffer: string): (c: Cut)
    requires m.end != ""
    ensures c.Frame? ==> |c.rest| < |buffer|
  {
    var startIdx := IndexOf(buffer, m.start, 0);
    if startIdx == -1 then NoFrame
    else
      var endIdx := IndexOf(buffer, m.end, startIdx);
      if endIdx == -1 then NoFrame
      else Frame(Trim(Slice(buffer, startIdx + |m.start|, endIdx)), buffer[endIdx + |m.end|..])
  }

  datatype Parsed = Parsed(frames: seq<string>, left: string)

  /** All complete frames of the buffer, and what is left of it. */
  function Parse(m: Markers, buffer: string): Parsed
    requires m.end != ""
    decreases |buffer|
  {
    match FirstFrame(m, buffer)
    case NoFrame => Parsed([], buffer)
    case Frame(payload, rest) =>
      var p := Parse(m, rest);
      Parsed([payload] + p.frames, p.left)
  }

  // ---- chunking independence

  lemma {:induction false} IndexOfPrefix(a: string, b: string, m: string, from: nat)
    requires IndexOf(a, m, from) >= 0
    ensures IndexOf(a + b, m, from) == IndexOf(a, m, from)
    decreases |a| - from
  {
    if !At(a, m, from) {
      IndexOfPrefix(a, b, m, from + 1);
    }
  }

  lemma ParseFirst(m: Markers, buffer: string)
    requires m.end != "" && FirstFrame(m, buffer).Frame?
    ensures Parse(m, buffer).frames != []
    ensures Parse(m, buffer).frames[0] == FirstFrame(m, buffer).payload
  {
  }

  lemma FirstFrameIs(m: Markers, buffer: string, startIdx: nat, endIdx: nat)
    requires m.end != ""
    requires IndexOf(buffer, m.start, 0) == startIdx && IndexOf(buffer, m.end, startIdx) == endIdx
    ensures endIdx + |m.end| <= |buffer|
    ensures FirstFrame(m, buffer)
         == Frame(Trim(Slice(buffer, startIdx + |m.start|, endIdx)), buffer[endIdx + |m.end|..])
  {
    hide At, IndexOf, Trim, Slice;
  }

  lemma FrameAt(m: Markers, buffer: string) returns (startIdx: nat, endIdx: nat)
    requires m.end != "" && FirstFrame(m, buffer).Frame?
    ensures startIdx == IndexOf(buffer, m.start, 0) && endIdx == IndexOf(buffer, m.end, startIdx)
  {
    startIdx := IndexOf(buffer, m.start, 0);
    endIdx := IndexOf(buffer, m.end, startIdx);
  }

  lemma SliceOfPrefix(a: string, b: string, i: nat, j: nat)
    requires j <= |a|
    ensures Slice(a + b, i, j) == Slice(a, i, j) && (a + b)[j..] == a[j..] + b
  {
  }

  lemma FirstFramePrefix(m: Markers, a: string, b: string)
    requires m.end != "" && FirstFrame(m, a).Frame?
    ensures FirstFrame(m, a + b) == Frame(FirstFrame(m, a).payload, FirstFrame(m, a).rest + b)
  {
    hide *;
    var startIdx, endIdx := FrameAt(m, a);
    IndexOfPrefix(a, b, m.start, 0);
    IndexOfPrefix(a, b, m.end, startIdx);
    FirstFrameIs(m, a, startIdx, endIdx);
    FirstFrameIs(m, a + b, startIdx, endIdx);
    SliceOfPrefix(a, b, startIdx + |m.start|, endIdx);
    SliceOfPrefix(a, b, 0, endIdx + |m.end|);
  }

  /** Parsing a concatenation goes on from what the first part left. */
  lemma {:induction false} ParseConcat(m: Markers, a: string, b: string)
    requires m.end != ""
    ensures var p := Parse(m, a);
            var q := Parse(m, p.left + b);
            Parse(m, a + b) == Parsed(p.frames + q.frames, q.left)
    decreases |a|
  {
    hide FirstFrame;
    match FirstFrame(m, a)
    case NoFrame =>
    case Frame(payload, rest) =>
      FirstFramePrefix(m, a, b);
      ParseConcat(m, rest, b);
  }

  function Join(chunks: seq<string>): string {
    if chunks == [] then "" else chunks[0] + Join(chunks[1..])
  }

  /** Feeding chunk after chunk to a parser that starts with `left` in its buffer. */
  function Feed(m: Markers, left: string, chunks: seq<string>): Parsed
    requires m.end != ""
    decreases |chunks|
  {
    if chunks == [] then Parsed([], left)
    else
      var p := Parse(m, left + chunks[0]);
      var q := Feed(m, p.left, chunks[1..]);
      Parsed(p.frames + q.frames, q.left)
  }

  lemma {:induction false} LeftIsDone(m: Markers, buffer: string)
    requires m.end != ""
    ensures FirstFrame(m, Parse(m, buffer).left) == NoFrame
    decreases |buffer|
  {
    hide FirstFrame;
    match FirstFrame(m, buffer)
    case NoFrame =>
    case Frame(_, rest) => LeftIsDone(m, rest);
  }

  lemma {:induction false} FeedIsParse(m: Markers, left: string, chunks: seq<string>)
    requires m.end != "" && FirstFrame(m, left) == NoFrame
    ensures Feed(m, left, chunks) == Parse(m, left + Join(chunks))
    decreases |chunks|
  {
    hide FirstFrame;
    if chunks == [] {
      assert left + "" == left;
    } else {
      var a, b := left + chunks[0], Join(chunks[1..]);
      assert left + Join(chunks) == a + b;
      ParseConcat(m, a, b);
      LeftIsDone(m, a);
      FeedIsParse(m, Parse(m, a).left, chunks[1..]);
    }
  }

  /** However a stream is cut into chunks, the frames and the leftover buffer are the same. */
  lemma ChunkingIndependence(m: Markers, chunks: seq<string>, others: seq<string>)
    requires m.end != "" && m.start != ""
    requires Join(chunks) == Join(others)
    ensures Feed(m, "", chunks) == Feed(m, "", others) == Parse(m, Join(chunks))
  {
    FeedIsParse(m, "", chunks);
    FeedIsParse(m, "", others);
    assert "" + Join(chunks) == Join(chunks);
  }

  // ---- framing and back

  /** No start marker begins within the noise, not even one that runs into the marker after it. */
  ghost predicate CleanNoise(m: Markers, noise: string) {
    forall i: nat :: i < |noise| ==> !At(noise + m.start, m.start, i)
  }

  /** No end marker begins before the one that closes the body. */
  ghost predicate CleanBody(m: Markers, body: string) {
    forall i: nat :: i < |m.start| + |body| ==> !At(m.start + body + m.end, m.end, i)
  }

  datatype Piece = Piece(noise: string, body: string)

  function Text(m: Markers, p: Piece): string {
    p.noise + m.start + p.body + m.end
  }

  function Stream(m: Markers, ps: seq<Piece>, tail: string): string {
    if ps == [] then tail else Text(m, ps[0]) + Stream(m, ps[1..], tail)
  }

  function Bodies(ps: seq<Piece>): seq<string> {
    if ps == [] then [] else [Trim(ps[0].body)] + Bodies(ps[1..])
  }

  /** Occurrences in a part are occurrences in the whole, and the other way round. */
  lemma AtPart(s: string, a: string, b: string, c: string, m: string, i: nat)
    requires s == a + b + c && i + |m| <= |b|
    ensures At(s, m, |a| + i) <==> At(b, m, i)
  {
    assert b == s[|a|..|a| + |b|];
  }

  lemma AtLiteral(s: string, a: string, m: string, c: string)
    requires s == a + m + c
    ensures At(s, m, |a|)
  {
    AtPart(s, a, m, c, m, 0);
  }

  /** The start marker is found where the noise ends. */
  lemma StartFound(m: Markers, noise: string, rest: string)
    requires CleanNoise(m, noise)
    ensures IndexOf(noise + m.start + rest, m.start, 0) == |noise|
  {
    var s, b := noise + m.start + rest, noise + m.start;
    AtLiteral(s, noise, m.start, rest);
    forall i: nat | i < |noise| ensures !At(s, m.start, i) {
      assert s == "" + b + rest;
      AtPart(s, "", b, rest, m.start, i);
    }
    FirstOccurrence(s, m.start, 0, |noise|);
  }

  /** From there, the end marker is found where the body ends. */
  lemma EndFound(m: Markers, noise: string, body: string, rest: string)
    requires CleanBody(m, body)
    ensures IndexOf(noise + (m.start + body + m.end) + rest, m.end, |noise|)
         == |noise| + |m.start| + |body|
  {
    var b := m.start + body + m.end;
    var s := noise + b + rest;
    forall i: nat | i <= |m.start| + |body|
      ensures At(s, m.end, |noise| + i) <==> At(b, m.end, i)
    {
      AtPart(s, noise, b, rest, m.end, i);
    }
    assert m.start + body + m.end + "" == b;
    AtLiteral(b, m.start + body, m.end, "");
    forall j: nat | |noise| <= j < |noise| + |m.start| + |body| ensures !At(s, m.end, j) {
      assert !At(b, m.end, j - |noise|);
      assert j == |noise| + (j - |noise|);
    }
    FirstOccurrence(s, m.end, |noise|, |noise| + |m.start| + |body|);
  }

  lemma Parts(s: string, a: string, b: string, c: string)
    requires s == a + b + c
    ensures Slice(s, |a|, |a| + |b|) == b && s[|a| + |b|..] == c
  {
  }

  lemma Regroup(s: string, a: string, b: string, c: string, d: string, e: string)
    requires s == a + b + c + d + e
    ensures s == a + b + (c + d + e)
    ensures s == a + (b + c + d) + e
    ensures s == (a + b) + c + (d + e)
  {
  }

  lemma FrameParts(m: Markers, p: Piece, rest: string)
    ensures var s, n := Text(m, p) + rest, |p.noise| + |m.start|;
            && Slice(s, n, n + |p.body|) == p.body
            && s[n + |p.body| + |m.end|..] == rest
            && s == p.noise + m.start + (p.body + m.end + rest)
            && s == p.noise + (m.start + p.body + m.end) + rest
  {
    var s := Text(m, p) + rest;
    assert s == p.noise + m.start + p.body + m.end + rest;
    hide *;
    Regroup(s, p.noise, m.start, p.body, m.end, rest);
    Parts(s, p.noise + m.start, p.body, m.end + rest);
    Parts(s, p.noise + m.start + p.body, m.end, rest);
  }

  lemma FirstFrameOfStream(m: Markers, p: Piece, rest: string)
    requires m.end != "" && CleanNoise(m, p.noise) && CleanBody(m, p.body)
    ensures FirstFrame(m, Text(m, p) + rest) == Frame(Trim(p.body), rest)
  {
    hide *;
    var s, n := Text(m, p) + rest, |p.noise|;
    FrameParts(m, p, rest);
    StartFound(m, p.noise, p.body + m.end + rest);
    EndFound(m, p.noise, p.body, rest);
    FirstFrameIs(m, s, n, n + |m.start| + |p.body|);
  }

  /** Any list of framed bodies with noise in between is recovered exactly and in order. */
  lemma {:induction false} RoundTrip(m: Markers, ps: seq<Piece>, tail: string)
    requires m.end != ""
    requires forall p :: p in ps ==> CleanNoise(m, p.noise) && CleanBody(m, p.body)
    requires !Contains(tail, m.start)
    ensures Parse(m, Stream(m, ps, tail)) == Parsed(Bodies(ps), tail)
  {
    hide CleanNoise, CleanBody, Text, Trim, IndexOf;
    if ps != [] {
      FirstFrameOfStream(m, ps[0], Stream(m, ps[1..], tail));
      hide FirstFrame;
      RoundTrip(m, ps[1..], tail);
    }
  }

  /** The same under every chunking. */
  lemma RoundTripChunked(m: Markers, ps: seq<Piece>, tail: string, chunks: seq<string>)
    requires m.end != "" && m.start != ""
    requires forall p :: p in ps ==> CleanNoise(m, p.noise) && CleanBody(m, p.body)
    requires !Contains(tail, m.start) && Join(chunks) == Stream(m, ps, tail)
    ensures Feed(m, "", chunks) == Parsed(Bodies(ps), tail)
  {
    hide CleanNoise, CleanBody, FirstFrame, Parse, Feed, Stream;
    RoundTrip(m, ps, tail);
    ChunkingIndependence(m, chunks, chunks);
  }

  // ---- what the agent runner writes

  /** The line feed. */
  const LF := 10 as char
  const LINE_END: string := [LF]

  const START := "---RBCLAW_OUTPUT_START---"
  const END := "---RBCLAW_OUTPUT_END---"
  const MARKERS := Markers(START, END)

  /** Markers of one line each, of which the end marker neither lies in nor begins the start
      marker and breaks off at its end. */
  predicate OneLine(m: Markers) {
    LF !in m.start && LF !in m.end && !Contains(m.start, m.end)
  }

  /** The writer prints the start marker, the payload and the end marker on lines of their own. */
  function Written(m: Markers, payload: string): string {
    m.start + (LINE_END + payload + LINE_END) + m.end
  }

  predicate Trimmed(s: string) {
    s != "" && !IsSpace(s[0]) && !IsSpace(s[|s| - 1])
  }

  lemma TrimLine(p: string)
    requires Trimmed(p)
    ensures Trim(LINE_END + p + LINE_END) == p
  {
    var s := LINE_END + p + LINE_END;
    assert s[1..] == p + LINE_END;
    assert TrimStart(s) == TrimStart(p + LINE_END) == p + LINE_END;
    assert (p + LINE_END)[..|p|] == p;
    assert TrimEnd(p + LINE_END) == TrimEnd(p) == p;
  }

  lemma {:induction false} TrimStartShrinks(s: string)
    ensures |TrimStart(s)| <= |s|
    ensures s != "" && IsSpace(s[0]) ==> |TrimStart(s)| < |s|
  {
    if s != "" {
      TrimStartShrinks(s[1..]);
    }
  }

  lemma {:induction false} TrimEndShrinks(s: string)
    ensures |TrimEnd(s)| <= |s|
  {
    if s != "" {
      TrimEndShrinks(s[..|s| - 1]);
    }
  }

  /** A marker without line breaks does not reach over one. */
  lemma NotAcrossNewline(s: string, a: string, b: string, m: string, i: nat)
    requires s == a + LINE_END + b && LF !in m && i <= |a| < i + |m|
    ensures !At(s, m, i)
  {
    assert s[|a|] == LF;
    assert s[|a|] == s[i + (|a| - i)] == LF;
    assert m[|a| - i] in m;
  }

  /** Whole lines without the start marker are clean noise. */
  lemma LinesAreCleanNoise(m: Markers, lines: string)
    requires OneLine(m)
    requires lines == "" || lines[|lines| - 1] == LF
    requires !Contains(lines, m.start)
    ensures CleanNoise(m, lines)
  {
    FirstOccurrence(lines, m.start, 0, 0);
    forall i: nat | i < |lines| ensures !At(lines + m.start, m.start, i) {
      if i + |m.start| <= |lines| {
        assert lines + m.start == "" + lines + m.start;
        AtPart(lines + m.start, "", lines, m.start, m.start, i);
      } else {
        var a := lines[..|lines| - 1];
        assert lines + m.start == a + LINE_END + m.start;
        NotAcrossNewline(lines + m.start, a, m.start, m.start, i);
      }
    }
  }

  /** A payload without the end marker makes a clean body. */
  lemma PayloadIsCleanBody(m: Markers, p: string)
    requires OneLine(m) && !Contains(p, m.end)
    ensures CleanBody(m, LINE_END + p + LINE_END)
  {
    var body := LINE_END + p + LINE_END;
    var s := m.start + body + m.end;
    forall i: nat | i < |m.start| + |body| ensures !At(s, m.end, i) {
      PayloadHasNoEnd(m, p, s, i);
    }
  }

  lemma PayloadHasNoEnd(m: Markers, p: string, s: string, i: nat)
    requires OneLine(m) && !Contains(p, m.end)
    requires s == m.start + (LINE_END + p + LINE_END) + m.end && i < |m.start| + |p| + 2
    ensures !At(s, m.end, i)
  {
    FirstOccurrence(m.start, m.end, 0, 0);
    FirstOccurrence(p, m.end, 0, 0);
    if i + |m.end| <= |m.start| {
      assert s == "" + m.start + (LINE_END + p + LINE_END + m.end);
      AtPart(s, "", m.start, LINE_END + p + LINE_END + m.end, m.end, i);
    } else if i <= |m.start| {
      assert s == m.start + LINE_END + (p + LINE_END + m.end);
      NotAcrossNewline(s, m.start, p + LINE_END + m.end, m.end, i);
    } else if i + |m.end| <= |m.start| + 1 + |p| {
      assert s == (m.start + LINE_END) + p + (LINE_END + m.end);
      AtPart(s, m.start + LINE_END, p, LINE_END + m.end, m.end, i - |m.start| - 1);
    } else {
      assert s == (m.start + LINE_END + p) + LINE_END + m.end;
      NotAcrossNewline(s, m.start + LINE_END + p, m.end, m.end, i);
    }
  }

  lemma NotAt(s: string, m: string, i: nat, k: nat)
    requires k < |m| && i + |m| <= |s| && s[i + k] != m[k]
    ensures !At(s, m, i)
  {
  }

  lemma NotContained(s: string, m: string)
    requires forall i: nat :: i + |m| <= |s| ==> !At(s, m, i)
    ensures !Contains(s, m)
  {
    FirstOccurrence(s, m, 0, 0);
  }

  lemma MarkerCharacters(s: string, e: string)
    requires s == START && e == END
    ensures |s| == 25 && |e| == 23 && LF !in s && LF !in e
    ensures s[17] != e[17] && s[18] != e[17] && s[19] != e[17]
  {
  }

  lemma OneLineIf(s: string, e: string)
    requires |s| == 25 && |e| == 23 && LF !in s && LF !in e
    requires s[17] != e[17] && s[18] != e[17] && s[19] != e[17]
    ensures OneLine(Markers(s, e))
  {
    NotAt(s, e, 0, 17);
    NotAt(s, e, 1, 17);
    NotAt(s, e, 2, 17);
    NotContained(s, e);
  }

  /** The markers of the program qualify. */
  lemma OwnMarkers()
    ensures OneLine(MARKERS)
  {
    hide OneLine;
    MarkerCharacters(START, END);
    OneLineIf(START, END);
  }

  /** A written payload is recovered exactly when it does not contain the end marker: the writer
      does not escape it. */
  lemma WrittenPayloadRecovered(m: Markers, p: string)
    requires OneLine(m) && m.start != "" && m.end != "" && Trimmed(p)
    ensures Parse(m, Written(m, p)).frames == [p] <==> !Contains(p, m.end)
  {
    hide Contains, Written, FirstFrame, OneLine, Trimmed;
    if Contains(p, m.end) {
      EndMarkerCutsShort(m, p);
      ParseFirst(m, Written(m, p));
    } else {
      WrittenRoundTrip(m, p);
    }
  }

  lemma WrittenRoundTrip(m: Markers, p: string)
    requires OneLine(m) && m.start != "" && m.end != "" && Trimmed(p) && !Contains(p, m.end)
    ensures Parse(m, Written(m, p)) == Parsed([p], "")
  {
    var piece := Piece("", LINE_END + p + LINE_END);
    PayloadIsCleanBody(m, p);
    TrimLine(p);
    assert Written(m, p) == Text(m, piece) + "";
    FirstFrameOfStream(m, piece, "");
  }

  lemma EarlyEnd(m: Markers, p: string) returns (e: nat)
    requires Contains(p, m.end)
    ensures IndexOf(Written(m, p), m.start, 0) == 0 && IndexOf(Written(m, p), m.end, 0) == e
    ensures e <= |m.start| + 1 + |p| - |m.end|
  {
    var s, after := Written(m, p), LINE_END + p + LINE_END + m.end;
    var k := IndexOf(p, m.end, 0);
    assert s == "" + m.start + after && s == (m.start + LINE_END) + p + (LINE_END + m.end);
    FirstOccurrence(p, m.end, 0, k);
    hide *;
    AtLiteral(s, "", m.start, after);
    AtPart(s, m.start + LINE_END, p, LINE_END + m.end, m.end, k);
    FirstOccurrence(s, m.start, 0, 0);
    FirstOccurrence(s, m.end, 0, 0);
    e := IndexOf(s, m.end, 0);
    FirstOccurrence(s, m.end, 0, e);
  }

  lemma TrimAfterBreak(s: string)
    requires s != "" ==> s[0] == LF
    ensures |Trim(s)| < |s| || s == ""
    ensures |Trim(s)| <= |s|
  {
    TrimStartShrinks(s);
    TrimEndShrinks(TrimStart(s));
  }

  lemma EndMarkerCutsShort(m: Markers, p: string)
    requires m.end != "" && Contains(p, m.end)
    ensures FirstFrame(m, Written(m, p)).Frame? && |FirstFrame(m, Written(m, p)).payload| < |p|
  {
    var s := Written(m, p);
    var e := EarlyEnd(m, p);
    assert s[|m.start|] == LF;
    hide At, IndexOf, Trim, Written, Contains, FirstFrame;
    FirstFrameIs(m, s, 0, e);
    TrimAfterBreak(Slice(s, |m.start|, e));
    assert p != "";
  }
}
