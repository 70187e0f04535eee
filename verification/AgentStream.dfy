/** What the host keeps of a running agent's output: the bounded captures of its two streams, the
    parse buffer, and what the frames decoded so far have established. */
module AgentStream {
  import opened Basics
  import opened FrameParser

  // ---- bounded capture

  datatype Capture = Capture(text: string, truncated: bool)

  function Append(max: nat, c: Capture, chunk: string): Capture
    requires |c.text| <= max
  {
    if c.truncated then c
    else if |chunk| > max - |c.text| then Capture(c.text + chunk[..max - |c.text|], true)
    else Capture(c.text + chunk, false)
  }

  function AppendAll(max: nat, c: Capture, chunks: seq<string>): Capture
    requires |c.text| <= max
    decreases |chunks|
  {
    if chunks == [] then c else AppendAll(max, Append(max, c, chunks[0]), chunks[1..])
  }

  /** What a capture of the whole text at once would hold. */
  function Captured(max: nat, text: string): Capture {
    if |text| > max then Capture(text[..max], true) else Capture(text, false)
  }

  lemma AppendCaptured(max: nat, text: string, chunk: string)
    ensures |Captured(max, text).text| <= max
    ensures Append(max, Captured(max, text), chunk) == Captured(max, text + chunk)
  {
    assert |text| > max ==> (text + chunk)[..max] == text[..max];
    assert |text| <= max < |text + chunk| ==> (text + chunk)[..max] == text + chunk[..max - |text|];
  }

  /** However the stream arrives, the capture is its first max characters, and it is marked
      truncated exactly when there were more. */
  lemma {:induction false} CaptureIsPrefix(max: nat, text: string, chunks: seq<string>)
    ensures |Captured(max, text).text| <= max
    ensures AppendAll(max, Captured(max, text), chunks) == Captured(max, text + Join(chunks))
    decreases |chunks|
  {
    if chunks == [] {
      assert text + "" == text;
    } else {
      AppendCaptured(max, text, chunks[0]);
      CaptureIsPrefix(max, text + chunks[0], chunks[1..]);
      assert text + chunks[0] + Join(chunks[1..]) == text + Join(chunks);
    }
  }

  // ---- decoded frames

  /** The fields of a decoded frame that the host acts on. An empty session id counts as none. */
  datatype Output = Output(session: string, final: bool)

  type Decoder = string -> Option<Output>

  function DecodedOne(decode: Decoder, frame: string): seq<Output> {
    match decode(frame)
    case None => []
    case Some(o) => [o]
  }

  /** The frames that decode, in order; the others are dropped. */
  function Decoded(decode: Decoder, frames: seq<string>): seq<Output> {
    if frames == [] then [] else DecodedOne(decode, frames[0]) + Decoded(decode, frames[1..])
  }

  /** The session named by the last frame that names one. */
  function LastSession(outs: seq<Output>): string {
    if outs == [] then ""
    else if outs[|outs| - 1].session != "" then outs[|outs| - 1].session
    else LastSession(outs[..|outs| - 1])
  }

  lemma {:induction false} DecodedConcat(decode: Decoder, a: seq<string>, b: seq<string>)
    ensures Decoded(decode, a + b) == Decoded(decode, a) + Decoded(decode, b)
  {
    if a == [] {
      assert a + b == b;
    } else {
      assert (a + b)[1..] == a[1..] + b;
      DecodedConcat(decode, a[1..], b);
    }
  }

  lemma DecodedSnoc(decode: Decoder, before: seq<Output>, frames: seq<string>, frame: string)
    ensures before + Decoded(decode, frames + [frame])
         == before + Decoded(decode, frames) + DecodedOne(decode, frame)
  {
    DecodedConcat(decode, frames, [frame]);
    assert Decoded(decode, [frame][1..]) == [];
  }

  lemma DecodesTo(decode: Decoder, frame: string)
    ensures DecodedOne(decode, frame) == if decode(frame).Some? then [decode(frame).value] else []
  {
  }

  lemma LastSessionSnoc(outs: seq<Output>, o: Output)
    ensures LastSession(outs + [o]) == if o.session != "" then o.session else LastSession(outs)
  {
    assert (outs + [o])[..|outs|] == outs;
  }

  // ---- what is delivered, frame by frame

  /** How many of the first n frames decode. */
  function Decodable(decode: Decoder, frames: seq<string>, n: nat): (d: nat)
    requires n <= |frames|
    ensures d <= n
  {
    if n == 0 then 0 else Decodable(decode, frames, n - 1) + if decode(frames[n - 1]).Some? then 1 else 0
  }

  /** The outputs are those of the frames that decode, one for each, in their order: the output of a frame comes
      after as many others as there are frames before it that decode. */
  ghost predicate Corresponds(decode: Decoder, frames: seq<string>, outs: seq<Output>) {
    && |outs| == Decodable(decode, frames, |frames|)
    && forall i :: 0 <= i < |frames| && decode(frames[i]).Some? ==>
         && Decodable(decode, frames, i) < |outs|
         && outs[Decodable(decode, frames, i)] == decode(frames[i]).value
  }

  lemma DecodedOneMore(decode: Decoder, frames: seq<string>, frame: string)
    ensures Decoded(decode, frames + [frame])
         == Decoded(decode, frames) + if decode(frame).Some? then [decode(frame).value] else []
  {
    DecodedConcat(decode, frames, [frame]);
    assert Decoded(decode, [frame]) == DecodedOne(decode, frame) + Decoded(decode, []);
  }

  lemma {:induction false} DecodedPrefix(decode: Decoder, frames: seq<string>, n: nat)
    requires n <= |frames|
    ensures |Decoded(decode, frames[..n])| == Decodable(decode, frames, n)
    ensures forall i :: 0 <= i < n && decode(frames[i]).Some? ==>
              && Decodable(decode, frames, i) < Decodable(decode, frames, n)
              && Decoded(decode, frames[..n])[Decodable(decode, frames, i)] == decode(frames[i]).value
  {
    if n > 0 {
      hide Decoded, DecodedOne;
      DecodedPrefix(decode, frames, n - 1);
      assert frames[..n] == frames[..n - 1] + [frames[n - 1]];
      DecodedOneMore(decode, frames[..n - 1], frames[n - 1]);
      var d := Decoded(decode, frames[..n - 1]);
      forall i | 0 <= i < n && decode(frames[i]).Some?
        ensures Decodable(decode, frames, i) < Decodable(decode, frames, n)
        ensures Decoded(decode, frames[..n])[Decodable(decode, frames, i)] == decode(frames[i]).value
      {
        if i < n - 1 {
          assert Decodable(decode, frames, i) < |d|;
        }
      }
    }
  }

  lemma DecodedCorresponds(decode: Decoder, frames: seq<string>)
    ensures Corresponds(decode, frames, Decoded(decode, frames))
  {
    DecodedPrefix(decode, frames, |frames|);
    assert frames[..|frames|] == frames;
  }

  /** The other way round, every output is that of a frame. */
  lemma {:induction false} FrameOf(decode: Decoder, frames: seq<string>, outs: seq<Output>, j: nat) returns (i: nat)
    requires Corresponds(decode, frames, outs) && j < |outs|
    ensures i < |frames| && Decodable(decode, frames, i) == j && decode(frames[i]) == Some(outs[j])
  {
    i := |frames|;
    while Decodable(decode, frames, i) > j
      invariant i <= |frames| && j <= Decodable(decode, frames, i)
      invariant i < |frames| && Decodable(decode, frames, i) == j ==> decode(frames[i]).Some?
      decreases i
    {
      i := i - 1;
    }
  }

  /** When all frames decode there is one output for each. */
  lemma {:induction false} AllDecoded(decode: Decoder, frames: seq<string>)
    requires forall f :: f in frames ==> decode(f).Some?
    ensures |Decoded(decode, frames)| == |frames|
    ensures forall i :: 0 <= i < |frames| ==> Decoded(decode, frames)[i] == decode(frames[i]).value
  {
    if frames != [] {
      AllDecoded(decode, frames[1..]);
      assert frames[0] in frames;
      forall i | 0 < i < |frames| ensures Decoded(decode, frames)[i] == decode(frames[i]).value {
        assert frames[1..][i - 1] == frames[i];
      }
    }
  }

  /** The session is that of the last output that names one. */
  lemma {:induction false} LastSessionNamed(outs: seq<Output>)
    ensures (forall o :: o in outs ==> o.session == "") ==> LastSession(outs) == ""
    ensures forall i :: 0 <= i < |outs| && outs[i].session != ""
                        && (forall j :: i < j < |outs| ==> outs[j].session == "")
                        ==> LastSession(outs) == outs[i].session
  {
    if outs != [] {
      LastSessionNamed(outs[..|outs| - 1]);
    }
  }

  /** Of the text, these frames are taken and this buffer is still to be parsed. */
  ghost predicate Taken(m: Markers, text: string, frames: seq<string>, buffer: string)
    requires m.end != ""
  {
    && Parse(m, text).frames == frames + Parse(m, buffer).frames
    && Parse(m, text).left == Parse(m, buffer).left
  }

  /** Parsing goes on frame by frame. */
  lemma TakeFrame(m: Markers, text: string, frames: seq<string>, buffer: string, i: nat, e: nat)
    requires m.end != "" && Taken(m, text, frames, buffer)
    requires IndexOf(buffer, m.start, 0) == i && IndexOf(buffer, m.end, i) == e
    ensures e + |m.end| <= |buffer|
    ensures Taken(m, text, frames + [Trim(Slice(buffer, i + |m.start|, e))],
                  buffer[e + |m.end|..])
  {
    hide IndexOf, At, Trim, Slice;
    FirstFrameIs(m, buffer, i, e);
    hide FirstFrame;
    assert FirstFrame(m, buffer).Frame?;
  }

  lemma StreamConcat(decode: Decoder, m: Markers, text: string, chunk: string)
    requires m.end != ""
    ensures var p, whole := Parse(m, text), Parse(m, text + chunk);
            var q := Parse(m, p.left + chunk);
            && whole.left == q.left
            && Decoded(decode, whole.frames) == Decoded(decode, p.frames) + Decoded(decode, q.frames)
  {
    ParseConcat(m, text, chunk);
    DecodedConcat(decode, Parse(m, text).frames, Parse(m, Parse(m, text).left + chunk).frames);
  }

  lemma NothingTaken(decode: Decoder, m: Markers, text: string, before: seq<Output>)
    requires m.end != ""
    ensures Taken(m, text, [], text) && before + Decoded(decode, []) == before
  {
  }

  lemma NothingLeft(m: Markers, text: string, frames: seq<string>, buffer: string)
    requires m.end != "" && Taken(m, text, frames, buffer)
    requires var i := IndexOf(buffer, m.start, 0);
             i == -1 || (i >= 0 && IndexOf(buffer, m.end, i) == -1)
    ensures Parse(m, text) == Parsed(frames, buffer)
  {
    hide At, IndexOf;
    assert FirstFrame(m, buffer) == NoFrame;
  }

  /** The stream state of one agent process. */
  class Stream {
    const markers: Markers
    const max: nat
    const streaming: bool
    const decode: Decoder

    var stdout: string
    var stdoutTruncated: bool
    var stderr: string
    var stderrTruncated: bool
    var parseBuffer: string
    var newSessionId: string
    var hadStreamingOutput: bool
    var deliveries: seq<Output>

    /** Everything the two streams have carried so far. */
    ghost var out: string
    ghost var err: string

    /** The state is a function of the text received, however it was cut into chunks. */
    ghost predicate Valid()
      reads this
    {
      && markers.end != ""
      && Capture(stdout, stdoutTruncated) == Captured(max, out)
      && Capture(stderr, stderrTruncated) == Captured(max, err)
      && Summary()
      && (if streaming then
            && parseBuffer == Parse(markers, out).left
            && deliveries == Decoded(decode, Parse(markers, out).frames)
          else parseBuffer == "" && deliveries == [])
    }

    ghost predicate Summary()
      reads this`hadStreamingOutput, this`newSessionId, this`deliveries
    {
      hadStreamingOutput == (deliveries != []) && newSessionId == LastSession(deliveries)
    }

    constructor (markers: Markers, max: nat, streaming: bool, decode: Decoder)
      requires markers.start != "" && markers.end != ""
      ensures Valid() && out == "" && err == ""
      ensures this.markers == markers && this.max == max
      ensures this.streaming == streaming && this.decode == decode
    {
      this.markers, this.max, this.streaming, this.decode := markers, max, streaming, decode;
      stdout, stdoutTruncated, stderr, stderrTruncated := "", false, "", false;
      parseBuffer, newSessionId, hadStreamingOutput, deliveries := "", "", false, [];
      out, err := "", "";
    }

    /** A chunk on the standard output. Each output added to the deliveries restarts the activity
        timer. */
    method OnStdout(chunk: string)
      requires Valid()
      modifies this
      ensures Valid() && out == old(out) + chunk && err == old(err)
      ensures old(deliveries) <= deliveries
    {
      hide Captured, Append, Parse, FirstFrame, IndexOf, Trim, Slice, Decoded, LastSession;
      AppendCaptured(max, out, chunk);
      StreamConcat(decode, markers, out, chunk);
      AppendStdout(chunk);
      out := out + chunk;
      if streaming {
        parseBuffer := parseBuffer + chunk;
        ConsumeMarkers();
      }
    }

    method AppendStdout(chunk: string)
      requires |stdout| <= max
      modifies this`stdout, this`stdoutTruncated
      ensures Capture(stdout, stdoutTruncated)
           == Append(max, old(Capture(stdout, stdoutTruncated)), chunk)
    {
      if stdoutTruncated {
        return;
      }
      var remaining := max - |stdout|;
      if |chunk| > remaining {
        stdout := stdout + chunk[..remaining];
        stdoutTruncated := true;
      } else {
        stdout := stdout + chunk;
      }
    }

    /** Takes every complete frame out of the parse buffer. */
    method ConsumeMarkers()
      requires markers.end != "" && Summary()
      modifies this`parseBuffer, this`newSessionId, this`hadStreamingOutput, this`deliveries
      ensures Summary() && parseBuffer == Parse(markers, old(parseBuffer)).left
      ensures deliveries
           == old(deliveries) + Decoded(decode, Parse(markers, old(parseBuffer)).frames)
    {
      hide *;
      ghost var text, before, done := parseBuffer, deliveries, [];
      NothingTaken(decode, markers, text, before);
      var startIdx := IndexOf(parseBuffer, markers.start, 0);
      while startIdx != -1
        invariant startIdx == IndexOf(parseBuffer, markers.start, 0)
        invariant Summary() && Taken(markers, text, done, parseBuffer)
        invariant deliveries == before + Decoded(decode, done)
        decreases |parseBuffer|
      {
        var endIdx := IndexOf(parseBuffer, markers.end, startIdx);
        if endIdx == -1 {
          break;
        }
        TakeFrame(markers, text, done, parseBuffer, startIdx, endIdx);
        var json := Trim(Slice(parseBuffer, startIdx + |markers.start|, endIdx));
        parseBuffer := parseBuffer[endIdx + |markers.end|..];
        Consume(json);
        DecodedSnoc(decode, before, done, json);
        DecodesTo(decode, json);
        done := done + [json];
        startIdx := IndexOf(parseBuffer, markers.start, 0);
      }
      NothingLeft(markers, text, done, parseBuffer);
    }

    /** One frame; a frame that does not decode is dropped. */
    method Consume(json: string)
      requires Summary()
      modifies this`newSessionId, this`hadStreamingOutput, this`deliveries
      ensures Summary()
      ensures decode(json).Some? ==> deliveries == old(deliveries) + [decode(json).value]
      ensures decode(json).Some? && decode(json).value.session != "" ==> newSessionId == decode(json).value.session
      ensures decode(json).Some? && decode(json).value.session == "" ==> newSessionId == old(newSessionId)
      ensures decode(json).None? ==> deliveries == old(deliveries) && newSessionId == old(newSessionId)
    {
      match decode(json)
      case None =>
      case Some(o) =>
        LastSessionSnoc(deliveries, o);
        if o.session != "" {
          newSessionId := o.session;
        }
        hadStreamingOutput := true;
        deliveries := deliveries + [o];
    }

    /** A chunk on the error output; it always restarts the activity timer. */
    method OnStderr(chunk: string)
      requires Valid()
      modifies this`stderr, this`stderrTruncated, this`err
      ensures Valid() && err == old(err) + chunk
    {
      AppendCaptured(max, err, chunk);
      err := err + chunk;
      if stderrTruncated {
        return;
      }
      var remaining := max - |stderr|;
      if |chunk| > remaining {
        stderr := stderr + chunk[..remaining];
        stderrTruncated := true;
      } else {
        stderr := stderr + chunk;
      }
    }
  }

  lemma {:induction false} BodiesAre(ps: seq<Piece>)
    ensures |Bodies(ps)| == |ps|
    ensures forall i :: 0 <= i < |ps| ==> Bodies(ps)[i] == Trim(ps[i].body)
    ensures forall p :: p in ps ==> Trim(p.body) in Bodies(ps)
    ensures forall b :: b in Bodies(ps) ==> exists p :: p in ps && b == Trim(p.body)
  {
    if ps != [] {
      BodiesAre(ps[1..]);
    }
  }

  /** What the host keeps depends only on the text, and framed outputs that decode are delivered
      exactly and in order. */
  lemma StreamDeliversWritten(s: Stream, ps: seq<Piece>, tail: string)
    requires s.Valid() && s.streaming && s.out == FrameParser.Stream(s.markers, ps, tail)
    requires forall p :: p in ps ==> CleanNoise(s.markers, p.noise) && CleanBody(s.markers, p.body)
    requires !Contains(tail, s.markers.start)
    ensures Corresponds(s.decode, Bodies(ps), s.deliveries) && s.parseBuffer == tail
    ensures (forall p :: p in ps ==> s.decode(Trim(p.body)).Some?) ==>
              && |s.deliveries| == |ps|
              && forall i :: 0 <= i < |ps| ==> s.deliveries[i] == s.decode(Trim(ps[i].body)).value
    ensures s.newSessionId == LastSession(s.deliveries) && (s.hadStreamingOutput <==> s.deliveries != [])
  {
    RoundTrip(s.markers, ps, tail);
    DecodedCorresponds(s.decode, Bodies(ps));
    BodiesAre(ps);
    if forall p :: p in ps ==> s.decode(Trim(p.body)).Some? {
      AllDecoded(s.decode, Bodies(ps));
    }
  }

  /** For any text received so far, the outputs delivered are those of its complete frames that decode, one
      for each, in order. */
  lemma StreamDeliversFrames(s: Stream)
    requires s.Valid() && s.streaming
    ensures Corresponds(s.decode, Parse(s.markers, s.out).frames, s.deliveries)
    ensures s.hadStreamingOutput <==> s.deliveries != []
  {
    DecodedCorresponds(s.decode, Parse(s.markers, s.out).frames);
  }
}
