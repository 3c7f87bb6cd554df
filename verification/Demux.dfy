/** The log demultiplexers (internal/dockerx/logs.go), over any reader and any emit. */
module Demux {
  import opened Prelude
  import opened LogLines
  import opened Framing
  import opened LineSplitter

  datatype DemuxError = EmitFailed | FrameFailed(e: FrameError)

  /** An io.Reader: the bytes it still holds, and whether it then fails or ends. */
  class Reader {
    var data: seq<byte>
    const fault: bool

    constructor (data: seq<byte>, fault: bool)
      ensures this.data == data && this.fault == fault
    {
      this.data, this.fault := data, fault;
    }

    /** io.ReadFull */
    method ReadFull(n: nat) returns (buf: seq<byte>, err: Option<FrameError>)
      modifies this`data
      ensures n <= |old(data)| ==> err == None && buf == old(data)[..n] && data == old(data)[n..]
      ensures n > |old(data)| ==> err == Some(ShortRead(|old(data)|, fault)) && data == []
    {
      if n <= |data| {
        buf, err := data[..n], None;
        data := data[n..];
      } else {
        buf, err := data, Some(ShortRead(|data|, fault));
        data := [];
      }
    }
  }

  method ReadFrame(r: Reader) returns (res: Result<Frame, FrameError>)
    modifies r`data
    ensures res == ParseFrame(old(r.data), r.fault)
    ensures res.Ok? ==> r.data == old(r.data)[HEADER_LEN + |res.value.payload|..]
  {
    ghost var data0 := r.data;
    var header, err := r.ReadFull(HEADER_LEN);
    if err.Some? { return Err(err.value); }
    var stream;
    if header[0] == 1 {
      stream := Stdout;
    } else if header[0] == 2 {
      stream := Stderr;
    } else {
      return Err(UnknownStream(header[0]));
    }
    assert header[4..8] == data0[4..8];
    var size := DecodeSize(header[4..8]);
    if size > MAX_PAYLOAD { return Err(Oversized(size)); }
    var payload := [];
    if size > 0 {
      payload, err := r.ReadFull(size);
      if err.Some? {
        if err.value.EndOfStream? { err := Some(CutShort); }
        return Err(err.value);
      }
    }
    res := Ok(Frame(stream, payload));
    assert payload == data0[HEADER_LEN..HEADER_LEN + size];
  }

  // ------------------------------------------------------------ specification

  function StateOf(states: map<Stream, LineState>, stream: Stream): LineState {
    if stream in states then states[stream] else EMPTY
  }

  /** Pushing the frames one after the other: the states left and the lines emitted. */
  ghost function PushAll(states: map<Stream, LineState>, fs: seq<Frame>, isTs: seq<byte> -> bool)
    : (map<Stream, LineState>, seq<LogLine>)
    decreases |fs|
  {
    if fs == [] then (states, [])
    else
      var (st, out) := Run(StateOf(states, fs[0].stream), fs[0].payload);
      var (states', lines) := PushAll(states[fs[0].stream := st], fs[1..], isTs);
      (states', RenderAll(fs[0].stream, out, isTs) + lines)
  }

  /** The bytes one stream wrote. */
  function Payloads(fs: seq<Frame>, stream: Stream): seq<byte> {
    if fs == [] then []
    else (if fs[0].stream == stream then fs[0].payload else []) + Payloads(fs[1..], stream)
  }

  /** The lines of one stream, in full. */
  ghost function LinesOf(fs: seq<Frame>, stream: Stream, isTs: seq<byte> -> bool): seq<LogLine> {
    RenderAll(stream, SplitLines(Payloads(fs, stream)), isTs)
  }

  /** Interleaved streams never mix: each stream's state and lines are those of its own bytes. */
  lemma {:induction false} StreamsIndependent(states: map<Stream, LineState>, fs: seq<Frame>,
                                              isTs: seq<byte> -> bool, stream: Stream)
    ensures
      var (states', lines) := PushAll(states, fs, isTs);
      var (st, out) := Run(StateOf(states, stream), Payloads(fs, stream));
      && StateOf(states', stream) == st
      && OnStream(lines, stream) == RenderAll(stream, out, isTs)
    decreases |fs|
  {
    if fs != [] {
      var f := fs[0];
      var (st, out) := Run(StateOf(states, f.stream), f.payload);
      var next := states[f.stream := st];
      StreamsIndependent(next, fs[1..], isTs, stream);
      var lines := PushAll(next, fs[1..], isTs).1;
      OnStreamConcat(RenderAll(f.stream, out, isTs), lines, stream);
      OnStreamOfOne(f.stream, out, isTs, stream);
      var tail := Payloads(fs[1..], stream);
      if f.stream == stream {
        RunConcat(StateOf(states, stream), f.payload, tail);
        RenderConcat(stream, out, Run(st, tail).1, isTs);
      } else {
        assert [] + tail == tail;
        assert [] + OnStream(lines, stream) == OnStream(lines, stream);
      }
    }
  }

  /** What was pushed, then flushed, is per stream the declarative split of what it wrote. */
  lemma DemuxedStream(fs: seq<Frame>, isTs: seq<byte> -> bool, stream: Stream)
    ensures
      var (states, lines) := PushAll(map[], fs, isTs);
      OnStream(lines, stream) + RenderAll(stream, Flush(StateOf(states, stream)), isTs) == LinesOf(fs, stream, isTs)
  {
    StreamsIndependent(map[], fs, isTs, stream);
    var data := Payloads(fs, stream);
    AutomatonSplits(data);
    RenderConcat(stream, Run(EMPTY, data).1, Flush(Run(EMPTY, data).0), isTs);
  }

  // ------------------------------------------------------------------- loops

  lemma {:induction false} PushAllConcat(states: map<Stream, LineState>, a: seq<Frame>, b: seq<Frame>,
                                         isTs: seq<byte> -> bool)
    ensures PushAll(states, a + b, isTs).0 == PushAll(PushAll(states, a, isTs).0, b, isTs).0
    ensures PushAll(states, a + b, isTs).1
            == PushAll(states, a, isTs).1 + PushAll(PushAll(states, a, isTs).0, b, isTs).1
    decreases |a|
  {
    if a == [] {
      assert a + b == b;
    } else {
      assert (a + b)[0] == a[0] && (a + b)[1..] == a[1..] + b;
      var (st, out) := Run(StateOf(states, a[0].stream), a[0].payload);
      var next := states[a[0].stream := st];
      PushAllConcat(next, a[1..], b, isTs);
      var (mid, rest) := PushAll(next, a[1..], isTs);
      Associate(RenderAll(a[0].stream, out, isTs), rest, PushAll(mid, b, isTs).1);
    }
  }

  /** One more frame has been read: `rest` is what the reader still holds after it. */
  lemma OneFrameMore(data0: seq<byte>, fault: bool, done: seq<Frame>, data: seq<byte>, f: Frame, rest: seq<byte>)
    requires ParseAll(data0, fault).0 == done + ParseAll(data, fault).0
    requires ParseAll(data0, fault).1 == ParseAll(data, fault).1
    requires ParseFrame(data, fault) == Ok(f) && rest == data[HEADER_LEN + |f.payload|..]
    ensures ParseAll(data0, fault).0 == (done + [f]) + ParseAll(rest, fault).0
    ensures ParseAll(data0, fault).1 == ParseAll(rest, fault).1
  {
    Associate(done, [f], ParseAll(rest, fault).0);
  }

  lemma OnePushMore(states0: map<Stream, LineState>, done: seq<Frame>, f: Frame, isTs: seq<byte> -> bool)
    ensures
      var (states, lines) := PushAll(states0, done, isTs);
      var (st, out) := Run(StateOf(states, f.stream), f.payload);
      && PushAll(states0, done + [f], isTs).0 == states[f.stream := st]
      && PushAll(states0, done + [f], isTs).1 == lines + RenderAll(f.stream, out, isTs)
  {
    PushAllConcat(states0, done, [f], isTs);
    var states := PushAll(states0, done, isTs).0;
    var (st, out) := Run(StateOf(states, f.stream), f.payload);
    assert PushAll(states, [f], isTs).1 == RenderAll(f.stream, out, isTs) + [];
  }

  /** A flush of `states` onto `body` was refused a line: `lines` is what had been emitted. */
  ghost predicate StoppedInFlush(states: map<Stream, LineState>, body: seq<LogLine>, lines: seq<LogLine>,
                                 isTs: seq<byte> -> bool)
  {
    exists left, states' :: SomethingLeft(left, states) && FlushedBut(left, states, states', body, lines, isTs)
  }

  /**
   * What demuxNonTTY leaves behind. Without an emit failure every line of
   * every complete frame is emitted in order; a clean end then adds the streams'
   * remainders, so that each stream's lines are the split of all it wrote, and
   * any other end adds nothing. A refused call ends it with exactly the calls
   * before it.
   */
  ghost predicate Demuxed(data: seq<byte>, fault: bool, isTs: seq<byte> -> bool, lines: seq<LogLine>, room: int,
                          err: Option<DemuxError>)
  {
    var (fs, end) := ParseAll(data, fault);
    var (states, body) := PushAll(map[], fs, isTs);
    match err
    case None =>
      end.EndOfStream? && body <= lines && forall stream :: OnStream(lines, stream) == LinesOf(fs, stream, isTs)
    case Some(FrameFailed(e)) => e == end && !end.EndOfStream? && lines == body
    case Some(EmitFailed) =>
      && |lines| == room
      && if |lines| < |body| then lines == body[..room]
         else end.EndOfStream? && StoppedInFlush(states, body, lines, isTs)
  }

  lemma DemuxedCleanly(data: seq<byte>, fault: bool, isTs: seq<byte> -> bool, fs: seq<Frame>,
                       lines: seq<LogLine>, states': map<Stream, LineState>, room: int)
    requires ParseAll(data, fault) == (fs, EndOfStream)
    requires
      var (states, body) := PushAll(map[], fs, isTs);
      FlushedBut({}, states, states', body, lines, isTs)
    ensures Demuxed(data, fault, isTs, lines, room, None)
  {
    forall stream
      ensures OnStream(lines, stream) == LinesOf(fs, stream, isTs)
    {
      DemuxedStream(fs, isTs, stream);
    }
  }

  lemma DemuxStoppedInFlush(data: seq<byte>, fault: bool, isTs: seq<byte> -> bool, fs: seq<Frame>,
                            lines: seq<LogLine>, left: set<Stream>, states': map<Stream, LineState>, room: int)
    requires ParseAll(data, fault) == (fs, EndOfStream) && |lines| == room
    requires
      var (states, body) := PushAll(map[], fs, isTs);
      SomethingLeft(left, states) && FlushedBut(left, states, states', body, lines, isTs)
    ensures Demuxed(data, fault, isTs, lines, room, Some(EmitFailed))
  {
  }

  lemma DemuxStoppedInPush(data: seq<byte>, fault: bool, isTs: seq<byte> -> bool, done: seq<Frame>, f: Frame,
                           rest: seq<Frame>, lines: seq<LogLine>, room: int)
    requires ParseAll(data, fault).0 == (done + [f]) + rest
    requires
      var (states, body) := PushAll(map[], done, isTs);
      var pushed := RenderAll(f.stream, Run(StateOf(states, f.stream), f.payload).1, isTs);
      Emitted(body, pushed, lines, false, room)
    ensures Demuxed(data, fault, isTs, lines, room, Some(EmitFailed))
  {
    OnePushMore(map[], done, f, isTs);
    PushAllConcat(map[], done + [f], rest, isTs);
  }

  method DemuxNonTTY(r: Reader, sink: Sink, isTs: seq<byte> -> bool) returns (err: Option<DemuxError>)
    requires sink.lines == []
    modifies r`data, sink`lines
    ensures Demuxed(old(r.data), r.fault, isTs, sink.lines, sink.room, err)
  {
    var splitter := new LineSplitter(isTs);
    ghost var data0 := r.data;
    ghost var done: seq<Frame> := [];
    assert [] + ParseAll(data0, r.fault).0 == ParseAll(data0, r.fault).0;
    while true
      invariant splitter.Valid() && splitter.isTimestamp == isTs && !(0 <= sink.room < |sink.lines|)
      invariant ParseAll(data0, r.fault).0 == done + ParseAll(r.data, r.fault).0
      invariant ParseAll(data0, r.fault).1 == ParseAll(r.data, r.fault).1
      invariant splitter.states == PushAll(map[], done, isTs).0
      invariant sink.lines == PushAll(map[], done, isTs).1
      decreases |r.data|
    {
      ghost var data := r.data;
      var res := ReadFrame(r);
      if res.Err? {
        assert done + [] == done;
        if !res.error.EndOfStream? { return Some(FrameFailed(res.error)); }
        ghost var states, body := splitter.states, sink.lines;
        var ok := splitter.Flush(sink);
        if ok {
          DemuxedCleanly(data0, r.fault, isTs, done, sink.lines, splitter.states, sink.room);
          return None;
        }
        ghost var left :| SomethingLeft(left, states)
                          && FlushedBut(left, states, splitter.states, body, sink.lines, isTs);
        DemuxStoppedInFlush(data0, r.fault, isTs, done, sink.lines, left, splitter.states, sink.room);
        return Some(EmitFailed);
      }
      var f := res.value;
      OneFrameMore(data0, r.fault, done, data, f, r.data);
      OnePushMore(map[], done, f, isTs);
      var ok := splitter.Push(f.stream, f.payload, sink);
      if !ok {
        DemuxStoppedInPush(data0, r.fault, isTs, done, f, ParseAll(r.data, r.fault).0, sink.lines, sink.room);
        return Some(EmitFailed);
      }
      done := done + [f];
    }
  }

  /**
   * Frame decode inverts frame encode, lines and all: whatever frames were
   * written, their concatenation ends cleanly and each stream's lines are the
   * split of what that stream wrote.
   */
  lemma EncodedLogRoundTrip(fs: seq<Frame>, isTs: seq<byte> -> bool, lines: seq<LogLine>, room: int,
                            err: Option<DemuxError>)
    requires AllEncodable(fs) && Demuxed(EncodeAll(fs), false, isTs, lines, room, err)
    ensures err == None || err == Some(EmitFailed)
    ensures err == None ==> forall stream :: OnStream(lines, stream) == LinesOf(fs, stream, isTs)
    ensures room < 0 ==> err == None
  {
    FramesRoundTrip(fs);
  }

  /** Cut the bytes inside a frame: an unexpected end, after exactly the complete frames' lines. */
  lemma CutLogLines(fs: seq<Frame>, k: nat, isTs: seq<byte> -> bool, lines: seq<LogLine>, room: int,
                    err: Option<DemuxError>)
    requires AllEncodable(fs) && k <= |EncodeAll(fs)| && !Boundary(fs, k) && room < 0
    requires Demuxed(EncodeAll(fs)[..k], false, isTs, lines, room, err)
    ensures err == Some(FrameFailed(CutShort))
    ensures lines == PushAll(map[], fs[..Complete(fs, k)], isTs).1
  {
    CutAnywhere(fs, k);
  }

  lemma {:induction false} OnlyOne(lines: seq<LogLine>, stream: Stream)
    requires forall other :: other != stream ==> OnStream(lines, other) == []
    ensures OnStream(lines, stream) == lines
    decreases |lines|
  {
    if lines != [] {
      var before, last := lines[..|lines| - 1], lines[|lines| - 1];
      assert lines == before + [last];
      forall other ensures OnStream(lines, other) ==
                           OnStream(before, other) + if last.stream == other then [last] else []
      {
        OnStreamSnoc(before, last, other);
      }
      assert last.stream == stream by { assert last.stream != stream ==> OnStream(lines, last.stream) == []; }
      OnlyOne(before, stream);
    }
  }

  // ------------------------------------------------------- one line, end to end

  /** A single frame's output is the split of its payload, on its stream and on no other. */
  lemma OneFrame(f: Frame, isTs: seq<byte> -> bool, lines: seq<LogLine>, room: int)
    requires Encodable(f) && Demuxed(Encode(f), false, isTs, lines, room, None)
    ensures lines == RenderAll(f.stream, SplitLines(f.payload), isTs)
  {
    EncodeOne(f);
    FramesRoundTrip([f]);
    forall other
      ensures OnStream(lines, other) == if other == f.stream then RenderAll(other, SplitLines(f.payload), isTs) else []
    {
      PayloadsOfOne(f, other);
      assert OnStream(lines, other) == LinesOf([f], other, isTs);
    }
    OnlyOne(lines, f.stream);
  }

  lemma EncodeOne(f: Frame)
    requires Encodable(f)
    ensures AllEncodable([f]) && EncodeAll([f]) == Encode(f)
  {
    assert [f][1..] == [];
    assert EncodeAll([f]) == Encode(f) + EncodeAll([]);
  }

  lemma PayloadsOfOne(f: Frame, stream: Stream)
    ensures Payloads([f], stream) == if f.stream == stream then f.payload else []
  {
    assert [f][1..] == [];
    assert Payloads([], stream) == [];
  }

  /**
   * A program writes one line, the Engine frames it, and it is demultiplexed: exactly one line comes
   * out, and it shows what was written.
   */
  lemma LineShown(stream: Stream, written: seq<byte>, isTs: seq<byte> -> bool, lines: seq<LogLine>, room: int)
    requires 10 !in written && |written| < 0x10_0000
    requires Demuxed(Encode(Frame(stream, written + [10])), false, isTs, lines, room, None)
    ensures |lines| == 1 && ShowsLine(lines[0], stream, written, isTs)
  {
    OneFrame(Frame(stream, written + [10]), isTs, lines, room);
    assert JoinLines([written], []) == written + [10] by {
      assert [written][1..] == [];
      assert JoinLines([], []) == [];
    }
    OutputShown(stream, [written], [], isTs);
  }

  /** A stamped line that fits, ended by a newline alone or by a carriage return and a newline. */
  lemma StampedLineShown(stream: Stream, stamp: seq<byte>, text: seq<byte>, cr: bool, isTs: seq<byte> -> bool,
                         lines: seq<LogLine>, room: int)
    requires 32 !in stamp && 10 !in stamp && isTs(stamp)
    requires 10 !in text && (text == [] || text[|text| - 1] != 13)
    requires
      var written := stamp + [32] + text + if cr then [13] else [];
      |written| <= 8192 && Demuxed(Encode(Frame(stream, written + [10])), false, isTs, lines, room, None)
    ensures lines == [LogLine(stamp, stream, text, false)]
  {
    var body := stamp + [32] + text;
    var written := body + if cr then [13] else [];
    LineShown(stream, written, isTs, lines, room);
    var b :| Shows(lines[0], stream, written, b, isTs);
    var expected := LogLine(stamp, stream, text, false);
    assert WithoutReturn(written, body);
    assert Shows(expected, stream, written, body, isTs);
    ShowsDetermines(lines[0], expected, stream, written, b, body, isTs);
  }

  /** A line without a stamp that fits comes out whole, as text. */
  lemma PlainLineShown(stream: Stream, text: seq<byte>, isTs: seq<byte> -> bool, lines: seq<LogLine>, room: int)
    requires Unstamped(text, isTs) && |text| <= 8192
    requires 10 !in text && (text == [] || text[|text| - 1] != 13)
    requires Demuxed(Encode(Frame(stream, text + [10])), false, isTs, lines, room, None)
    ensures lines == [LogLine([], stream, text, false)]
  {
    LineShown(stream, text, isTs, lines, room);
    var b :| Shows(lines[0], stream, text, b, isTs);
    var expected := LogLine([], stream, text, false);
    assert Shows(expected, stream, text, text, isTs);
    ShowsDetermines(lines[0], expected, stream, text, b, text, isTs);
  }

  /** An over-long line comes out as its first 8192 bytes and says so. */
  lemma LongLineShown(stream: Stream, stamp: seq<byte>, text: seq<byte>, isTs: seq<byte> -> bool,
                      lines: seq<LogLine>, room: int)
    requires 32 !in stamp && 10 !in stamp && isTs(stamp) && 10 !in text
    requires var written := stamp + [32] + text;
             && 8192 < |written| < 0x10_0000 && |stamp| < 8192 && written[8191] != 13
             && Demuxed(Encode(Frame(stream, written + [10])), false, isTs, lines, room, None)
    ensures lines == [LogLine(stamp, stream, text[..8191 - |stamp|], true)]
  {
    var written := stamp + [32] + text;
    LineShown(stream, written, isTs, lines, room);
    var b :| Shows(lines[0], stream, written, b, isTs);
    var cut := text[..8191 - |stamp|];
    assert written[..8192] == stamp + [32] + cut;
    var expected := LogLine(stamp, stream, cut, true);
    assert Shows(expected, stream, written, written[..8192], isTs);
    ShowsDetermines(lines[0], expected, stream, written, b, written[..8192], isTs);
  }

  /** One more read, and the rest of the output after it. */
  lemma ReadMore(done: seq<byte>, chunk: seq<byte>, rest: seq<byte>, isTs: seq<byte> -> bool)
    ensures
      var (st, out) := Run(EMPTY, done);
      var lines, more := RenderAll(Stdout, out, isTs), RenderAll(Stdout, Run(st, chunk).1, isTs);
      && Run(EMPTY, done + chunk).0 == Run(st, chunk).0
      && RenderAll(Stdout, Run(EMPTY, done + chunk).1, isTs) == lines + more
      && lines + more <= RenderAll(Stdout, SplitLines(done + chunk + rest), isTs)
  {
    var (st, out) := Run(EMPTY, done);
    RunConcat(EMPTY, done, chunk);
    RenderConcat(Stdout, out, Run(st, chunk).1, isTs);
    RunConcat(EMPTY, done + chunk, rest);
    AutomatonSplits(done + chunk + rest);
    assert Run(EMPTY, done + chunk).1 <= SplitLines(done + chunk + rest);
  }

  /** Flushing a splitter that only ever saw one stream appends that stream's remainder. */
  lemma FlushOfOne(before: seq<LogLine>, lines: seq<LogLine>, left: set<Stream>,
                   states0: map<Stream, LineState>, states: map<Stream, LineState>, isTs: seq<byte> -> bool)
    requires FlushedBut(left, states0, states, before, lines, isTs)
    requires states0.Keys <= {Stdout} && OnStream(before, Stderr) == []
    ensures lines == before + Share(left, states0, Stdout, isTs)
  {
    assert OnStream(before, Stderr) + Share(left, states0, Stderr, isTs) == [];
    OnlyOne(before, Stdout);
    OnlyOne(lines, Stdout);
  }

  /**
   * demuxTTY, over what the reader's successive Read calls return: the lines
   * are the split of the whole output, however it was divided into reads.
   */
  method DemuxTTY(chunks: seq<seq<byte>>, fault: bool, sink: Sink, isTs: seq<byte> -> bool)
    returns (err: Option<DemuxError>)
    requires sink.lines == []
    modifies sink`lines
    ensures
      var data := Concat(chunks);
      match err
      case None => !fault && sink.lines == RenderAll(Stdout, SplitLines(data), isTs)
      case Some(FrameFailed(e)) => fault && e.ReadFault? && sink.lines == RenderAll(Stdout, Run(EMPTY, data).1, isTs)
      case Some(EmitFailed) =>
        |sink.lines| == sink.room && sink.lines < RenderAll(Stdout, SplitLines(data), isTs)
  {
    var splitter := new LineSplitter(isTs);
    ghost var done: seq<byte> := [];
    var i := 0;
    assert chunks[0..] == chunks && [] + Concat(chunks) == Concat(chunks);
    while i < |chunks|
      invariant 0 <= i <= |chunks| && Concat(chunks) == done + Concat(chunks[i..])
      invariant splitter.Valid() && splitter.isTimestamp == isTs && !(0 <= sink.room < |sink.lines|)
      invariant splitter.states.Keys <= {Stdout}
      invariant splitter.State(Stdout) == Run(EMPTY, done).0
      invariant sink.lines == RenderAll(Stdout, Run(EMPTY, done).1, isTs)
    {
      ghost var rest := Concat(chunks[i + 1..]);
      assert chunks[i..][1..] == chunks[i + 1..];
      Associate(done, chunks[i], rest);
      ReadMore(done, chunks[i], rest, isTs);
      if |chunks[i]| > 0 {
        var ok := splitter.Push(Stdout, chunks[i], sink);
        if !ok { return Some(EmitFailed); }
      }
      done := done + chunks[i];
      i := i + 1;
    }
    assert done == Concat(chunks) by { assert done + [] == done; }
    if fault { return Some(FrameFailed(ReadFault)); }
    ghost var before, states0 := sink.lines, splitter.states;
    ghost var out := Run(EMPTY, done).1;
    OnStreamOfOne(Stdout, out, isTs, Stderr);
    AutomatonSplits(done);
    RenderConcat(Stdout, out, Flush(Run(EMPTY, done).0), isTs);
    var ok := splitter.Flush(sink);
    if ok {
      FlushOfOne(before, sink.lines, {}, states0, splitter.states, isTs);
      return None;
    }
    ghost var left :| SomethingLeft(left, states0)
                      && FlushedBut(left, states0, splitter.states, before, sink.lines, isTs);
    FlushOfOne(before, sink.lines, left, states0, splitter.states, isTs);
    return Some(EmitFailed);
  }

  // ----------------------------------------------------------- bounded history

  const MAX_HISTORICAL_LINES := 2000

  /** The first lines of a log, as many as a bounded fetch returns. */
  function FirstLines(lines: seq<LogLine>): seq<LogLine> {
    if |lines| <= MAX_HISTORICAL_LINES then lines else lines[..MAX_HISTORICAL_LINES]
  }

  /** ContainerLogs' emit: it never refuses a line, so the whole stream is drained. */
  class History {
    var items: seq<LogLine>
    var truncated: bool
    ghost var offered: seq<LogLine>

    /** The answer is the first lines offered, and `truncated` tells exactly whether there were more. */
    ghost predicate Valid()
      reads this
    {
      items == FirstLines(offered) && (truncated <==> |offered| > MAX_HISTORICAL_LINES)
    }

    constructor ()
      ensures Valid() && offered == []
    {
      items, truncated, offered := [], false, [];
    }

    method Emit(line: LogLine)
      requires Valid()
      modifies this
      ensures Valid() && offered == old(offered) + [line]
      ensures items == if |offered| <= 2000 then offered else offered[..2000]
      ensures truncated <==> |offered| > 2000
    {
      if |items| == MAX_HISTORICAL_LINES {
        truncated := true;
      } else {
        items := items + [line];
      }
      offered := offered + [line];
    }
  }
}
