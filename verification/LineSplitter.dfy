/**
 * The line splitter (internal/dockerx/framing.go): payload bytes go in, one
 * stream's chunk at a time, and whole lines come out through emit.
 */
module LineSplitter {
  import opened LogLines

  /** The receiving end of emit: it keeps what it accepts and refuses every call past `room`. */
  class Sink {
    const room: int                     // negative: never refuses
    var lines: seq<LogLine>

    constructor (room: int)
      ensures this.room == room && lines == []
    {
      this.room := room;
      lines := [];
    }

    /** The callback answers call number n+1 with an error when room is n. */
    method Emit(line: LogLine) returns (ok: bool)
      modifies this`lines
      ensures ok <==> !(0 <= room <= |old(lines)|)
      ensures lines == if ok then old(lines) + [line] else old(lines)
    {
      ok := !(0 <= room <= |lines|);
      if ok {
        lines := lines + [line];
      }
    }
  }

  /**
   * After `offered` was emitted in order onto `before`: everything arrived, or
   * a call failed and exactly the calls before it arrived.
   */
  ghost predicate Emitted(before: seq<LogLine>, offered: seq<LogLine>, after: seq<LogLine>, ok: bool, room: int) {
    if ok then after == before + offered && !(0 <= room < |after|)
    else 0 <= room == |after| && |before| <= |after| < |before| + |offered| && after == (before + offered)[..room]
  }

  /** What one stream's lines are among all lines. */
  ghost function OnStream(lines: seq<LogLine>, stream: Stream): seq<LogLine> {
    if lines == [] then []
    else
      var rest := OnStream(lines[..|lines| - 1], stream);
      if lines[|lines| - 1].stream == stream then rest + [lines[|lines| - 1]] else rest
  }

  lemma OnStreamSnoc(lines: seq<LogLine>, line: LogLine, stream: Stream)
    ensures OnStream(lines + [line], stream) == OnStream(lines, stream) + if line.stream == stream then [line] else []
  {
    assert (lines + [line])[..|lines|] == lines;
  }

  lemma {:induction false} OnStreamConcat(a: seq<LogLine>, b: seq<LogLine>, stream: Stream)
    ensures OnStream(a + b, stream) == OnStream(a, stream) + OnStream(b, stream)
    decreases |b|
  {
    if b == [] {
      assert a + b == a;
    } else {
      var b0, last := b[..|b| - 1], b[|b| - 1];
      assert a + b == (a + b0) + [last] && b == b0 + [last];
      OnStreamConcat(a, b0, stream);
      OnStreamSnoc(a + b0, last, stream);
      OnStreamSnoc(b0, last, stream);
    }
  }

  lemma {:induction false} OnStreamOfOne(stream: Stream, raws: seq<Raw>, isTs: seq<byte> -> bool, other: Stream)
    ensures OnStream(RenderAll(stream, raws, isTs), other)
            == if other == stream then RenderAll(stream, raws, isTs) else []
    decreases |raws|
  {
    if raws != [] {
      var r0, last := raws[..|raws| - 1], raws[|raws| - 1];
      assert raws == r0 + [last];
      RenderConcat(stream, r0, [last], isTs);
      assert RenderAll(stream, [last], isTs) == [Render(stream, last, isTs)];
      OnStreamOfOne(stream, r0, isTs, other);
      OnStreamSnoc(RenderAll(stream, r0, isTs), Render(stream, last, isTs), other);
    }
  }

  class LineSplitter {
    var states: map<Stream, LineState>
    const isTimestamp: seq<byte> -> bool

    constructor (isTimestamp: seq<byte> -> bool)
      ensures this.isTimestamp == isTimestamp && states == map[] && Valid()
    {
      this.isTimestamp := isTimestamp;
      states := map[];
    }

    ghost predicate Valid()
      reads this
    {
      forall stream :: stream in states ==> WellFormed(states[stream])
    }

    /** A stream never pushed to is in the empty state. */
    function State(stream: Stream): (st: LineState)
      requires Valid()
      reads this
      ensures WellFormed(st)
    {
      if stream in states then states[stream] else EMPTY
    }

    /** The lines a push of `payload` emits. */
    ghost function Pushed(stream: Stream, payload: seq<byte>): seq<LogLine>
      requires Valid()
      reads this
    {
      Pushed0(stream, State(stream), payload, isTimestamp)
    }

    /** The body of push's loop: one chunk, up to the next newline if there is one. */
    method TakeTurn(stream: Stream, st: LineState, chunk: seq<byte>, hasNewline: bool, sink: Sink)
      returns (next: LineState, ok: bool)
      requires WellFormed(st) && !(0 <= sink.room < |sink.lines|)
      modifies sink`lines
      ensures !(0 <= sink.room < |sink.lines|)
      ensures ok ==> next == Turn(st, chunk, hasNewline).0
      ensures ok ==> sink.lines == old(sink.lines) + RenderAll(stream, Turn(st, chunk, hasNewline).1, isTimestamp)
      ensures !ok ==> sink.lines == old(sink.lines) && |sink.lines| == sink.room
      ensures !ok ==> |Turn(st, chunk, hasNewline).1| == 1
    {
      next, ok := st, true;
      if st.discarding {
        if hasNewline { next := LineState(st.buf, false); }
        return;
      }
      var space := if |st.buf| > MAX_LINE then 0 else MAX_LINE - |st.buf|;
      var overflowed := |chunk| > space;
      var take := if overflowed then chunk[..space] else chunk;
      next := LineState(st.buf + take, false);
      if overflowed {
        ok := sink.Emit(Render(stream, Raw(next.buf, true), isTimestamp));
        next := LineState([], !hasNewline);
      } else if hasNewline {
        ok := sink.Emit(Render(stream, Raw(next.buf, false), isTimestamp));
        next := EMPTY;
      }
    }

    /** The bytes up to the next newline, whether there is one, and what comes after it. */
    static method NextChunk(data: seq<byte>) returns (chunk: seq<byte>, hasNewline: bool, rest: seq<byte>)
      requires |data| > 0
      ensures data == (if hasNewline then chunk + [NEWLINE] else chunk) + rest
      ensures NEWLINE !in chunk && |rest| < |data|
      ensures !hasNewline ==> rest == []
    {
      var idx := IndexOfNewline(data);
      hasNewline := idx < |data|;
      chunk := data[..idx];
      rest := if hasNewline then data[idx + 1..] else [];
    }

    /**
     * One turn of push's loop. `done` of the payload has been read before it and `sent` emitted
     * onto `before`; `done'` and `sent'` are the same after it.
     */
    method PushTurn(stream: Stream, st: LineState, data: seq<byte>, sink: Sink, ghost st0: LineState,
                    ghost payload: seq<byte>, ghost done: seq<byte>, ghost before: seq<LogLine>,
                    ghost sent: seq<LogLine>)
      returns (next: LineState, rest: seq<byte>, ok: bool, ghost done': seq<byte>, ghost sent': seq<LogLine>)
      requires Progress(stream, st0, payload, done, data, st, sent, isTimestamp) && |data| > 0
      requires sink.lines == before + sent && !(0 <= sink.room < |sink.lines|)
      modifies sink`lines
      ensures ok ==> |rest| < |data| && Progress(stream, st0, payload, done', rest, next, sent', isTimestamp)
      ensures ok ==> sink.lines == before + sent' && !(0 <= sink.room < |sink.lines|)
      ensures !ok ==> Emitted(before, Pushed0(stream, st0, payload, isTimestamp), sink.lines, false, sink.room)
    {
      var chunk, hasNewline;
      chunk, hasNewline, rest := NextChunk(data);
      next, ok := TakeTurn(stream, st, chunk, hasNewline, sink);
      done' := done + if hasNewline then chunk + [NEWLINE] else chunk;
      sent' := sent + RenderAll(stream, Turn(st, chunk, hasNewline).1, isTimestamp);
      TurnOutcome(stream, st0, payload, done, data, st, sent, chunk, hasNewline, rest, isTimestamp,
                  before, sink.lines, next, ok, sink.room);
    }

    /**
     * Splits a payload. Whatever the chunking, the lines emitted and the state
     * left behind are those of the byte-at-a-time automaton.
     */
    method Push(stream: Stream, payload: seq<byte>, sink: Sink) returns (ok: bool)
      requires Valid() && !(0 <= sink.room < |sink.lines|)
      modifies this`states, sink`lines
      ensures Valid()
      ensures Emitted(old(sink.lines), old(Pushed(stream, payload)), sink.lines, ok, sink.room)
      ensures ok ==> states == old(states)[stream := Run(old(State(stream)), payload).0]
    {
      ghost var st0, before, done, sent := State(stream), sink.lines, [], [];
      var st := State(stream);
      states := states[stream := st];
      var data := payload;
      ok := true;
      while |data| > 0
        invariant Progress(stream, st0, payload, done, data, st, sent, isTimestamp)
        invariant states == old(states)[stream := st]
        invariant sink.lines == before + sent && !(0 <= sink.room < |sink.lines|)
        decreases |data|
      {
        st, data, ok, done, sent := PushTurn(stream, st, data, sink, st0, payload, done, before, sent);
        if !ok { return; }
        states := states[stream := st];
      }
      assert done == payload;
    }

    /** The lines a flush of `stream` emits. */
    ghost function Flushed(stream: Stream): seq<LogLine>
      requires Valid()
      reads this
    {
      RenderAll(stream, LogLines.Flush(State(stream)), isTimestamp)
    }

    /** The body of flush's loop: one stream's remainder, if it has one. */
    method FlushStream(stream: Stream, sink: Sink) returns (ok: bool)
      requires Valid() && stream in states && !(0 <= sink.room < |sink.lines|)
      modifies this`states, sink`lines
      ensures Valid() && !(0 <= sink.room < |sink.lines|)
      ensures ok ==> states == old(states)[stream := old(states)[stream].(buf := [])]
      ensures ok ==> sink.lines == old(sink.lines) + old(Flushed(stream))
      ensures !ok ==> states == old(states) && sink.lines == old(sink.lines) && |sink.lines| == sink.room
      ensures !ok ==> old(states)[stream].buf != []
    {
      ok := true;
      var st := states[stream];
      if st.buf == [] { return; }
      ok := sink.Emit(Render(stream, Raw(st.buf, false), isTimestamp));
      if !ok { return; }
      states := states[stream := st.(buf := [])];
    }

    /**
     * Emits every buffered remainder, in whatever order the streams come up;
     * each stream contributes exactly its own remainder.
     */
    method Flush(sink: Sink) returns (ok: bool)
      requires Valid() && !(0 <= sink.room < |sink.lines|)
      modifies this`states, sink`lines
      ensures Valid() && !(0 <= sink.room < |sink.lines|) && old(sink.lines) <= sink.lines
      ensures ok ==> FlushedBut({}, old(states), states, old(sink.lines), sink.lines, isTimestamp)
      ensures !ok ==> |sink.lines| == sink.room
                      && exists left :: SomethingLeft(left, old(states))
                           && FlushedBut(left, old(states), states, old(sink.lines), sink.lines, isTimestamp)
    {
      ghost var states0, before := states, sink.lines;
      var rem := states.Keys;
      ok := true;
      while rem != {}
        invariant rem <= states.Keys && Valid() && !(0 <= sink.room < |sink.lines|)
        invariant FlushedBut(rem, states0, states, before, sink.lines, isTimestamp)
        decreases rem
      {
        var stream :| stream in rem;
        ghost var lines, states1 := sink.lines, states;
        assert states[stream].buf != [] ==> SomethingLeft(rem, states0);
        ok := FlushStream(stream, sink);
        if !ok { return; }
        FlushedOneMore(rem, stream, states0, states1, before, lines, isTimestamp);
        rem := rem - {stream};
      }
    }
  }

  /** How far a flush of `states0` has got: `left` are the streams still to come. */
  ghost predicate FlushedBut(left: set<Stream>, states0: map<Stream, LineState>, states: map<Stream, LineState>,
                             before: seq<LogLine>, lines: seq<LogLine>, isTs: seq<byte> -> bool)
  {
    && before <= lines
    && states.Keys == states0.Keys
    && (forall stream :: stream in states0 ==>
          states[stream] == if stream in left then states0[stream] else states0[stream].(buf := []))
    && forall stream :: OnStream(lines, stream) == OnStream(before, stream) + Share(left, states0, stream, isTs)
  }

  /** What a stream has contributed to a flush with `left` still to come. */
  ghost function Share(left: set<Stream>, states0: map<Stream, LineState>, stream: Stream,
                       isTs: seq<byte> -> bool): seq<LogLine>
  {
    if stream in left || stream !in states0 then [] else RenderAll(stream, Flush(states0[stream]), isTs)
  }

  /** A stream still to come has a remainder. */
  ghost predicate SomethingLeft(left: set<Stream>, states0: map<Stream, LineState>) {
    exists stream :: stream in left && stream in states0 && states0[stream].buf != []
  }

  lemma SharedOneMore(left: set<Stream>, stream: Stream, states0: map<Stream, LineState>,
                      before: seq<LogLine>, lines: seq<LogLine>, isTs: seq<byte> -> bool, other: Stream)
    requires stream in left && stream in states0
    requires OnStream(lines, other) == OnStream(before, other) + Share(left, states0, other, isTs)
    ensures OnStream(lines + RenderAll(stream, Flush(states0[stream]), isTs), other)
            == OnStream(before, other) + Share(left - {stream}, states0, other, isTs)
  {
    OnStreamAdds(lines, stream, Flush(states0[stream]), isTs, other);
    Glue(OnStream(before, other), Share(left, states0, other, isTs),
         if other == stream then RenderAll(stream, Flush(states0[stream]), isTs) else []);
  }

  lemma OnStreamAdds(lines: seq<LogLine>, stream: Stream, raws: seq<Raw>, isTs: seq<byte> -> bool, other: Stream)
    ensures OnStream(lines + RenderAll(stream, raws, isTs), other)
            == OnStream(lines, other) + if other == stream then RenderAll(stream, raws, isTs) else []
  {
    OnStreamConcat(lines, RenderAll(stream, raws, isTs), other);
    OnStreamOfOne(stream, raws, isTs, other);
  }

  lemma Glue(a: seq<LogLine>, b: seq<LogLine>, c: seq<LogLine>)
    ensures b == [] ==> (a + b) + c == a + c
    ensures c == [] ==> (a + b) + c == a + b
  {
  }

  lemma FlushedOneMore(left: set<Stream>, stream: Stream, states0: map<Stream, LineState>,
                       states: map<Stream, LineState>, before: seq<LogLine>, lines: seq<LogLine>,
                       isTs: seq<byte> -> bool)
    requires FlushedBut(left, states0, states, before, lines, isTs) && stream in left && stream in states0
    ensures FlushedBut(left - {stream}, states0, states[stream := states[stream].(buf := [])], before,
                       lines + RenderAll(stream, Flush(states0[stream]), isTs), isTs)
  {
    var added := RenderAll(stream, Flush(states0[stream]), isTs);
    forall other: Stream
      ensures OnStream(lines + added, other)
              == OnStream(before, other) + Share(left - {stream}, states0, other, isTs)
    {
      SharedOneMore(left, stream, states0, before, lines, isTs, other);
    }
  }

  /** One turn of push's loop: a chunk up to the next newline, and that newline if there is one. */
  ghost function Turn(st: LineState, chunk: seq<byte>, hasNewline: bool): (LineState, seq<Raw>)
    requires WellFormed(st)
  {
    var (mid, out) := RunChunk(st, chunk);
    if !hasNewline then (mid, out)
    else if mid.discarding then (EMPTY, out)
    else (EMPTY, out + [Raw(mid.buf, false)])
  }

  lemma TurnIsRun(st: LineState, chunk: seq<byte>, hasNewline: bool)
    requires WellFormed(st) && NEWLINE !in chunk
    ensures Run(st, if hasNewline then chunk + [NEWLINE] else chunk) == Turn(st, chunk, hasNewline)
    ensures WellFormed(Turn(st, chunk, hasNewline).0)
  {
    ChunkIsRun(st, chunk);
    var (mid, out) := RunChunk(st, chunk);
    if hasNewline {
      RunConcat(st, chunk, [NEWLINE]);
      RunNewline(mid);
      assert Run(st, chunk + [NEWLINE]).1 == out + Step(mid, NEWLINE).1 == Turn(st, chunk, true).1;
    }
  }

  ghost function Pushed0(stream: Stream, st: LineState, payload: seq<byte>, isTs: seq<byte> -> bool): seq<LogLine> {
    RenderAll(stream, Run(st, payload).1, isTs)
  }

  /** Push's loop invariant: `done` has been read and `sent` emitted for it. */
  ghost predicate Progress(stream: Stream, st0: LineState, payload: seq<byte>, done: seq<byte>, data: seq<byte>,
                           st: LineState, sent: seq<LogLine>, isTs: seq<byte> -> bool) {
    && payload == done + data
    && WellFormed(st)
    && st == Run(st0, done).0
    && sent == Pushed0(stream, st0, done, isTs)
  }

  lemma TurnProgress(stream: Stream, st0: LineState, payload: seq<byte>, done: seq<byte>, data: seq<byte>,
                     st: LineState, sent: seq<LogLine>, chunk: seq<byte>, hasNewline: bool, rest: seq<byte>,
                     isTs: seq<byte> -> bool)
    requires Progress(stream, st0, payload, done, data, st, sent, isTs) && NEWLINE !in chunk
    requires data == (if hasNewline then chunk + [NEWLINE] else chunk) + rest
    ensures
      var piece := if hasNewline then chunk + [NEWLINE] else chunk;
      var (next, out) := Turn(st, chunk, hasNewline);
      var turn := RenderAll(stream, out, isTs);
      && Progress(stream, st0, payload, done + piece, rest, next, sent + turn, isTs)
      && sent + turn <= Pushed0(stream, st0, payload, isTs)
  {
    var piece := if hasNewline then chunk + [NEWLINE] else chunk;
    var (next, out) := Turn(st, chunk, hasNewline);
    TurnIsRun(st, chunk, hasNewline);
    RunConcat(st0, done, piece);
    RenderConcat(stream, Run(st0, done).1, out, isTs);
    assert payload == (done + piece) + rest;
    RunConcat(st0, done + piece, rest);
    RenderConcat(stream, Run(st0, done + piece).1, Run(next, rest).1, isTs);
  }

  /** What a turn's emit calls did, seen from the whole payload. */
  lemma TurnOutcome(stream: Stream, st0: LineState, payload: seq<byte>, done: seq<byte>, data: seq<byte>,
                    st: LineState, sent: seq<LogLine>, chunk: seq<byte>, hasNewline: bool, rest: seq<byte>,
                    isTs: seq<byte> -> bool, before: seq<LogLine>, lines: seq<LogLine>, next: LineState, ok: bool,
                    room: int)
    requires Progress(stream, st0, payload, done, data, st, sent, isTs) && NEWLINE !in chunk
    requires data == (if hasNewline then chunk + [NEWLINE] else chunk) + rest
    requires ok ==> next == Turn(st, chunk, hasNewline).0
    requires ok ==> lines == (before + sent) + RenderAll(stream, Turn(st, chunk, hasNewline).1, isTs)
    requires !ok ==> lines == before + sent && |lines| == room && |Turn(st, chunk, hasNewline).1| == 1
    ensures
      var piece := if hasNewline then chunk + [NEWLINE] else chunk;
      var turn := RenderAll(stream, Turn(st, chunk, hasNewline).1, isTs);
      && (ok ==> Progress(stream, st0, payload, done + piece, rest, next, sent + turn, isTs))
      && (ok ==> lines == before + (sent + turn))
      && (!ok ==> Emitted(before, Pushed0(stream, st0, payload, isTs), lines, false, room))
  {
    TurnProgress(stream, st0, payload, done, data, st, sent, chunk, hasNewline, rest, isTs);
    var turn := RenderAll(stream, Turn(st, chunk, hasNewline).1, isTs);
    if ok {
      Associate(before, sent, turn);
    } else {
      StoppedIn(before, sent, turn, Pushed0(stream, st0, payload, isTs), lines, room);
    }
  }

  /** A refused line ends the push just before it. */
  lemma StoppedIn(before: seq<LogLine>, sent: seq<LogLine>, turn: seq<LogLine>, offered: seq<LogLine>,
                  after: seq<LogLine>, room: int)
    requires |turn| > 0 && sent + turn <= offered && after == before + sent && |after| == room
    ensures Emitted(before, offered, after, false, room)
  {
  }
}
