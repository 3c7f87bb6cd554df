/**
 * What a container's log stream means, line by line: the declarative split,
 * and the byte-at-a-time automaton that computes it (internal/dockerx/framing.go).
 */
module LogLines {
  type byte = b: int | 0 <= b < 256

  const NEWLINE: byte := 10
  const CARRIAGE_RETURN: byte := 13
  const SPACE: byte := 32

  const MAX_LINE: nat := 8192

  datatype Stream = Stdout | Stderr

  /** One line as it is cut out of the stream, before its timestamp is split off. */
  datatype Raw = Raw(text: seq<byte>, truncated: bool)

  datatype LogLine = LogLine(timestamp: seq<byte>, stream: Stream, line: seq<byte>, truncated: bool)

  // ------------------------------------------------------------ declarative

  /** Where the first newline of `data` is, or |data| when there is none. */
  function IndexOfNewline(data: seq<byte>): (n: nat)
    ensures n <= |data|
    ensures NEWLINE !in data[..n]
    ensures n < |data| ==> data[n] == NEWLINE
  {
    if data == [] || data[0] == NEWLINE then 0
    else
      var n := IndexOfNewline(data[1..]);
      assert data[..n + 1] == [data[0]] + data[1..][..n];
      n + 1
  }

  /** A line is cut to the cap and marked exactly when it is longer. */
  function Cut(line: seq<byte>): Raw {
    if |line| > MAX_LINE then Raw(line[..MAX_LINE], true) else Raw(line, false)
  }

  /** Every newline-terminated line of `data`, and a last unterminated one when it is not empty. */
  function SplitLines(data: seq<byte>): seq<Raw>
    decreases |data|
  {
    if data == [] then []
    else
      var n := IndexOfNewline(data);
      if n == |data| then [Cut(data)] else [Cut(data[..n])] + SplitLines(data[n + 1..])
  }

  /** Newline-terminated lines, then an unterminated rest. */
  function JoinLines(lines: seq<seq<byte>>, last: seq<byte>): seq<byte> {
    if lines == [] then last else lines[0] + [NEWLINE] + JoinLines(lines[1..], last)
  }

  function CutAll(lines: seq<seq<byte>>): seq<Raw> {
    if lines == [] then [] else [Cut(lines[0])] + CutAll(lines[1..])
  }

  lemma FirstNewlineEndsLine(line: seq<byte>, rest: seq<byte>)
    requires NEWLINE !in line
    ensures IndexOfNewline(line + [NEWLINE] + rest) == |line|
  {
    var data := line + [NEWLINE] + rest;
    assert data[|line|] == NEWLINE && data[..|line|] == line;
    var n := IndexOfNewline(data);
    assert forall i :: 0 <= i < n ==> data[..n][i] == data[i];
  }

  lemma SplitFirst(line: seq<byte>, rest: seq<byte>)
    requires NEWLINE !in line
    ensures SplitLines(line + [NEWLINE] + rest) == [Cut(line)] + SplitLines(rest)
  {
    var data := line + [NEWLINE] + rest;
    FirstNewlineEndsLine(line, rest);
    assert data[..|line|] == line && data[|line| + 1..] == rest;
  }

  lemma Associate<T>(a: seq<T>, b: seq<T>, c: seq<T>)
    ensures (a + b) + c == a + (b + c)
  {
  }

  lemma SplitLast(last: seq<byte>)
    requires NEWLINE !in last
    ensures SplitLines(last) == if last == [] then [] else [Cut(last)]
  {
    var n := IndexOfNewline(last);
    assert n == |last|;
    assert last[..n] == last;
  }

  /** Splitting undoes joining: each line exactly once, in order, and a rest only if there is one. */
  lemma {:induction false} SplitInvertsJoin(lines: seq<seq<byte>>, last: seq<byte>)
    requires NEWLINE !in last && forall i :: 0 <= i < |lines| ==> NEWLINE !in lines[i]
    ensures SplitLines(JoinLines(lines, last)) == CutAll(lines) + if last == [] then [] else [Cut(last)]
    decreases |lines|
  {
    if lines == [] {
      SplitLast(last);
    } else {
      var tail := if last == [] then [] else [Cut(last)];
      SplitFirst(lines[0], JoinLines(lines[1..], last));
      SplitInvertsJoin(lines[1..], last);
      Associate([Cut(lines[0])], CutAll(lines[1..]), tail);
    }
  }

  // -------------------------------------------------------------- automaton

  datatype LineState = LineState(buf: seq<byte>, discarding: bool)

  const EMPTY := LineState([], false)

  predicate WellFormed(st: LineState) {
    |st.buf| <= MAX_LINE && (st.discarding ==> st.buf == [])
  }

  function Step(st: LineState, b: byte): (LineState, seq<Raw>) {
    if st.discarding then (if b == NEWLINE then LineState(st.buf, false) else st, [])
    else if b == NEWLINE then (EMPTY, [Raw(st.buf, false)])
    else if |st.buf| >= MAX_LINE then (LineState([], true), [Raw(st.buf, true)])
    else (LineState(st.buf + [b], false), [])
  }

  function Run(st: LineState, data: seq<byte>): (LineState, seq<Raw>)
    decreases |data|
  {
    if data == [] then (st, [])
    else
      var (st1, out1) := Step(st, data[0]);
      var (st2, out2) := Run(st1, data[1..]);
      (st2, out1 + out2)
  }

  /** What end of stream adds. */
  function Flush(st: LineState): seq<Raw> {
    if st.buf == [] then [] else [Raw(st.buf, false)]
  }

  lemma {:induction false} RunConcat(st: LineState, a: seq<byte>, b: seq<byte>)
    ensures Run(st, a + b).0 == Run(Run(st, a).0, b).0
    ensures Run(st, a + b).1 == Run(st, a).1 + Run(Run(st, a).0, b).1
    decreases |a|
  {
    if a == [] {
      assert a + b == b;
    } else {
      assert (a + b)[1..] == a[1..] + b;
      RunConcat(Step(st, a[0]).0, a[1..], b);
    }
  }

  /** The buffer never exceeds the cap and is empty while discarding. */
  lemma {:induction false} RunWellFormed(st: LineState, data: seq<byte>)
    requires WellFormed(st)
    ensures WellFormed(Run(st, data).0)
    decreases |data|
  {
    if data != [] { RunWellFormed(Step(st, data[0]).0, data[1..]); }
  }

  /** A stretch without a newline, read in one go. */
  function RunChunk(st: LineState, chunk: seq<byte>): (LineState, seq<Raw>)
    requires WellFormed(st)
  {
    var space := MAX_LINE - |st.buf|;
    if st.discarding then (st, [])
    else if |chunk| > space then (LineState([], true), [Raw(st.buf + chunk[..space], true)])
    else (LineState(st.buf + chunk, false), [])
  }

  lemma {:induction false} ChunkIsRun(st: LineState, chunk: seq<byte>)
    requires WellFormed(st) && NEWLINE !in chunk
    ensures Run(st, chunk) == RunChunk(st, chunk)
    decreases |chunk|
  {
    if chunk == [] {
      assert st.buf + chunk == st.buf;
    } else {
      assert chunk[0] in chunk;
      var st1 := Step(st, chunk[0]).0;
      ChunkIsRun(st1, chunk[1..]);
      if !st.discarding {
        if |st.buf| >= MAX_LINE {
          assert st.buf + chunk[..0] == st.buf;
          assert Step(st, chunk[0]).1 == [Raw(st.buf, true)];
          assert Run(st1, chunk[1..]) == (st1, []);
          assert Run(st, chunk).1 == [Raw(st.buf, true)] == RunChunk(st, chunk).1;
        } else {
          assert Run(st, chunk).1 == Run(st1, chunk[1..]).1;
          assert st1.buf + chunk[1..] == st.buf + chunk;
          var space := MAX_LINE - |st.buf|;
          if |chunk| > space {
            assert st1.buf + chunk[1..][..space - 1] == st.buf + chunk[..space];
          }
        }
      }
    }
  }

  lemma RunNewline(st: LineState)
    ensures Run(st, [NEWLINE]) == Step(st, NEWLINE)
  {
    var (st1, out1) := Step(st, NEWLINE);
    assert [NEWLINE][1..] == [];
    assert Run(st1, []) == (st1, []);
    assert out1 + [] == out1;
  }

  /** From an empty state, one whole line yields its cut and leaves an empty state. */
  lemma LineIsCut(line: seq<byte>)
    requires NEWLINE !in line
    ensures Run(EMPTY, line + [NEWLINE]) == (EMPTY, [Cut(line)])
    ensures line != [] ==> Run(EMPTY, line).1 + Flush(Run(EMPTY, line).0) == [Cut(line)]
  {
    ChunkIsRun(EMPTY, line);
    assert [] + line == line;
    if |line| > MAX_LINE { assert [] + line[..MAX_LINE] == line[..MAX_LINE]; }
    RunConcat(EMPTY, line, [NEWLINE]);
    var st := Run(EMPTY, line).0;
    RunNewline(st);
    assert Run(EMPTY, line + [NEWLINE]).1 == Run(EMPTY, line).1 + Step(st, NEWLINE).1 == [Cut(line)];
  }

  /** The automaton, flushed, computes the declarative split of the whole byte string. */
  lemma {:induction false} AutomatonSplits(data: seq<byte>)
    ensures Run(EMPTY, data).1 + Flush(Run(EMPTY, data).0) == SplitLines(data)
    decreases |data|
  {
    if data != [] {
      var n := IndexOfNewline(data);
      var line := data[..n];
      LineIsCut(line);
      if n == |data| {
        assert line == data;
      } else {
        var rest := data[n + 1..];
        assert data == (line + [NEWLINE]) + rest;
        RunConcat(EMPTY, line + [NEWLINE], rest);
        AutomatonSplits(rest);
      }
    }
  }

  /** Feeding pieces one after the other. */
  function RunPieces(st: LineState, pieces: seq<seq<byte>>): (LineState, seq<Raw>)
    decreases |pieces|
  {
    if pieces == [] then (st, [])
    else
      var (st1, out1) := Run(st, pieces[0]);
      var (st2, out2) := RunPieces(st1, pieces[1..]);
      (st2, out1 + out2)
  }

  function Concat(pieces: seq<seq<byte>>): seq<byte> {
    if pieces == [] then [] else pieces[0] + Concat(pieces[1..])
  }

  lemma {:induction false} PiecesAreRun(st: LineState, pieces: seq<seq<byte>>)
    ensures RunPieces(st, pieces) == Run(st, Concat(pieces))
    decreases |pieces|
  {
    if pieces != [] {
      PiecesAreRun(Run(st, pieces[0]).0, pieces[1..]);
      RunConcat(st, pieces[0], Concat(pieces[1..]));
    }
  }

  /** Chunking is invisible: however a stream is divided, its lines are those of the whole. */
  lemma ChunkingInvisible(pieces: seq<seq<byte>>)
    ensures
      var (st, out) := RunPieces(EMPTY, pieces);
      && out + Flush(st) == SplitLines(Concat(pieces))
      && WellFormed(st)
  {
    PiecesAreRun(EMPTY, pieces);
    AutomatonSplits(Concat(pieces));
    RunWellFormed(EMPTY, Concat(pieces));
  }

  // ---------------------------------------------------------- one line's text

  /** strings.TrimSuffix(line, "\r") */
  function TrimCarriageReturn(line: seq<byte>): seq<byte> {
    if |line| > 0 && line[|line| - 1] == CARRIAGE_RETURN then line[..|line| - 1] else line
  }

  function IndexOfSpace(line: seq<byte>): (n: nat)
    ensures n <= |line| && SPACE !in line[..n]
    ensures n < |line| ==> line[n] == SPACE
  {
    if line == [] || line[0] == SPACE then 0
    else
      var n := IndexOfSpace(line[1..]);
      assert line[..n + 1] == [line[0]] + line[1..][..n];
      n + 1
  }

  /** `isTimestamp` says whether time.Parse accepts the prefix as RFC3339Nano. */
  function ExtractTimestamp(line: seq<byte>, isTimestamp: seq<byte> -> bool): (seq<byte>, seq<byte>) {
    var n := IndexOfSpace(line);
    if n < |line| && isTimestamp(line[..n]) then (line[..n], line[n + 1..]) else ([], line)
  }

  /**
   * No byte of a line is lost: the line is its timestamp, one space and its
   * text, or the text alone when the prefix is no timestamp. And a prefix that
   * is one is always extracted, up to the first space.
   */
  lemma ExtractKeepsLine(line: seq<byte>, isTimestamp: seq<byte> -> bool)
    ensures
      var (ts, text) := ExtractTimestamp(line, isTimestamp);
      || (ts == [] && text == line)
      || (isTimestamp(ts) && SPACE !in ts && line == ts + [SPACE] + text)
    ensures forall ts, text | SPACE !in ts && isTimestamp(ts) && line == ts + [SPACE] + text ::
              ExtractTimestamp(line, isTimestamp) == (ts, text)
  {
    var n := IndexOfSpace(line);
    if n < |line| { assert line == line[..n] + [line[n]] + line[n + 1..]; }
    forall ts, text | SPACE !in ts && isTimestamp(ts) && line == ts + [SPACE] + text
      ensures ExtractTimestamp(line, isTimestamp) == (ts, text)
    {
      FirstSpace(ts, text);
      assert line[..|ts|] == ts && line[|ts| + 1..] == text;
    }
  }

  lemma FirstSpace(ts: seq<byte>, text: seq<byte>)
    requires SPACE !in ts
    ensures IndexOfSpace(ts + [SPACE] + text) == |ts|
  {
    var line := ts + [SPACE] + text;
    var n := IndexOfSpace(line);
    assert line[|ts|] == SPACE && line[..|ts|] == ts;
    assert forall i :: 0 <= i < n ==> line[..n][i] == line[i];
  }

  /** emitLine, up to the call of emit. */
  function Render(stream: Stream, raw: Raw, isTimestamp: seq<byte> -> bool): LogLine {
    var (ts, text) := ExtractTimestamp(TrimCarriageReturn(raw.text), isTimestamp);
    LogLine(ts, stream, text, raw.truncated)
  }

  function RenderAll(stream: Stream, raws: seq<Raw>, isTimestamp: seq<byte> -> bool): (lines: seq<LogLine>)
    ensures |lines| == |raws|
    ensures forall i :: 0 <= i < |raws| ==> lines[i] == Render(stream, raws[i], isTimestamp)
  {
    seq(|raws|, i requires 0 <= i < |raws| => Render(stream, raws[i], isTimestamp))
  }

  lemma RenderConcat(stream: Stream, a: seq<Raw>, b: seq<Raw>, isTimestamp: seq<byte> -> bool)
    ensures RenderAll(stream, a + b, isTimestamp)
            == RenderAll(stream, a, isTimestamp) + RenderAll(stream, b, isTimestamp)
  {
  }

  // ------------------------------------------------- what an emitted line says

  /** `kept` without the one carriage return it may end in. */
  predicate WithoutReturn(kept: seq<byte>, body: seq<byte>) {
    kept == body + [13] || (kept == body && (body == [] || body[|body| - 1] != 13))
  }

  /** A stamp, a space and a text: the stamp reaches to the first space and is a timestamp. */
  predicate Stamped(body: seq<byte>, stamp: seq<byte>, text: seq<byte>, isTimestamp: seq<byte> -> bool) {
    32 !in stamp && isTimestamp(stamp) && body == stamp + [32] + text
  }

  ghost predicate Unstamped(body: seq<byte>, isTimestamp: seq<byte> -> bool) {
    forall stamp, text :: !Stamped(body, stamp, text, isTimestamp)
  }

  /** The line a program wrote, as a reader of the log is to see it. */
  ghost predicate Shows(l: LogLine, stream: Stream, written: seq<byte>, body: seq<byte>,
                        isTimestamp: seq<byte> -> bool)
  {
    && l.stream == stream
    && (l.truncated <==> |written| > 8192)
    && WithoutReturn(if |written| > 8192 then written[..8192] else written, body)
    && (Stamped(body, l.timestamp, l.line, isTimestamp)
        || (Unstamped(body, isTimestamp) && l.timestamp == [] && l.line == body))
  }

  /** That leaves nothing open. */
  lemma ShowsDetermines(l: LogLine, m: LogLine, stream: Stream, written: seq<byte>, a: seq<byte>, b: seq<byte>,
                        isTimestamp: seq<byte> -> bool)
    requires Shows(l, stream, written, a, isTimestamp) && Shows(m, stream, written, b, isTimestamp)
    ensures l == m && a == b
  {
    ReturnOnce(if |written| > 8192 then written[..8192] else written, a, b);
    if Stamped(a, l.timestamp, l.line, isTimestamp) && Stamped(a, m.timestamp, m.line, isTimestamp) {
      ExtractKeepsLine(a, isTimestamp);
    }
  }

  lemma ReturnOnce(kept: seq<byte>, a: seq<byte>, b: seq<byte>)
    requires WithoutReturn(kept, a) && WithoutReturn(kept, b)
    ensures a == b
  {
    if kept != [] {
      assert kept == a + [CARRIAGE_RETURN] ==> kept[|kept| - 1] == CARRIAGE_RETURN && a == kept[..|kept| - 1];
      assert kept == b + [CARRIAGE_RETURN] ==> kept[|kept| - 1] == CARRIAGE_RETURN && b == kept[..|kept| - 1];
    }
  }

  lemma RenderShows(stream: Stream, written: seq<byte>, isTimestamp: seq<byte> -> bool) returns (body: seq<byte>)
    ensures Shows(Render(stream, Cut(written), isTimestamp), stream, written, body, isTimestamp)
  {
    var kept := if |written| > 8192 then written[..8192] else written;
    assert Cut(written).text == kept;
    body := TrimCarriageReturn(kept);
    if |kept| > 0 && kept[|kept| - 1] == CARRIAGE_RETURN { assert kept == body + [CARRIAGE_RETURN]; }
    ExtractKeepsLine(body, isTimestamp);
    if stamp, text :| Stamped(body, stamp, text, isTimestamp) {
      assert ExtractTimestamp(body, isTimestamp) == (stamp, text);
    }
  }

  ghost predicate ShowsLine(l: LogLine, stream: Stream, written: seq<byte>, isTimestamp: seq<byte> -> bool) {
    exists body :: Shows(l, stream, written, body, isTimestamp)
  }

  /**
   * The emitted lines of any output, one by one: a line for each terminated one and for a last
   * unterminated one that is not empty, each on its stream, flagged if and only if it was longer
   * than 8192 bytes, without its final carriage return, and with its stamp, if it has one, apart
   * from its text.
   */
  lemma OutputShown(stream: Stream, lines: seq<seq<byte>>, last: seq<byte>, isTimestamp: seq<byte> -> bool)
    requires NEWLINE !in last && forall i :: 0 <= i < |lines| ==> NEWLINE !in lines[i]
    ensures
      var shown := RenderAll(stream, SplitLines(JoinLines(lines, last)), isTimestamp);
      && |shown| == |lines| + (if last == [] then 0 else 1)
      && (forall i :: 0 <= i < |lines| ==> ShowsLine(shown[i], stream, lines[i], isTimestamp))
      && (last != [] ==> ShowsLine(shown[|lines|], stream, last, isTimestamp))
  {
    SplitInvertsJoin(lines, last);
    CutEach(lines);
    var raws := SplitLines(JoinLines(lines, last));
    var shown := RenderAll(stream, raws, isTimestamp);
    forall i | 0 <= i < |lines| ensures ShowsLine(shown[i], stream, lines[i], isTimestamp) {
      assert raws[i] == Cut(lines[i]);
      var body := RenderShows(stream, lines[i], isTimestamp);
    }
    if last != [] {
      assert raws[|lines|] == Cut(last);
      var body := RenderShows(stream, last, isTimestamp);
    }
  }

  lemma {:induction false} CutEach(lines: seq<seq<byte>>)
    ensures |CutAll(lines)| == |lines| && forall i :: 0 <= i < |lines| ==> CutAll(lines)[i] == Cut(lines[i])
  {
    if lines != [] { CutEach(lines[1..]); }
  }
}
