/**
 * Server-sent events: the writer (internal/httpapi/sse.go) and the block parser that reads it back
 * (internal/e2e/harness/stream.go). The format is section 9.2 of the WHATWG HTML Living Standard.
 */
module Sse {
  import opened Prelude

  // ------------------------------------------------------------------ printing

  /** What the writer is asked to send: an event with its encoded payload, or a comment. */
  datatype Item = Event(id: string, name: string, data: string) | Comment(text: string)

  /** Lines, each closed by a newline. */
  function Lines(ls: seq<string>): string {
    if ls == [] then "" else ls[0] + "\n" + Lines(ls[1..])
  }

  /** The lines of an item before the blank line that ends it. */
  function Body(item: Item): seq<string> {
    match item
    case Event(id, name, data) => ["id: " + id, "event: " + name, "data: " + data]
    case Comment(text) => [": " + text]
  }

  function Print(item: Item): string { Lines(Body(item) + [""]) }

  function PrintAll(items: seq<Item>): string {
    if items == [] then "" else Print(items[0]) + PrintAll(items[1..])
  }

  lemma PrintShape(item: Item)
    ensures item.Event? ==>
              Print(item) == "id: " + item.id + "\nevent: " + item.name + "\ndata: " + item.data + "\n\n"
    ensures item.Comment? ==> Print(item) == ": " + item.text + "\n\n"
  {
    LinesConcat(Body(item), [""]);
    assert Lines([""]) == "\n" by { assert [""][1..] == []; }
    if item.Event? {
      var b := Body(item);
      LinesOfThree(b[0], b[1], b[2]);
      Joined("id: " + item.id, "\n", "event: ", item.name, "\n", "data: ", item.data);
      assert "\n" + "event: " == "\nevent: " && "\n" + "data: " == "\ndata: " && "\n" + "\n" == "\n\n";
    } else {
      assert Body(item)[1..] == [];
    }
  }

  lemma LinesOfThree(a: string, b: string, c: string)
    ensures Lines([a, b, c]) == a + "\n" + (b + "\n" + (c + "\n"))
  {
    assert [a, b, c][1..] == [b, c] && [b, c][1..] == [c] && [c][1..] == [];
    assert Lines([c]) == c + "\n";
    assert Lines([b, c]) == b + "\n" + Lines([c]);
  }

  lemma Joined(a: string, n: string, e: string, b: string, m: string, d: string, c: string)
    ensures a + n + (e + b + m + (d + c + m)) + m == a + (n + e) + b + (m + d) + c + (m + m)
  {
  }

  lemma {:induction false} LinesConcat(a: seq<string>, b: seq<string>)
    ensures Lines(a + b) == Lines(a) + Lines(b)
  {
    if a == [] {
      assert a + b == b;
    } else {
      LinesConcat(a[1..], b);
      assert (a + b)[1..] == a[1..] + b;
      assert Lines(a + b) == a[0] + "\n" + (Lines(a[1..]) + Lines(b));
    }
  }

  // ------------------------------------------------------------------- parsing

  datatype Frame = Frame(id: string, event: string, data: string)

  const NO_FRAME := Frame("", "", "")

  predicate KeepaliveOnly(f: Frame) { f.id == "" && f.event == "" }

  /** How the reader fails once its bytes are used up: the plain end, or a broken connection. */
  datatype ReadError = EndOfFile | Broken(code: nat)

  datatype Block = Block(frame: Frame, keepalive: bool, rest: string)

  /** Where the first newline is, or the length. */
  function LineEnd(s: string): (n: nat)
    ensures n <= |s| && (n < |s| ==> s[n] == '\n') && '\n' !in s[..n]
  {
    if s == "" || s[0] == '\n' then 0 else 1 + LineEnd(s[1..])
  }

  function TrimRight(s: string): (r: string)
    ensures r <= s && (r != "" ==> r[|r| - 1] != '\r' && r[|r| - 1] != '\n')
  {
    if s != "" && (s[|s| - 1] == '\r' || s[|s| - 1] == '\n') then TrimRight(s[..|s| - 1]) else s
  }

  /** One content line: the last field of a kind wins, and a comment only counts as content. */
  function Field(line: string, f: Frame, saw: bool): (Frame, bool) {
    if "id: " <= line then (f.(id := line[4..]), true)
    else if "event: " <= line then (f.(event := line[7..]), true)
    else if "data: " <= line then (f.(data := line[6..]), true)
    else if ":" <= line then (f, true)
    else (f, saw)
  }

  /** parseSSEBlock on all that will ever be read; the end of the bytes is its read error. */
  function ParseFrom(s: string, f: Frame, saw: bool, end: ReadError): Result<Block, ReadError>
    decreases |s|
  {
    var n := LineEnd(s);
    if n == |s| then Err(end)
    else
      var line := TrimRight(s[..n + 1]);
      var rest := s[n + 1..];
      if line != "" then
        var (f', saw') := Field(line, f, saw);
        ParseFrom(rest, f', saw', end)
      else if saw then Ok(Block(f, KeepaliveOnly(f), rest))
      else ParseFrom(rest, f, saw, end)
  }

  function ParseBlock(s: string, end: ReadError): Result<Block, ReadError> { ParseFrom(s, NO_FRAME, false, end) }

  lemma {:induction false} ParseConsumes(s: string, f: Frame, saw: bool, end: ReadError)
    ensures ParseFrom(s, f, saw, end).Ok? ==> |ParseFrom(s, f, saw, end).value.rest| < |s|
    decreases |s|
  {
    var n := LineEnd(s);
    if n < |s| {
      var line := TrimRight(s[..n + 1]);
      var (f', saw') := Field(line, f, saw);
      if line != "" {
        ParseConsumes(s[n + 1..], f', saw', end);
      } else if !saw {
        ParseConsumes(s[n + 1..], f, saw, end);
      }
    }
  }

  /** Blocks until the first error: each an event frame, or None for a keepalive. */
  function ParseAll(s: string, end: ReadError): seq<Option<Frame>>
    decreases |s|
  {
    var r := ParseBlock(s, end);
    ParseConsumes(s, NO_FRAME, false, end);
    if r.Err? then []
    else [if r.value.keepalive then None else Some(r.value.frame)] + ParseAll(r.value.rest, end)
  }

  // ------------------------------------------------------------- the parser, in place

  class Reader {
    var rest: string
    const end: ReadError

    constructor (all: string, end: ReadError)
      ensures rest == all && this.end == end
    {
      rest, this.end := all, end;
    }

    /** bufio.Reader.ReadString('\n'): through the newline, or all that is left and the error. */
    method ReadString() returns (line: string, err: Option<ReadError>)
      modifies this`rest
      ensures err == if LineEnd(old(rest)) == |old(rest)| then Some(end) else None
      ensures err.Some? ==> line == old(rest) && rest == ""
      ensures err.None? ==> line == old(rest)[..LineEnd(old(rest)) + 1] && rest == old(rest)[LineEnd(old(rest)) + 1..]
    {
      var n := 0;
      while n < |rest| && rest[n] != '\n'
        invariant n <= |rest|
        invariant '\n' !in rest[..n]
      {
        n := n + 1;
      }
      LineEndIs(rest, n);
      if n == |rest| {
        line, rest, err := rest, "", Some(end);
      } else {
        line, rest, err := rest[..n + 1], rest[n + 1..], None;
      }
    }
  }

  lemma LineEndIs(s: string, n: nat)
    requires n <= |s| && '\n' !in s[..n] && (n < |s| ==> s[n] == '\n')
    ensures LineEnd(s) == n
  {
    var m := LineEnd(s);
    assert forall i :: 0 <= i < n ==> s[i] == s[..n][i] && s[..n][i] in s[..n];
    assert forall i :: 0 <= i < m ==> s[i] == s[..m][i] && s[..m][i] in s[..m];
  }

  lemma TrimUnended(s: string)
    requires '\n' !in s
    ensures TrimRight(s + "\n") == TrimRight(s)
  {
    assert (s + "\n")[..|s|] == s;
  }

  /** The parser's switch on one trimmed line. */
  method SwitchLine(trimmed: string, f: Frame, saw: bool) returns (frame: Frame, sawContent: bool)
    ensures (frame, sawContent) == Field(trimmed, f, saw)
  {
    frame, sawContent := f, saw;
    if "id: " <= trimmed {
      frame, sawContent := frame.(id := trimmed[4..]), true;
    } else if "event: " <= trimmed {
      frame, sawContent := frame.(event := trimmed[7..]), true;
    } else if "data: " <= trimmed {
      frame, sawContent := frame.(data := trimmed[6..]), true;
    } else if ":" <= trimmed {
      sawContent := true;
    }
  }

  method ParseSSEBlock(r: Reader) returns (result: Result<(Frame, bool), ReadError>)
    modifies r`rest
    ensures match ParseBlock(old(r.rest), r.end)
            case Ok(block) =>
              result == Ok((block.frame, block.keepalive)) && r.rest == block.rest && |r.rest| < |old(r.rest)|
            case Err(e) => result == Err(e) && r.rest == ""
  {
    ParseConsumes(r.rest, NO_FRAME, false, r.end);
    var frame := NO_FRAME;
    var sawContent := false;
    while true
      invariant ParseFrom(r.rest, frame, sawContent, r.end) == ParseBlock(old(r.rest), r.end)
      decreases |r.rest|
    {
      var line, readErr := r.ReadString();
      var hasNewline := |line| > 0 && line[|line| - 1] == '\n';
      var trimmed := TrimRight(line);
      if hasNewline && trimmed == "" {
        if !sawContent {
          // The source tests its read error here once more; a line that has its newline has none.
          continue;
        }
        return Ok((frame, KeepaliveOnly(frame)));
      }
      frame, sawContent := SwitchLine(trimmed, frame, sawContent);
      if readErr.Some? { return Err(readErr.value); }
    }
  }

  // ----------------------------------------------------------------- inversion

  /** A value that survives on a line of its own. */
  predicate Clean(v: string) { '\n' !in v && (v == "" || v[|v| - 1] != '\r') }

  /** A line the parser gives back as it was printed. */
  predicate CleanLine(l: string) { l != "" && Clean(l) }

  lemma TrimClean(l: string)
    requires Clean(l)
    ensures TrimRight(l) == l
  {
    if l != "" { assert l[|l| - 1] in l; }
  }

  lemma ParseLine(l: string, rest: string, f: Frame, saw: bool, end: ReadError)
    requires CleanLine(l)
    ensures ParseFrom(l + "\n" + rest, f, saw, end) == ParseFrom(rest, Field(l, f, saw).0, Field(l, f, saw).1, end)
  {
    var s := l + "\n" + rest;
    assert s[..|l|] == l && s[..|l| + 1] == l + "\n" && s[|l| + 1..] == rest;
    LineEndIs(s, |l|);
    TrimUnended(l);
    TrimClean(l);
  }

  lemma ParseBlank(rest: string, f: Frame, end: ReadError)
    ensures ParseFrom("\n" + rest, f, true, end) == Ok(Block(f, KeepaliveOnly(f), rest))
  {
    var s := "\n" + rest;
    assert s[..1] == "\n" && s[1..] == rest;
    LineEndIs(s, 0);
    assert TrimRight("\n") == "";
  }

  /** The fields of consecutive lines. */
  function Fields(ls: seq<string>, f: Frame, saw: bool): (Frame, bool) {
    if ls == [] then (f, saw)
    else
      var (f', saw') := Field(ls[0], f, saw);
      Fields(ls[1..], f', saw')
  }

  lemma {:induction false} ParseLines(ls: seq<string>, rest: string, f: Frame, saw: bool, end: ReadError)
    requires forall l :: l in ls ==> CleanLine(l)
    requires Fields(ls, f, saw).1
    ensures var g := Fields(ls, f, saw).0;
            ParseFrom(Lines(ls + [""]) + rest, f, saw, end) == Ok(Block(g, KeepaliveOnly(g), rest))
    decreases |ls|
  {
    if ls == [] {
      assert Lines([""]) == "\n" by { assert [""][1..] == []; }
      assert ls + [""] == [""];
      ParseBlank(rest, f, end);
    } else {
      var (f', saw') := Field(ls[0], f, saw);
      assert (ls + [""])[1..] == ls[1..] + [""];
      var tail := Lines(ls[1..] + [""]);
      assert ls[0] + "\n" + tail + rest == ls[0] + "\n" + (tail + rest);
      assert ls[0] in ls;
      ParseLine(ls[0], tail + rest, f, saw, end);
      ParseLines(ls[1..], rest, f', saw', end);
    }
  }

  /** What the parser should report for an item. */
  function Seen(item: Item): Option<Frame> {
    match item
    case Event(id, name, data) => Some(Frame(id, name, data))
    case Comment(_) => None
  }

  predicate Readable(item: Item) {
    match item
    case Event(id, name, data) => Clean(id) && Clean(name) && Clean(data) && !(id == "" && name == "")
    case Comment(text) => Clean(text)
  }

  lemma BodyFields(item: Item)
    ensures item.Event? ==>
              Fields(Body(item), NO_FRAME, false) == (Frame(item.id, item.name, item.data), true)
    ensures item.Comment? ==> Fields(Body(item), NO_FRAME, false) == (NO_FRAME, true)
  {
    var b := Body(item);
    if item.Event? {
      assert b[0][4..] == item.id && b[1][7..] == item.name && b[2][6..] == item.data;
      assert b[1][0] == 'e' && b[2][0] == 'd';
      var f1, f2 := Frame(item.id, "", ""), Frame(item.id, item.name, "");
      assert b[1..] == [b[1], b[2]] && [b[1], b[2]][1..] == [b[2]] && [b[2]][1..] == [];
      assert Fields([b[2]], f2, true) == (Frame(item.id, item.name, item.data), true);
      assert Fields([b[1], b[2]], f1, true) == Fields([b[2]], f2, true);
    } else {
      assert b[0][0] == ':' && b[1..] == [];
    }
  }

  lemma BodyClean(item: Item)
    requires item.Event? ==> Clean(item.id) && Clean(item.name) && Clean(item.data)
    requires item.Comment? ==> Clean(item.text)
    ensures forall l :: l in Body(item) ==> CleanLine(l)
  {
  }

  lemma ParseItem(item: Item, rest: string, end: ReadError)
    requires Readable(item)
    ensures ParseBlock(Print(item) + rest, end)
         == Ok(Block(if item.Event? then Frame(item.id, item.name, item.data) else NO_FRAME, item.Comment?, rest))
  {
    BodyClean(item);
    BodyFields(item);
    ParseLines(Body(item), rest, NO_FRAME, false, end);
  }

  predicate CleanFrame(f: Frame) { Clean(f.id) && Clean(f.event) && Clean(f.data) }

  lemma CleanTail(v: string, n: nat)
    requires n <= |v| && Clean(v)
    ensures Clean(v[n..])
  {
  }

  lemma FieldClean(line: string, f: Frame, saw: bool)
    requires Clean(line) && CleanFrame(f)
    ensures CleanFrame(Field(line, f, saw).0)
  {
    if "id: " <= line {
      CleanTail(line, 4);
    } else if "event: " <= line {
      CleanTail(line, 7);
    } else if "data: " <= line {
      CleanTail(line, 6);
    }
  }

  lemma FirstLineClean(s: string)
    requires LineEnd(s) < |s|
    ensures Clean(TrimRight(s[..LineEnd(s) + 1]))
  {
    var n := LineEnd(s);
    var line := TrimRight(s[..n + 1]);
    assert line == s[..|line|];
    assert line != "" ==> line[|line| - 1] == s[|line| - 1];
    assert line <= s[..n];
  }

  /** Whatever bytes it reads, the parser returns only clean fields. */
  lemma {:induction false} ParsedIsClean(s: string, f: Frame, saw: bool, end: ReadError)
    requires CleanFrame(f)
    ensures ParseFrom(s, f, saw, end).Ok? ==> CleanFrame(ParseFrom(s, f, saw, end).value.frame)
    ensures ParseFrom(s, f, saw, end).Ok? ==>
              ParseFrom(s, f, saw, end).value.keepalive == KeepaliveOnly(ParseFrom(s, f, saw, end).value.frame)
    decreases |s|
  {
    var n := LineEnd(s);
    if n < |s| {
      FirstLineClean(s);
      var line := TrimRight(s[..n + 1]);
      var (f', saw') := Field(line, f, saw);
      FieldClean(line, f, saw);
      if line != "" {
        ParsedIsClean(s[n + 1..], f', saw', end);
      } else if !saw {
        ParsedIsClean(s[n + 1..], f, saw, end);
      }
    }
  }

  /** The parser has no error of its own: it fails with the reader's, whatever the bytes. */
  lemma {:induction false} ErrorIsReaders(s: string, f: Frame, saw: bool, end: ReadError)
    ensures ParseFrom(s, f, saw, end).Err? ==> ParseFrom(s, f, saw, end).error == end
    decreases |s|
  {
    var n := LineEnd(s);
    if n < |s| {
      var line := TrimRight(s[..n + 1]);
      var (f', saw') := Field(line, f, saw);
      if line != "" {
        ErrorIsReaders(s[n + 1..], f', saw', end);
      } else if !saw {
        ErrorIsReaders(s[n + 1..], f, saw, end);
      }
    }
  }

  /**
   * Exactly which events come back: an event is parsed to itself, consuming its own bytes, if and
   * only if no field has a newline or ends in a carriage return and the id and name are not both
   * empty.
   */
  lemma EventRoundTripIff(id: string, name: string, data: string, rest: string, end: ReadError)
    ensures ParseBlock(Print(Event(id, name, data)) + rest, end) == Ok(Block(Frame(id, name, data), false, rest))
       <==> Readable(Event(id, name, data))
  {
    if Readable(Event(id, name, data)) {
      ParseItem(Event(id, name, data), rest, end);
    } else {
      ParsedIsClean(Print(Event(id, name, data)) + rest, NO_FRAME, false, end);
    }
  }

  function SeenAll(items: seq<Item>): seq<Option<Frame>> {
    if items == [] then [] else [Seen(items[0])] + SeenAll(items[1..])
  }

  lemma {:induction false} SeenEach(items: seq<Item>)
    ensures |SeenAll(items)| == |items|
    ensures forall i :: 0 <= i < |items| ==> SeenAll(items)[i] == Seen(items[i])
  {
    if items != [] {
      SeenEach(items[1..]);
      forall i | 0 <= i < |items|
        ensures SeenAll(items)[i] == Seen(items[i])
      {
        if i > 0 { assert items[i] == items[1..][i - 1]; }
      }
    }
  }

  // ---------------------------------------------------------------------- cuts

  lemma NoLineNoBlock(s: string, f: Frame, saw: bool, end: ReadError)
    requires '\n' !in s
    ensures ParseFrom(s, f, saw, end).Err?
  {
    assert s[..|s|] == s;
    LineEndIs(s, |s|);
  }

  lemma {:induction false} CutLines(ls: seq<string>, k: nat, f: Frame, saw: bool, end: ReadError)
    requires forall l :: l in ls ==> CleanLine(l)
    requires k < |Lines(ls + [""])|
    ensures ParseFrom(Lines(ls + [""])[..k], f, saw, end).Err?
    decreases |ls|
  {
    if ls == [] {
      assert ls + [""] == [""];
      assert [""][1..] == [];
      assert Lines([""]) == "\n";
      NoLineNoBlock(Lines(ls + [""])[..k], f, saw, end);
    } else {
      assert (ls + [""])[1..] == ls[1..] + [""];
      var tail := Lines(ls[1..] + [""]);
      var all := Lines(ls + [""]);
      assert all == ls[0] + "\n" + tail;
      assert ls[0] in ls;
      if k <= |ls[0]| {
        assert all[..k] == ls[0][..k];
        NoLineNoBlock(all[..k], f, saw, end);
      } else {
        var j := k - |ls[0]| - 1;
        assert all[..k] == ls[0] + "\n" + tail[..j];
        ParseLine(ls[0], tail[..j], f, saw, end);
        CutLines(ls[1..], j, Field(ls[0], f, saw).0, Field(ls[0], f, saw).1, end);
      }
    }
  }

  /** A stream that ends inside a frame reports an error there, never part of the frame. */
  lemma CutItem(item: Item, k: nat, end: ReadError)
    requires Readable(item) && k < |Print(item)|
    ensures ParseBlock(Print(item)[..k], end).Err?
  {
    BodyClean(item);
    CutLines(Body(item), k, NO_FRAME, false, end);
  }

  /**
   * A caller cannot tell a stream that ended between frames from one that ended inside a frame by
   * what the parser returns, unless the reader itself failed differently.
   */
  lemma EndsToldApartIff(item: Item, k: nat, clean: ReadError, cut: ReadError)
    requires Readable(item) && k < |Print(item)|
    ensures ParseBlock("", clean) == Err(clean) && ParseBlock(Print(item)[..k], cut) == Err(cut)
    ensures ParseBlock("", clean) != ParseBlock(Print(item)[..k], cut) <==> clean != cut
  {
    NoLineNoBlock("", NO_FRAME, false, clean);
    CutItem(item, k, cut);
    ErrorIsReaders("", NO_FRAME, false, clean);
    ErrorIsReaders(Print(item)[..k], NO_FRAME, false, cut);
  }

  /** The items that fit entirely into the first k characters. */
  function Complete(items: seq<Item>, k: nat): seq<Item> {
    if items == [] || k < |Print(items[0])| then []
    else [items[0]] + Complete(items[1..], k - |Print(items[0])|)
  }

  lemma ParseAllStep(item: Item, rest: string, end: ReadError)
    requires Readable(item)
    ensures ParseAll(Print(item) + rest, end) == [Seen(item)] + ParseAll(rest, end)
  {
    ParseItem(item, rest, end);
  }

  lemma CompleteStep(items: seq<Item>, k: nat)
    requires items != [] && k >= |Print(items[0])|
    ensures SeenAll(Complete(items, k)) == [Seen(items[0])] + SeenAll(Complete(items[1..], k - |Print(items[0])|))
  {
    var fit := Complete(items[1..], k - |Print(items[0])|);
    assert ([items[0]] + fit)[1..] == fit;
  }

  lemma TakeConcat(a: string, b: string, k: nat)
    requires k <= |a| + |b|
    ensures (a + b)[..k] == if k < |a| then a[..k] else a + b[..k - |a|]
  {
  }

  lemma ParseAllStuck(s: string, end: ReadError)
    requires s == "" || ParseBlock(s, end).Err?
    ensures ParseAll(s, end) == []
  {
    if s == "" { NoLineNoBlock(s, NO_FRAME, false, end); }
  }

  lemma CutInFirst(items: seq<Item>, k: nat, end: ReadError)
    requires items != [] && Readable(items[0]) && k < |Print(items[0])|
    ensures k <= |PrintAll(items)| && ParseAll(PrintAll(items)[..k], end) == []
  {
    TakeConcat(Print(items[0]), PrintAll(items[1..]), k);
    CutItem(items[0], k, end);
    ParseAllStuck(Print(items[0])[..k], end);
  }

  lemma CutAfterFirst(items: seq<Item>, k: nat, end: ReadError)
    requires items != [] && Readable(items[0]) && |Print(items[0])| <= k <= |PrintAll(items)|
    ensures
      var rest := PrintAll(items[1..])[..k - |Print(items[0])|];
      ParseAll(PrintAll(items)[..k], end) == [Seen(items[0])] + ParseAll(rest, end)
  {
    TakeConcat(Print(items[0]), PrintAll(items[1..]), k);
    ParseAllStep(items[0], PrintAll(items[1..])[..k - |Print(items[0])|], end);
  }

  /**
   * The stream cut anywhere, the end included: exactly the complete items come back, in order and
   * unchanged, comments as keepalives, and nothing of the one that was cut.
   */
  lemma {:induction false} CutAnywhere(items: seq<Item>, k: nat, end: ReadError)
    requires forall i :: 0 <= i < |items| ==> Readable(items[i])
    requires k <= |PrintAll(items)|
    ensures ParseAll(PrintAll(items)[..k], end) == SeenAll(Complete(items, k))
    decreases |items|
  {
    if items == [] {
      ParseAllStuck("", end);
    } else if k < |Print(items[0])| {
      CutInFirst(items, k, end);
    } else {
      CutAfterFirst(items, k, end);
      CutAnywhere(items[1..], k - |Print(items[0])|, end);
      CompleteStep(items, k);
    }
  }

  /** Parsing inverts printing, for any sequence of events and comments. */
  lemma {:induction false} RoundTrip(items: seq<Item>, end: ReadError)
    requires forall i :: 0 <= i < |items| ==> Readable(items[i])
    ensures ParseAll(PrintAll(items), end) == SeenAll(items)
  {
    var all := PrintAll(items);
    assert all[..|all|] == all;
    CompleteAll(items);
    CutAnywhere(items, |all|, end);
  }

  lemma {:induction false} CompleteAll(items: seq<Item>)
    ensures Complete(items, |PrintAll(items)|) == items
  {
    if items != [] { CompleteAll(items[1..]); }
  }

  // ----------------------------------------------------------------- the writer

  /** How the transport fails a call; `Torn(n)` lets n characters of the frame through. */
  datatype Fault = NoFault | Deadline | HeaderFlush | Torn(n: nat) | FrameFlush

  /** `heads` counts WriteHeader calls and `wire` is everything written after them. */
  class SseWriter {
    var started: bool
    var heads: nat
    var wire: string

    ghost predicate Valid()
      reads this
    {
      heads == (if started then 1 else 0) && (!started ==> wire == "")
    }

    constructor ()
      ensures Valid() && !started && wire == ""
    {
      started, heads, wire := false, 0, "";
    }

    method StartLocked(fault: Fault) returns (ok: bool)
      requires Valid() && !started
      modifies this
      ensures Valid() && wire == "" && started == (fault != Deadline)
      ensures ok <==> fault != Deadline && fault != HeaderFlush
    {
      if fault == Deadline { return false; }
      heads, started := heads + 1, true;
      ok := fault != HeaderFlush;
    }

    /** The headers go out once, before the first frame; a frame that is reported sent is whole. */
    method Write(item: Item, encoded: bool, fault: Fault) returns (ok: bool)
      requires Valid() && (item.Comment? ==> encoded)
      modifies this
      ensures Valid() && (old(started) ==> started)
      ensures old(wire) <= wire <= old(wire) + Print(item)
      ensures ok ==> started && wire == old(wire) + Print(item)
      ensures !encoded ==> !ok && wire == old(wire)
      ensures ok <==> encoded && (fault == NoFault || (old(started) && (fault == Deadline || fault == HeaderFlush)))
    {
      if !started {
        ok := StartLocked(fault);
        if !ok { return; }
      }
      if !encoded { return false; }
      match fault {
        case Torn(n) =>
          var out := if n < |Print(item)| then Print(item)[..n] else Print(item);
          wire := wire + out;
          ok := false;
        case FrameFlush =>
          wire := wire + Print(item);
          ok := false;
        case _ =>
          wire := wire + Print(item);
          ok := true;
      }
    }
  }
}
