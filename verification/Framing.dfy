/**
 * The multiplexed frames of a non-TTY log stream: an 8-byte header, then the
 * payload (internal/dockerx/framing.go).
 */
module Framing {
  import opened Prelude
  import opened LogLines

  const HEADER_LEN := 8
  const MAX_PAYLOAD := 0x10_0000

  datatype Frame = Frame(stream: Stream, payload: seq<byte>)

  datatype FrameError =
    | EndOfStream                 // io.EOF, at a frame boundary
    | CutShort                    // io.ErrUnexpectedEOF
    | UnknownStream(kind: byte)
    | Oversized(size: nat)
    | ReadFault                   // the underlying reader failed

  // ----------------------------------------------------------------- encoding

  function StreamByte(stream: Stream): byte {
    match stream case Stdout => 1 case Stderr => 2
  }

  /** Big-endian, as in binary.BigEndian.Uint32. */
  function DecodeSize(b: seq<byte>): nat
    requires |b| == 4
  {
    b[0] as int * 0x100_0000 + b[1] as int * 0x1_0000 + b[2] as int * 0x100 + b[3] as int
  }

  function EncodeSize(n: nat): (b: seq<byte>)
    requires n < 0x1_0000_0000
    ensures |b| == 4 && DecodeSize(b) == n
  {
    var upper := n / 0x100;
    var top := upper / 0x100;
    [top / 0x100, top % 0x100, upper % 0x100, n % 0x100]
  }

  predicate Encodable(f: Frame) { |f.payload| <= MAX_PAYLOAD }

  function Header(f: Frame): (h: seq<byte>)
    requires Encodable(f)
    ensures |h| == HEADER_LEN
  {
    [StreamByte(f.stream), 0, 0, 0] + EncodeSize(|f.payload|)
  }

  function Encode(f: Frame): (b: seq<byte>)
    requires Encodable(f)
    ensures |b| == HEADER_LEN + |f.payload|
  {
    Header(f) + f.payload
  }

  predicate AllEncodable(fs: seq<Frame>) { forall i :: 0 <= i < |fs| ==> Encodable(fs[i]) }

  function EncodeAll(fs: seq<Frame>): seq<byte>
    requires AllEncodable(fs)
  {
    if fs == [] then [] else Encode(fs[0]) + EncodeAll(fs[1..])
  }

  // ----------------------------------------------------------------- decoding

  /** How a stream with too few bytes left ends: `fault` tells a failing reader from an ended one. */
  function ShortRead(have: nat, fault: bool): FrameError {
    if fault then ReadFault else if have == 0 then EndOfStream else CutShort
  }

  /** readFrame, on the bytes the reader still holds. */
  function ParseFrame(data: seq<byte>, fault: bool): (res: Result<Frame, FrameError>)
    ensures res.Ok? ==> |data| >= HEADER_LEN + |res.value.payload| && Encodable(res.value)
  {
    if |data| < HEADER_LEN then Err(ShortRead(|data|, fault))
    else if data[0] != 1 && data[0] != 2 then Err(UnknownStream(data[0]))
    else
      var size := DecodeSize(data[4..8]);
      if size > MAX_PAYLOAD then Err(Oversized(size))
      else if |data| - HEADER_LEN < size then Err(if fault then ReadFault else CutShort)
      else Ok(Frame(if data[0] == 1 then Stdout else Stderr, data[HEADER_LEN..HEADER_LEN + size]))
  }

  /** Every frame of `data` up to the first error, and that error. */
  function ParseAll(data: seq<byte>, fault: bool): (seq<Frame>, FrameError)
    decreases |data|
  {
    match ParseFrame(data, fault)
    case Err(e) => ([], e)
    case Ok(f) =>
      var (fs, e) := ParseAll(data[HEADER_LEN + |f.payload|..], fault);
      ([f] + fs, e)
  }

  /** A whole frame is read back whatever follows it. */
  lemma ParseEncoded(f: Frame, rest: seq<byte>, fault: bool)
    requires Encodable(f)
    ensures ParseFrame(Encode(f) + rest, fault) == Ok(f)
    ensures (Encode(f) + rest)[HEADER_LEN + |f.payload|..] == rest
  {
    var data := Encode(f) + rest;
    assert data[..HEADER_LEN] == Header(f);
    assert data[4..8] == data[..HEADER_LEN][4..8] == EncodeSize(|f.payload|);
    assert data[0] == data[..HEADER_LEN][0] == StreamByte(f.stream);
    assert data[HEADER_LEN..HEADER_LEN + |f.payload|] == f.payload;
  }

  lemma ParseNext(f: Frame, rest: seq<byte>, fault: bool)
    requires Encodable(f)
    ensures ParseAll(Encode(f) + rest, fault) == ([f] + ParseAll(rest, fault).0, ParseAll(rest, fault).1)
  {
    ParseEncoded(f, rest, fault);
  }

  /**
   * The Engine's header on the wire: the first byte is 1 for stdout and 2 for stderr and nothing
   * else, the next three are ignored, the last four are the payload's size, most significant byte
   * first, and a size above one mebibyte is refused before any payload is read.
   */
  lemma HeaderMeans(header: seq<byte>, payload: seq<byte>, rest: seq<byte>, size: nat, fault: bool)
    requires |header| == 8
    requires size == ((header[4] as int * 256 + header[5] as int) * 256 + header[6] as int) * 256 + header[7] as int
    ensures
      var res := ParseFrame(header + payload + rest, fault);
      && (header[0] != 1 && header[0] != 2 ==> res == Err(UnknownStream(header[0])))
      && (header[0] == 1 || header[0] == 2 ==>
            && (size > 1048576 ==> res == Err(Oversized(size)))
            && (size <= 1048576 && |payload| == size ==>
                  res == Ok(Frame(if header[0] == 1 then Stdout else Stderr, payload))))
  {
    var data := header + payload + rest;
    assert data[4..8] == header[4..8];
    assert data[0] == header[0];
    if |payload| == size { assert data[8..8 + size] == payload; }
  }

  /** Decoding inverts encoding, and goes on with whatever follows the frames. */
  lemma {:induction false} ParseInvertsEncode(fs: seq<Frame>, rest: seq<byte>, fault: bool)
    requires AllEncodable(fs)
    ensures ParseAll(EncodeAll(fs) + rest, fault).0 == fs + ParseAll(rest, fault).0
    ensures ParseAll(EncodeAll(fs) + rest, fault).1 == ParseAll(rest, fault).1
    decreases |fs|
  {
    var (after, end) := ParseAll(rest, fault);
    if fs == [] {
      assert EncodeAll(fs) + rest == rest && [] + after == after;
    } else {
      var first, more := Encode(fs[0]), EncodeAll(fs[1..]);
      Associate(first, more, rest);
      ParseInvertsEncode(fs[1..], rest, fault);
      ParseNext(fs[0], more + rest, fault);
      assert fs == [fs[0]] + fs[1..];
      Associate([fs[0]], fs[1..], after);
    }
  }

  /** The concatenation of any frames decodes to exactly those frames and ends cleanly. */
  lemma FramesRoundTrip(fs: seq<Frame>)
    requires AllEncodable(fs)
    ensures ParseAll(EncodeAll(fs), false) == (fs, EndOfStream)
  {
    ParseInvertsEncode(fs, [], false);
    assert EncodeAll(fs) + [] == EncodeAll(fs) && fs + [] == fs;
    assert ParseAll([], false) == ([], EndOfStream);
  }

  /** A frame cut anywhere inside is an unexpected end of stream. */
  lemma CutFrame(f: Frame, k: nat)
    requires Encodable(f) && 0 < k < |Encode(f)|
    ensures ParseFrame(Encode(f)[..k], false) == Err(CutShort)
  {
    var data := Encode(f)[..k];
    if k >= HEADER_LEN {
      assert data[..HEADER_LEN] == Header(f);
      assert data[4..8] == data[..HEADER_LEN][4..8] == EncodeSize(|f.payload|);
      assert data[0] == data[..HEADER_LEN][0] == StreamByte(f.stream);
    }
  }

  lemma CutFirst(f: Frame, k: nat)
    requires Encodable(f) && k < |Encode(f)|
    ensures ParseAll(Encode(f)[..k], false) == ([], if k == 0 then EndOfStream else CutShort)
  {
    if k > 0 { CutFrame(f, k); }
  }

  /** How many frames lie wholly within the first k bytes. */
  function Complete(fs: seq<Frame>, k: nat): (m: nat)
    requires AllEncodable(fs)
    ensures m <= |fs|
    decreases |fs|
  {
    if fs == [] || k < |Encode(fs[0])| then 0 else 1 + Complete(fs[1..], k - |Encode(fs[0])|)
  }

  /** k is where one frame ends and the next begins. */
  predicate Boundary(fs: seq<Frame>, k: nat)
    requires AllEncodable(fs)
    decreases |fs|
  {
    k == 0 || (fs != [] && k >= |Encode(fs[0])| && Boundary(fs[1..], k - |Encode(fs[0])|))
  }

  lemma TakeBeyond(first: seq<byte>, more: seq<byte>, k: nat)
    requires |first| <= k <= |first| + |more|
    ensures (first + more)[..k] == first + more[..k - |first|]
  {
  }

  lemma CountOneMore(fs: seq<Frame>, k: nat)
    requires AllEncodable(fs) && fs != [] && k >= |Encode(fs[0])|
    ensures Complete(fs, k) == 1 + Complete(fs[1..], k - |Encode(fs[0])|)
    ensures Boundary(fs, k) == Boundary(fs[1..], k - |Encode(fs[0])|)
  {
    assert |Encode(fs[0])| >= HEADER_LEN;
  }

  lemma TakeOneMore(fs: seq<Frame>, n: nat)
    requires n + 1 <= |fs|
    ensures fs[..n + 1] == [fs[0]] + fs[1..][..n]
  {
  }

  /** What a cut at k should give: the complete frames, and how the rest ends. */
  function AtCut(fs: seq<Frame>, k: nat): (seq<Frame>, FrameError)
    requires AllEncodable(fs)
  {
    (fs[..Complete(fs, k)], if Boundary(fs, k) then EndOfStream else CutShort)
  }

  lemma AtCutInFirst(fs: seq<Frame>, k: nat)
    requires AllEncodable(fs) && fs != [] && k < |Encode(fs[0])|
    ensures AtCut(fs, k) == ([], if k == 0 then EndOfStream else CutShort)
  {
  }

  lemma AtCutLater(fs: seq<Frame>, k: nat)
    requires AllEncodable(fs) && fs != [] && k >= |Encode(fs[0])|
    ensures var (rest, end) := AtCut(fs[1..], k - |Encode(fs[0])|);
            AtCut(fs, k) == ([fs[0]] + rest, end)
  {
    CountOneMore(fs, k);
    TakeOneMore(fs, Complete(fs[1..], k - |Encode(fs[0])|));
  }

  lemma {:induction false} ParseCut(fs: seq<Frame>, k: nat)
    requires AllEncodable(fs) && k <= |EncodeAll(fs)|
    ensures ParseAll(EncodeAll(fs)[..k], false) == AtCut(fs, k)
    decreases |fs|
  {
    if fs == [] {
      assert EncodeAll(fs)[..k] == [];
      ParseNothing();
    } else {
      var first, more := Encode(fs[0]), EncodeAll(fs[1..]);
      if k < |first| {
        assert EncodeAll(fs)[..k] == first[..k];
        CutFirst(fs[0], k);
        AtCutInFirst(fs, k);
      } else {
        TakeBeyond(first, more, k);
        ParseCut(fs[1..], k - |first|);
        ParseNext(fs[0], more[..k - |first|], false);
        AtCutLater(fs, k);
      }
    }
  }

  lemma ParseNothing()
    ensures ParseAll([], false) == ([], EndOfStream)
  {
  }

  /**
   * Cut the bytes anywhere: exactly the complete frames come out, and the end
   * is clean if and only if the cut is a frame boundary.
   */
  lemma CutAnywhere(fs: seq<Frame>, k: nat)
    requires AllEncodable(fs) && k <= |EncodeAll(fs)|
    ensures ParseAll(EncodeAll(fs)[..k], false)
            == (fs[..Complete(fs, k)], if Boundary(fs, k) then EndOfStream else CutShort)
  {
    ParseCut(fs, k);
  }
}
