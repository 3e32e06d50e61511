/**
 The Python SDK's WebSocket client, framed as in sections 5.2 and 5.3 of RFC 6455: the header forms,
 masking, and a decoder that reads any chunking of the byte stream.
 */
module WsCodec {
  import opened Prelude

  /** A byte as a number: a mask bit is a comparison with 128, a low nibble a remainder by 16. */
  type byte = b: int | 0 <= b < 256
  type bytes = seq<byte>

  /** Bitwise exclusive or of the low `k` bits. */
  function XorBits(a: nat, b: nat, k: nat): (r: nat)
    ensures r < Pow2(k)
  {
    if k == 0 then 0 else (if a % 2 != b % 2 then 1 else 0) + 2 * XorBits(a / 2, b / 2, k - 1)
  }

  function Pow2(k: nat): (r: nat)
    ensures r >= 1
  {
    if k == 0 then 1 else 2 * Pow2(k - 1)
  }

  function Xor(a: byte, b: byte): byte {
    assert Pow2(8) == 256 by { assert Pow2(4) == 16; }
    XorBits(a, b, 8)
  }

  lemma {:induction false} XorBitsTwice(a: nat, b: nat, k: nat)
    requires a < Pow2(k)
    ensures XorBits(XorBits(a, b, k), b, k) == a
  {
    if k > 0 {
      var bit := if a % 2 != b % 2 then 1 else 0;
      var q := XorBits(a / 2, b / 2, k - 1);
      HalfOf(q, bit);
      XorBitsTwice(a / 2, b / 2, k - 1);
    }
  }

  lemma HalfOf(q: nat, bit: nat)
    requires bit < 2
    ensures (bit + 2 * q) / 2 == q && (bit + 2 * q) % 2 == bit
  {}

  lemma XorTwice(a: byte, k: byte)
    ensures Xor(Xor(a, k), k) == a
  {
    assert Pow2(8) == 256 by { assert Pow2(4) == 16; }
    XorBitsTwice(a, k, 8);
  }

  // ---------------------------------------------------------------- big-endian numbers

  function Pow256(k: nat): (r: int)
    ensures r >= 1
  {
    if k == 0 then 1 else 256 * Pow256(k - 1)
  }

  function BigEndian(n: nat, k: nat): bytes {
    if k == 0 then [] else BigEndian(n / 256, k - 1) + [n % 256]
  }

  function Number(s: bytes): nat
    decreases |s|
  {
    if s == [] then 0 else Number(s[..|s| - 1]) * 256 + s[|s| - 1]
  }

  lemma {:induction false} BigEndianReads(n: nat, k: nat)
    requires n < Pow256(k)
    ensures |BigEndian(n, k)| == k && Number(BigEndian(n, k)) == n
  {
    if k > 0 {
      BigEndianReads(n / 256, k - 1);
      var front := BigEndian(n / 256, k - 1);
      NumberAppend(front, n % 256);
    }
  }

  lemma NumberAppend(s: bytes, b: byte)
    ensures Number(s + [b]) == Number(s) * 256 + b
  {
    assert (s + [b])[..|s|] == s;
  }

  lemma {:induction false} NumberBounded(s: bytes)
    ensures Number(s) < Pow256(|s|)
    decreases |s|
  {
    if s != [] { NumberBounded(s[..|s| - 1]); }
  }

  // ---------------------------------------------------------------- frames on the wire

  datatype Form = Short | Medium | Long

  /** A frame as some sender puts it: the first byte, the length form, the mask, if any, and the payload. */
  datatype Frame = Frame(first: byte, form: Form, key: Option<bytes>, payload: bytes)

  function Capacity(form: Form): int {
    match form case Short => 126 case Medium => 0x1_0000 case Long => 0x1_0000_0000_0000_0000
  }

  predicate Legal(f: Frame) {
    |f.payload| < Capacity(f.form) && (f.key.Some? ==> |f.key.value| == 4)
  }

  /** The length byte, with the mask bit, and the extended length. */
  function Lengths(masked: bool, form: Form, n: nat): bytes
    requires n < Capacity(form)
  {
    var bit: byte := if masked then 0x80 else 0;
    match form
    case Short => [bit + n]
    case Medium => [bit + 126] + BigEndian(n, 2)
    case Long => [bit + 127] + BigEndian(n, 8)
  }

  function Masked(payload: bytes, key: bytes): bytes
    requires |key| == 4
  {
    seq(|payload|, i requires 0 <= i < |payload| => Xor(payload[i], key[i % 4]))
  }

  function Wire(f: Frame): bytes
    requires Legal(f)
  {
    [f.first] + Lengths(f.key.Some?, f.form, |f.payload|)
    + (if f.key.Some? then f.key.value + Masked(f.payload, f.key.value) else f.payload)
  }

  /** What a frame carries: its opcode and its payload. */
  datatype Item = Item(op: byte, payload: bytes)

  function Carries(f: Frame): Item {
    Item(f.first % 16, f.payload)
  }

  // ---------------------------------------------------------------- decoding

  datatype Header = Header(masked: bool, length: nat, offset: nat)

  /** The header at the front of the buffer, once enough of it is there. */
  function ReadHeader(buf: bytes): Option<Header> {
    if |buf| < 2 then None
    else
      var masked := buf[1] >= 0x80;
      var short := buf[1] % 0x80;
      if short == 126 then
        if |buf| < 4 then None else Some(Header(masked, Number(buf[2..4]), 4))
      else if short == 127 then
        if |buf| < 10 then None else Some(Header(masked, Number(buf[2..10]), 10))
      else Some(Header(masked, short, 2))
  }

  function BodyStart(h: Header): nat {
    h.offset + if h.masked then 4 else 0
  }

  /** The first whole frame of the buffer and what follows it. */
  function Decode(buf: bytes): Option<(Item, bytes)> {
    var h := ReadHeader(buf);
    if h.None? || |buf| < BodyStart(h.value) + h.value.length then None
    else
      var start, end := BodyStart(h.value), BodyStart(h.value) + h.value.length;
      var body := buf[start..end];
      Some((Item(buf[0] % 16, if h.value.masked then Masked(body, buf[h.value.offset..h.value.offset + 4]) else body),
            buf[end..]))
  }

  lemma DecodeShrinks(buf: bytes)
    ensures Decode(buf).Some? ==> |Decode(buf).value.1| < |buf|
  {}

  /** Every whole frame of the buffer, and the incomplete rest. */
  function Drain(buf: bytes): (seq<Item>, bytes)
    decreases |buf|
  {
    var d := Decode(buf);
    if d.None? then ([], buf)
    else
      DecodeShrinks(buf);
      var (items, rest) := Drain(d.value.1);
      ([d.value.0] + items, rest)
  }

  // ---------------------------------------------------------------- round trip

  lemma MaskTwice(payload: bytes, key: bytes)
    requires |key| == 4
    ensures Masked(Masked(payload, key), key) == payload
  {
    var once := Masked(payload, key);
    forall i | 0 <= i < |payload| ensures Masked(once, key)[i] == payload[i] {
      XorTwice(payload[i], key[i % 4]);
    }
  }

  lemma {:induction false} HeaderReads(first: byte, masked: bool, form: Form, n: nat, tail: bytes)
    requires n < Capacity(form)
    ensures var l := Lengths(masked, form, n);
      ReadHeader([first] + l + tail) == Some(Header(masked, n, 1 + |l|))
  {
    var l := Lengths(masked, form, n);
    var buf := [first] + l + tail;
    match form
    case Short =>
    case Medium =>
      assert Pow256(2) == 0x1_0000 by { assert Pow256(1) == 256; }
      BigEndianReads(n, 2);
      assert buf[2..4] == BigEndian(n, 2);
    case Long =>
      Pow256Eight();
      BigEndianReads(n, 8);
      assert buf[2..10] == BigEndian(n, 8);
  }

  lemma Pow256Eight()
    ensures Pow256(8) == 0x1_0000_0000_0000_0000
  {
    assert Pow256(2) == 0x1_0000 by { assert Pow256(1) == 256; }
    assert Pow256(4) == 0x1_0000_0000 by { assert Pow256(3) == 0x100_0000; }
    assert Pow256(6) == 0x1_0000_0000_0000 by { assert Pow256(5) == 0x100_0000_0000; }
  }

  lemma Pieces(head: bytes, key: bytes, body: bytes, tail: bytes)
    ensures var buf := head + (key + body + tail);
      && buf[|head|..|head| + |key|] == key
      && buf[|head| + |key|..|head| + |key| + |body|] == body
      && buf[|head| + |key| + |body|..] == tail
      && |buf| == |head| + |key| + |body| + |tail|
      && (head != [] ==> buf[0] == head[0])
  {}

  /** Decoding a buffer that starts with a known header. */
  lemma DecodeAfterHeader(head: bytes, key: bytes, body: bytes, tail: bytes)
    requires head != [] && (key == [] || |key| == 4)
    requires ReadHeader(head + (key + body + tail)) == Some(Header(key != [], |body|, |head|))
    ensures Decode(head + (key + body + tail)) == Some((Item(head[0] % 16, if key == [] then body else Masked(body, key)), tail))
  {
    hide ReadHeader, Masked;
    Pieces(head, key, body, tail);
  }

  /** One frame, in any of the three length forms, masked or not, decodes to what it carries and
      leaves what follows it. */
  lemma FrameDecodes(f: Frame, tail: bytes)
    requires Legal(f)
    ensures Decode(Wire(f) + tail) == Some((Carries(f), tail))
  {
    hide Decode, ReadHeader, Lengths, Masked;
    var head := [f.first] + Lengths(f.key.Some?, f.form, |f.payload|);
    var key := if f.key.Some? then f.key.value else [];
    var body := if f.key.Some? then Masked(f.payload, key) else f.payload;
    MaskKeepsLength(f);
    var after := key + body + tail;
    HeaderReads(f.first, f.key.Some?, f.form, |f.payload|, after);
    assert head + after == [f.first] + Lengths(f.key.Some?, f.form, |f.payload|) + after;
    DecodeAfterHeader(head, key, body, tail);
    WireIsPieces(f, tail);
    if f.key.Some? { MaskTwice(f.payload, key); }
  }

  lemma MaskKeepsLength(f: Frame)
    requires Legal(f)
    ensures f.key.Some? ==> |Masked(f.payload, f.key.value)| == |f.payload|
  {}

  lemma WireIsPieces(f: Frame, tail: bytes)
    requires Legal(f)
    ensures var head := [f.first] + Lengths(f.key.Some?, f.form, |f.payload|);
      Wire(f) + tail == head + ((if f.key.Some? then f.key.value else [])
                                + (if f.key.Some? then Masked(f.payload, f.key.value) else f.payload) + tail)
  {
    hide Lengths, Masked;
  }

  function WireAll(fs: seq<Frame>): bytes
    requires forall f <- fs :: Legal(f)
    decreases |fs|
  {
    if fs == [] then [] else Wire(fs[0]) + WireAll(fs[1..])
  }

  function CarriesAll(fs: seq<Frame>): seq<Item>
    decreases |fs|
  {
    if fs == [] then [] else [Carries(fs[0])] + CarriesAll(fs[1..])
  }

  lemma SliceOfPrefix(a: bytes, b: bytes, i: nat, j: nat)
    requires i <= j <= |a|
    ensures (a + b)[i..j] == a[i..j] && (a + b)[j..] == a[j..] + b
  {}

  lemma HeaderExtends(a: bytes, b: bytes)
    requires ReadHeader(a).Some?
    ensures ReadHeader(a + b) == ReadHeader(a) && a[0] == (a + b)[0]
    ensures var h := ReadHeader(a).value; h.offset <= |a|
  {
    hide Number;
    if |a| >= 4 { SliceOfPrefix(a, b, 2, 4); }
    if |a| >= 10 { SliceOfPrefix(a, b, 2, 10); }
  }

  /** More bytes never change a frame already decoded. */
  lemma DecodeExtends(a: bytes, b: bytes)
    requires Decode(a).Some?
    ensures Decode(a + b) == Some((Decode(a).value.0, Decode(a).value.1 + b))
  {
    hide ReadHeader, Masked;
    HeaderExtends(a, b);
    var h := ReadHeader(a).value;
    SliceOfPrefix(a, b, BodyStart(h), BodyStart(h) + h.length);
    if h.masked { SliceOfPrefix(a, b, h.offset, h.offset + 4); }
  }

  /** A frame cut short anywhere is not decoded. */
  lemma CutFrameWaits(f: Frame, cut: nat)
    requires Legal(f) && cut < |Wire(f)|
    ensures Decode(Wire(f)[..cut]) == None && Drain(Wire(f)[..cut]) == ([], Wire(f)[..cut])
  {
    hide Decode, Wire;
    var a, b := Wire(f)[..cut], Wire(f)[cut..];
    FrameDecodes(f, []);
    assert Wire(f) + [] == Wire(f) == a + b;
    if Decode(a).Some? { DecodeExtends(a, b); }
  }

  /** Any sequence of frames followed by an incomplete one drains to exactly what they carry, in
      order, and leaves exactly the incomplete suffix. */
  lemma {:induction false} StreamRoundTrip(fs: seq<Frame>, tail: bytes)
    requires forall f <- fs :: Legal(f)
    requires Decode(tail) == None
    ensures Drain(WireAll(fs) + tail) == (CarriesAll(fs), tail)
    decreases |fs|
  {
    hide Decode, Wire;
    if fs == [] {
      assert WireAll(fs) + tail == tail;
    } else {
      assert fs[0] in fs;
      forall f | f in fs[1..] ensures Legal(f) { assert f in fs; }
      StreamRoundTrip(fs[1..], tail);
      var rest := WireAll(fs[1..]) + tail;
      assert WireAll(fs) + tail == Wire(fs[0]) + rest;
      FrameDecodes(fs[0], rest);
    }
  }

  /** Draining as the bytes arrive is draining at the end. */
  lemma {:induction false} DrainSplits(a: bytes, b: bytes)
    ensures var (first, kept) := Drain(a); var (second, rest) := Drain(kept + b);
      Drain(a + b) == (first + second, rest)
    decreases |a|
  {
    hide Decode;
    var d := Decode(a);
    if d.Some? {
      DecodeShrinks(a);
      DecodeExtends(a, b);
      DrainSplits(d.value.1, b);
      var (first, kept) := Drain(d.value.1);
      var (second, rest) := Drain(kept + b);
      assert [d.value.0] + (first + second) == ([d.value.0] + first) + second;
    } else {
      assert [] + Drain(a + b).0 == Drain(a + b).0;
    }
  }

  /** What a reader that drains after every chunk has seen, and what it still holds. */
  function FeedAll(buf: bytes, chunks: seq<bytes>): (seq<Item>, bytes)
    decreases |chunks|
  {
    if chunks == [] then ([], buf)
    else
      var (first, kept) := Drain(buf + chunks[0]);
      var (more, rest) := FeedAll(kept, chunks[1..]);
      (first + more, rest)
  }

  function Joined(chunks: seq<bytes>): bytes
    decreases |chunks|
  {
    if chunks == [] then [] else chunks[0] + Joined(chunks[1..])
  }

  lemma {:induction false} FeedIsDrain(buf: bytes, chunks: seq<bytes>)
    requires Decode(buf) == None
    ensures FeedAll(buf, chunks) == Drain(buf + Joined(chunks))
    decreases |chunks|
  {
    hide Decode;
    if chunks == [] {
      assert buf + Joined(chunks) == buf;
    } else {
      var a := buf + chunks[0];
      var (first, kept) := Drain(a);
      DrainedWaits(a);
      FeedIsDrain(kept, chunks[1..]);
      DrainSplits(a, Joined(chunks[1..]));
      assert buf + Joined(chunks) == a + Joined(chunks[1..]);
    }
  }

  lemma {:induction false} DrainedWaits(buf: bytes)
    ensures Decode(Drain(buf).1) == None
    decreases |buf|
  {
    hide Decode;
    if Decode(buf).Some? {
      DecodeShrinks(buf);
      DrainedWaits(Decode(buf).value.1);
    }
  }

  /** Cut the stream anywhere: the reader sees the same opcodes and payloads in the same order, and
      ends holding the incomplete suffix. */
  lemma EveryChunkingDecodes(fs: seq<Frame>, tail: bytes, chunks: seq<bytes>)
    requires forall f <- fs :: Legal(f)
    requires Decode(tail) == None && Joined(chunks) == WireAll(fs) + tail
    ensures FeedAll([], chunks) == (CarriesAll(fs), tail)
  {
    FeedIsDrain([], chunks);
    assert [] + Joined(chunks) == Joined(chunks);
    StreamRoundTrip(fs, tail);
  }

  // ---------------------------------------------------------------- the client's own header

  /** `_ws_header`: the client always sets the mask bit. */
  function WsHeader(first: byte, length: nat): bytes
    requires length < 0x1_0000_0000_0000_0000
  {
    if length < 126 then [first, 0x80 + length]
    else if length < 65536 then [first, 0x80 + 126] + BigEndian(length, 2)
    else [first, 0x80 + 127] + BigEndian(length, 8)
  }

  /** The header announces the length, masked, and no header that announces as much is shorter. */
  lemma HeaderIsMinimal(first: byte, length: nat, other: bytes, tail: bytes)
    requires length < 0x1_0000_0000_0000_0000
    requires ReadHeader(other).Some? && ReadHeader(other).value.length == length
    ensures ReadHeader(WsHeader(first, length) + tail) == Some(Header(true, length, |WsHeader(first, length)|))
    ensures |WsHeader(first, length)| <= ReadHeader(other).value.offset
  {
    var form := if length < 126 then Short else if length < 65536 then Medium else Long;
    assert WsHeader(first, length) == [first] + Lengths(true, form, length);
    HeaderReads(first, true, form, length, tail);
    LengthsSize(form, length);
    OffsetHolds(other);
  }

  lemma LengthsSize(form: Form, n: nat)
    requires n < Capacity(form)
    ensures |Lengths(true, form, n)| == match form case Short => 1 case Medium => 3 case Long => 9
  {
    assert Pow256(2) == 0x1_0000 by { assert Pow256(1) == 256; }
    Pow256Eight();
    if form == Medium { BigEndianReads(n, 2); }
    if form == Long { BigEndianReads(n, 8); }
  }

  /** How much a header of each size can announce. */
  lemma OffsetHolds(buf: bytes)
    requires ReadHeader(buf).Some?
    ensures var h := ReadHeader(buf).value;
      (h.offset == 2 && h.length < 126) || (h.offset == 4 && h.length < 65536) || h.offset == 10
  {
    hide Number;
    if buf[1] % 0x80 == 126 {
      NumberBounded(buf[2..4]);
      assert Pow256(2) == 0x1_0000 by { assert Pow256(1) == 256; }
    }
  }

  /** What the client puts on the wire for one message. */
  function ClientFrame(first: byte, payload: bytes, key: bytes): bytes
    requires |payload| < 0x1_0000_0000_0000_0000 && |key| == 4
  {
    WsHeader(first, |payload|) + key + Masked(payload, key)
  }

  lemma ClientFrameDecodes(first: byte, payload: bytes, key: bytes, tail: bytes)
    requires |payload| < 0x1_0000_0000_0000_0000 && |key| == 4
    ensures Decode(ClientFrame(first, payload, key) + tail) == Some((Item(first % 16, payload), tail))
  {
    var form := if |payload| < 126 then Short else if |payload| < 65536 then Medium else Long;
    var f := Frame(first, form, Some(key), payload);
    assert ClientFrame(first, payload, key) == Wire(f);
    FrameDecodes(f, tail);
  }
}
