/**
 The bytes of section 5.2 of RFC 6455 written out: where the lengths stand, what masking does to each bit,
 and which opcodes a client sends and minds.
 */
module WsWire {
  import opened Prelude
  import opened WsCodec
  import opened WsClient

  // ---------------------------------------------------------------- lengths

  /** Most significant byte first. */
  lemma TwoBytes(n: nat)
    requires n < 0x1_0000
    ensures BigEndian(n, 2) == [n / 256, n % 256]
  {
    assert BigEndian(n / 256, 1) == BigEndian(n / 256 / 256, 0) + [n / 256 % 256];
  }

  lemma {:induction false} ByteAt(n: nat, k: nat, i: nat)
    requires i < k
    ensures |BigEndian(n, k)| == k && BigEndian(n, k)[i] == Shifted(n, k - 1 - i) % 256
    decreases k
  {
    if k > 1 && i < k - 1 {
      ByteAt(n / 256, k - 1, i);
      ShiftedOnce(n, k - 1 - i);
    } else if k > 1 {
      ByteAt(n / 256, k - 1, 0);
    } else {
      assert BigEndian(n / 256, 0) == [];
    }
  }

  /** The number without its last `bytes` bytes. */
  function Shifted(n: nat, bytes: nat): nat {
    if bytes == 0 then n else Shifted(n, bytes - 1) / 256
  }

  lemma {:induction false} ShiftedOnce(n: nat, k: nat)
    requires k > 0
    ensures Shifted(n, k) == Shifted(n / 256, k - 1)
  {
    if k > 1 { ShiftedOnce(n, k - 1); }
  }

  /** What four bytes say as a length. */
  lemma FourBytes(a: byte, b: byte, c: byte, d: byte)
    ensures Number([a, b, c, d]) == a * 16_777_216 + b * 65_536 + c * 256 + d
  {
    assert [a, b, c, d] == (([a] + [b]) + [c]) + [d];
    NumberAppend([], a);
    NumberAppend([a], b);
    NumberAppend([a] + [b], c);
    NumberAppend(([a] + [b]) + [c], d);
    assert [] + [a] == [a];
  }

  // ---------------------------------------------------------------- masking

  function Bit(n: nat, i: nat): nat {
    if i == 0 then n % 2 else Bit(n / 2, i - 1)
  }

  lemma {:induction false} XorBitAt(a: nat, b: nat, k: nat, i: nat)
    requires i < k
    ensures Bit(XorBits(a, b, k), i) == if Bit(a, i) == Bit(b, i) then 0 else 1
    decreases i
  {
    var q, bit := XorBits(a / 2, b / 2, k - 1), if a % 2 != b % 2 then 1 else 0;
    HalfOf(q, bit);
    if i > 0 { XorBitAt(a / 2, b / 2, k - 1, i - 1); }
  }

  // ---------------------------------------------------------------- frames

  /** A client's header: the first byte as given, then the mask bit with the length, or with the mark of one
      of two bytes or of eight. */
  lemma HeaderOnTheWire(first: byte, n: nat, i: nat)
    requires n < 0x1_0000_0000_0000_0000
    ensures var w := WsHeader(first, n);
      && |w| == (if n < 126 then 2 else if n < 65536 then 4 else 10)
      && w[0] == first && w[1] == (if n < 126 then 128 + n else if n < 65536 then 254 else 255)
      && (126 <= n < 65536 ==> w[2] == n / 256 && w[3] == n % 256)
      && (65536 <= n && i < 8 ==> w[2 + i] == Shifted(n, 7 - i) % 256)
  {
    hide BigEndian, Shifted;
    if 126 <= n < 65536 { TwoBytes(n); }
    if 65536 <= n {
      ByteAt(n, 8, 0);
      if i < 8 { ByteAt(n, 8, i); }
    }
  }

  /** Behind it the key, and the payload with each bit turned over where the key, used again and again, has
      a one. */
  lemma FrameOnTheWire(first: byte, payload: bytes, key: bytes, i: nat, bit: nat)
    requires |payload| < 0x1_0000_0000_0000_0000 && |key| == 4
    ensures var w := ClientFrame(first, payload, key); var head := |WsHeader(first, |payload|)|;
      && |w| == head + 4 + |payload| && w[..head] == WsHeader(first, |payload|) && w[head..head + 4] == key
      && (i < |payload| && bit < 8 ==>
            Bit(w[head + 4 + i], bit) == if Bit(payload[i], bit) == Bit(key[i % 4], bit) then 0 else 1)
  {
    hide WsHeader, Bit, XorBits;
    if i < |payload| && bit < 8 { XorBitAt(payload[i], key[i % 4], 8, bit); }
  }

  /** What the peer's next frame does, by its opcode: a text (1) is the message, a close (8) ends the
      stream, a ping (9) is to be answered, and anything else is passed over. */
  lemma OneFrameIsHeard(f: Frame, tail: bytes)
    requires Legal(f)
    ensures var h := Listen(Wire(f) + tail); var later := Listen(tail);
      if f.first % 16 == 1 then h == Heard(Some(f.payload), [], tail)
      else if f.first % 16 == 8 then h == Heard(None, [], tail)
      else if f.first % 16 == 9 then h == Heard(later.text, [f.payload] + later.pings, later.rest)
      else h == later
  {
    hide Decode, Wire, Listen;
    FrameDecodes(f, tail);
    ListenStep(Wire(f) + tail);
  }

  /** What a client sends as a text is heard as that text, and its first byte says final and text. */
  lemma SentTextIsHeard(payload: bytes, key: bytes, tail: bytes)
    requires |payload| < 0x1_0000_0000_0000_0000 && |key| == 4
    ensures ClientFrame(TEXT_FIRST, payload, key)[0] == 0x81
    ensures Listen(ClientFrame(TEXT_FIRST, payload, key) + tail) == Heard(Some(payload), [], tail)
  {
    hide Decode, Listen, Masked;
    ClientFrameDecodes(TEXT_FIRST, payload, key, tail);
    ListenStep(ClientFrame(TEXT_FIRST, payload, key) + tail);
  }

  /** A ping is answered with a final pong carrying its payload. */
  lemma PingIsAnswered(urandom: nat -> Key4, draw: nat, ping: bytes, tail: bytes)
    requires |ping| < 0x1_0000_0000_0000_0000
    ensures Pongs(urandom, draw, [ping]) == ClientFrame(0x8A, ping, urandom(draw))
    ensures Decode(Pongs(urandom, draw, [ping]) + tail) == Some((Item(10, ping), tail))
  {
    hide Decode;
    assert Pongs(urandom, draw + 1, [ping][1..]) == [];
    ClientFrameDecodes(0x8A, ping, urandom(draw), tail);
  }
}
