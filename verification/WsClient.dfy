/** The WebSocket client object: its buffer, the chunks its socket still has to give, and what it sent. */
module WsClient {
  import opened Prelude
  import opened WsCodec

  const OP_CONTINUED: byte := 0
  const OP_TEXT: byte := 1
  const OP_CLOSE: byte := 8
  const OP_PING: byte := 9
  const OP_PONG: byte := 10
  const TEXT_FIRST: byte := 0x81
  const PONG_FIRST: byte := 0x8A

  type Key4 = k: bytes | |k| == 4 witness [0, 0, 0, 0]
  type Chunk = c: bytes | c != [] witness [0]

  /** The next text message of a byte stream: what `recv_text` returns, the pings answered on the way,
      and what stays unread. A close or the end of the stream ends it with nothing. */
  datatype Heard = Heard(text: Option<bytes>, pings: seq<bytes>, rest: bytes)

  function Listen(stream: bytes): Heard
    decreases |stream|
  {
    var d := Decode(stream);
    if d.None? then Heard(None, [], stream)
    else
      DecodeShrinks(stream);
      var (item, rest) := d.value;
      if item.op == OP_TEXT then Heard(Some(item.payload), [], rest)
      else if item.op == OP_CLOSE then Heard(None, [], rest)
      else
        var h := Listen(rest);
        if item.op == OP_PING then h.(pings := [item.payload] + h.pings) else h
  }

  lemma ListenStep(stream: bytes)
    ensures var d := Decode(stream);
      Listen(stream) ==
        if d.None? then Heard(None, [], stream)
        else if d.value.0.op == OP_TEXT then Heard(Some(d.value.0.payload), [], d.value.1)
        else if d.value.0.op == OP_CLOSE then Heard(None, [], d.value.1)
        else if d.value.0.op == OP_PING then
          Heard(Listen(d.value.1).text, [d.value.0.payload] + Listen(d.value.1).pings, Listen(d.value.1).rest)
        else Listen(d.value.1)
  {
    hide Decode;
  }

  function Pongs(urandom: nat -> Key4, draw: nat, pings: seq<bytes>): bytes
    decreases |pings|
  {
    if pings == [] || |pings[0]| >= 0x1_0000_0000_0000_0000 then []
    else ClientFrame(PONG_FIRST, pings[0], urandom(draw)) + Pongs(urandom, draw + 1, pings[1..])
  }

  /** Over a stream of whole frames: frames before the first text or close are skipped, their pings
      answered in order, and everything after that frame stays for the next call. */
  lemma {:induction false} ListenFindsFirst(before: seq<Frame>, f: Frame, tail: bytes)
    requires (forall g <- before :: Legal(g)) && Legal(f)
    requires forall g <- before :: Carries(g).op != OP_TEXT && Carries(g).op != OP_CLOSE
    requires Carries(f).op == OP_TEXT || Carries(f).op == OP_CLOSE
    ensures Listen(WireAll(before) + (Wire(f) + tail)) ==
      Heard(if Carries(f).op == OP_TEXT then Some(f.payload) else None, PingsOf(before), tail)
    decreases |before|
  {
    hide Decode, Wire;
    if before == [] {
      assert WireAll(before) + (Wire(f) + tail) == Wire(f) + tail;
      FrameDecodes(f, tail);
    } else {
      assert before[0] in before;
      forall g | g in before[1..] ensures Legal(g) && Carries(g).op != OP_TEXT && Carries(g).op != OP_CLOSE {
        assert g in before;
      }
      var rest := WireAll(before[1..]) + (Wire(f) + tail);
      assert WireAll(before) + (Wire(f) + tail) == Wire(before[0]) + rest;
      FrameDecodes(before[0], rest);
      ListenFindsFirst(before[1..], f, tail);
    }
  }

  function PingsOf(fs: seq<Frame>): seq<bytes>
    decreases |fs|
  {
    if fs == [] then []
    else (if Carries(fs[0]).op == OP_PING then [fs[0].payload] else []) + PingsOf(fs[1..])
  }

  // ---------------------------------------------------------------- fragmented messages

  /** Frames that listening passes over: continuations and pings and pongs. */
  predicate PassedOver(g: Frame) {
    Legal(g) && (Carries(g).op == OP_CONTINUED || Carries(g).op == OP_PING || Carries(g).op == OP_PONG)
  }

  /** Such frames are skipped, with their pings answered, and the stream behind them is heard as if alone. */
  lemma {:induction false} ListenSkips(fs: seq<Frame>, tail: bytes)
    requires forall g <- fs :: PassedOver(g)
    ensures forall g <- fs :: Legal(g)
    ensures Listen(WireAll(fs) + tail) == Heard(Listen(tail).text, PingsOf(fs) + Listen(tail).pings, Listen(tail).rest)
    decreases |fs|
  {
    hide Decode, Wire, Listen;
    if fs == [] {
      assert WireAll(fs) + tail == tail && [] + Listen(tail).pings == Listen(tail).pings;
    } else {
      assert fs[0] in fs;
      forall g | g in fs[1..] ensures PassedOver(g) { assert g in fs; }
      var rest := WireAll(fs[1..]) + tail;
      assert WireAll(fs) + tail == Wire(fs[0]) + rest;
      FrameDecodes(fs[0], rest);
      ListenStep(Wire(fs[0]) + rest);
      ListenSkips(fs[1..], tail);
      assert [fs[0].payload] + (PingsOf(fs[1..]) + Listen(tail).pings) == ([fs[0].payload] + PingsOf(fs[1..])) + Listen(tail).pings;
      assert [] + PingsOf(fs[1..]) == PingsOf(fs[1..]);
    }
  }

  predicate Final(f: Frame) {
    f.first >= 0x80
  }

  /** A text message in fragments (section 5.4 of RFC 6455): a text frame without the final bit, then
      continuations, the last of them final, with pings and pongs anywhere in between. */
  predicate Fragmented(fs: seq<Frame>) {
    && |fs| >= 2 && Legal(fs[0]) && Carries(fs[0]).op == OP_TEXT && !Final(fs[0])
    && (forall g <- fs[1..] :: PassedOver(g))
    && Carries(fs[|fs| - 1]).op == OP_CONTINUED
    && (forall i :: 1 <= i < |fs| && Carries(fs[i]).op == OP_CONTINUED ==> (Final(fs[i]) <==> i == |fs| - 1))
  }

  /** The payloads of the continuations, in order. */
  function Continued(fs: seq<Frame>): bytes
    decreases |fs|
  {
    if fs == [] then [] else (if Carries(fs[0]).op == OP_CONTINUED then fs[0].payload else []) + Continued(fs[1..])
  }

  lemma {:induction false} NothingContinued(fs: seq<Frame>)
    ensures Continued(fs) == [] <==> forall g <- fs :: Carries(g).op == OP_CONTINUED ==> g.payload == []
    decreases |fs|
  {
    if fs != [] {
      NothingContinued(fs[1..]);
      assert fs == [fs[0]] + fs[1..];
    }
  }

  /** A fragmented message is heard whole exactly when all of it is in its first frame. What is heard is
      that frame alone, and the next call passes over the other fragments to whatever comes behind. */
  lemma FragmentsAreNotJoined(fs: seq<Frame>, tail: bytes)
    requires Fragmented(fs)
    ensures forall g <- fs :: Legal(g)
    ensures Listen(WireAll(fs) + tail).text == Some(fs[0].payload)
    ensures Listen(WireAll(fs) + tail).text == Some(fs[0].payload + Continued(fs[1..]))
        <==> forall g <- fs[1..] :: Carries(g).op == OP_CONTINUED ==> g.payload == []
    ensures Listen(Listen(WireAll(fs) + tail).rest).text == Listen(tail).text
    ensures Listen(Listen(WireAll(fs) + tail).rest).rest == Listen(tail).rest
  {
    hide Decode, Wire, Listen;
    forall g | g in fs ensures Legal(g) { assert g == fs[0] || g in fs[1..]; }
    var rest := WireAll(fs[1..]) + tail;
    assert WireAll(fs) + tail == Wire(fs[0]) + rest;
    FrameDecodes(fs[0], rest);
    ListenStep(Wire(fs[0]) + rest);
    ListenSkips(fs[1..], tail);
    NothingContinued(fs[1..]);
    assert |fs[0].payload + Continued(fs[1..])| == |fs[0].payload| + |Continued(fs[1..])|;
    assert fs[0].payload + [] == fs[0].payload;
  }

  const HELLO_IN_TWO: seq<Frame> := [Frame(0x01, Short, None, [104]), Frame(0x80, Short, None, [105])]

  /** "hi" sent in two frames is heard as "h", and "i" is never heard. */
  lemma HalfAMessage()
    ensures Fragmented(HELLO_IN_TWO) && forall g <- HELLO_IN_TWO :: Legal(g)
    ensures Listen(WireAll(HELLO_IN_TWO)).text == Some([104])
    ensures Listen(Listen(WireAll(HELLO_IN_TWO)).rest).text == None
  {
    hide Wire, Listen;
    FragmentsAreNotJoined(HELLO_IN_TWO, []);
    assert WireAll(HELLO_IN_TWO) + [] == WireAll(HELLO_IN_TWO);
    ListenStep([]);
  }

  /** Listening from here gives what listening from the start gives, with `sent` for what is still owed. */
  ghost predicate Left(now: Heard, h: Heard, sent: bytes, out: bytes) {
    now.text == h.text && now.rest == h.rest && sent == out
    && forall p <- now.pings :: |p| < 0x1_0000_0000_0000_0000
  }

  lemma LeftLater(stream: bytes, h: Heard, ping: bytes, later: seq<bytes>)
    requires Listen(stream).pings == [ping] + later
    requires forall p <- Listen(stream).pings :: |p| < 0x1_0000_0000_0000_0000
    ensures |ping| < 0x1_0000_0000_0000_0000 && forall p <- later :: |p| < 0x1_0000_0000_0000_0000
  {
    hide Listen;
    var all := [ping] + later;
    assert all[0] in all;
    forall p | p in later ensures p in all {
      var i :| 0 <= i < |later| && later[i] == p;
      assert all[i + 1] == p;
    }
  }

  class WsClient {
    const urandom: nat -> Key4
    var buf: bytes
    var inbox: seq<Chunk>
    var outbox: bytes
    var draws: nat

    /** Everything received and everything still to come. */
    function Stream(): bytes
      reads this
    {
      buf + Joined(inbox)
    }

    constructor (rng: nat -> Key4, coming: seq<Chunk>)
      ensures urandom == rng && Stream() == Joined(coming) && outbox == [] && draws == 0
    {
      urandom := rng;
      buf, inbox, outbox, draws := [], coming, [], 0;
    }

    method SendFrame(first: byte, payload: bytes)
      requires |payload| < 0x1_0000_0000_0000_0000
      modifies this`outbox, this`draws
      ensures outbox == old(outbox) + ClientFrame(first, payload, urandom(old(draws))) && draws == old(draws) + 1
    {
      var mask := urandom(draws);
      draws := draws + 1;
      var masked: bytes := [];
      for i := 0 to |payload|
        invariant |masked| == i && forall j :: 0 <= j < i ==> masked[j] == Xor(payload[j], mask[j % 4])
      {
        masked := masked + [Xor(payload[i], mask[i % 4])];
      }
      assert masked == Masked(payload, mask);
      outbox := outbox + (WsHeader(first, |payload|) + mask + masked);
    }

    method SendText(payload: bytes)
      requires |payload| < 0x1_0000_0000_0000_0000
      modifies this`outbox, this`draws
      ensures outbox == old(outbox) + ClientFrame(TEXT_FIRST, payload, urandom(old(draws))) && draws == old(draws) + 1
    {
      SendFrame(TEXT_FIRST, payload);
    }

    /** Take the first whole frame off the buffer, or leave it as it is. */
    method DecodeOne() returns (frame: Option<Item>)
      modifies this`buf
      ensures frame == if Decode(old(buf)).Some? then Some(Decode(old(buf)).value.0) else None
      ensures buf == if Decode(old(buf)).Some? then Decode(old(buf)).value.1 else old(buf)
    {
      hide Number, Masked;
      if |buf| < 2 { return None; }
      var op := buf[0] % 16;
      var masked := buf[1] >= 0x80;
      var length: nat := buf[1] % 0x80;
      var offset := 2;
      if length == 126 {
        if |buf| < 4 { return None; }
        length := Number(buf[2..4]);
        offset := 4;
      } else if length == 127 {
        if |buf| < 10 { return None; }
        length := Number(buf[2..10]);
        offset := 10;
      }
      var start := offset + if masked then 4 else 0;
      var need := start + length;
      if |buf| < need { return None; }
      var payload := buf[start..need];
      if masked {
        var key := buf[offset..offset + 4];
        payload := Masked(payload, key);
      }
      buf := buf[need..];
      return Some(Item(op, payload));
    }

    /** Receive chunks until the buffer starts with a whole frame, or the peer has closed. */
    method NextFrame() returns (frame: Option<Item>)
      modifies this`buf, this`inbox
      ensures var d := Decode(old(Stream()));
        if d.Some? then frame == Some(d.value.0) && Stream() == d.value.1
        else frame == None && Stream() == old(Stream())
    {
      hide Decode;
      ghost var stream := Stream();
      frame := DecodeNow(stream);
      while frame.None? && inbox != []
        invariant frame.None? ==> Stream() == stream && Decode(buf).None?
        invariant frame.Some? ==> Decode(stream) == Some((frame.value, Stream()))
        decreases |inbox|
      {
        buf := buf + inbox[0];
        inbox := inbox[1..];
        assert Stream() == stream;
        frame := DecodeNow(stream);
      }
      assert frame.None? ==> buf == stream;
    }

    method DecodeNow(ghost stream: bytes) returns (frame: Option<Item>)
      requires stream == Stream()
      modifies this`buf
      ensures frame.None? ==> Stream() == stream && Decode(buf).None?
      ensures frame.Some? ==> Decode(stream) == Some((frame.value, Stream()))
    {
      hide Decode;
      if Decode(buf).Some? { DecodeExtends(buf, Joined(inbox)); }
      frame := DecodeOne();
    }

    /** `recv_text`: the next text message of the stream, whatever chunks it arrives in. */
    method RecvText() returns (text: Option<bytes>)
      requires forall p <- Listen(Stream()).pings :: |p| < 0x1_0000_0000_0000_0000
      modifies this
      ensures var h := Listen(old(Stream()));
        && text == h.text
        && Stream() == h.rest
        && outbox == old(outbox) + Pongs(urandom, old(draws), h.pings)
        && draws == old(draws) + |h.pings|
    {
      hide Decode, ClientFrame, Listen, Pongs;
      ghost var h := Listen(Stream());
      ghost var out := outbox + Pongs(urandom, draws, h.pings);
      ghost var end := draws + |h.pings|;
      while true
        invariant Left(Listen(Stream()), h, outbox + Pongs(urandom, draws, Listen(Stream()).pings), out)
        invariant draws + |Listen(Stream()).pings| == end
        decreases |Stream()|
      {
        ghost var stream := Stream();
        ListenStep(stream);
        DecodeShrinks(stream);
        NoPongs(draws, outbox);
        var frame := NextFrame();
        if frame.None? { return None; }
        if frame.value.op == OP_TEXT { return Some(frame.value.payload); }
        if frame.value.op == OP_CLOSE { return None; }
        if frame.value.op == OP_PING {
          ghost var later := Listen(Stream()).pings;
          PongsFirst(draws, frame.value.payload, later, outbox);
          LeftLater(stream, h, frame.value.payload, later);
          SendFrame(PONG_FIRST, frame.value.payload);
        }
      }
    }

    lemma NoPongs(draw: nat, sent: bytes)
      ensures sent + Pongs(urandom, draw, []) == sent
    {}

    lemma PongsFirst(draw: nat, ping: bytes, later: seq<bytes>, sent: bytes)
      ensures |ping| < 0x1_0000_0000_0000_0000 ==>
        sent + Pongs(urandom, draw, [ping] + later)
        == (sent + ClientFrame(PONG_FIRST, ping, urandom(draw))) + Pongs(urandom, draw + 1, later)
    {
      hide ClientFrame;
      assert ([ping] + later)[1..] == later;
    }
  }
}
