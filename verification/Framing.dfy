/**
 The four-byte length framing of the plugin wire and the front door: three writers and three readers
 of one format. Bodies are opaque bytes.
 */
module Framing {
  import opened Prelude
  import opened WsCodec

  const MAX_FRAME: int := 1_048_576
  const LENGTH_LIMIT: int := 0x1_0000_0000

  function Packet(body: bytes): bytes
    requires |body| < LENGTH_LIMIT
  {
    BigEndian(|body|, 4) + body
  }

  function Packets(bodies: seq<bytes>): bytes
    requires forall b <- bodies :: |b| < LENGTH_LIMIT
    decreases |bodies|
  {
    if bodies == [] then [] else Packet(bodies[0]) + Packets(bodies[1..])
  }

  /** The first whole packet's body and what follows it. */
  function Unpack(buf: bytes): Option<(bytes, bytes)> {
    if |buf| < 4 || |buf| < 4 + Number(buf[..4]) then None
    else var n := Number(buf[..4]); Some((buf[4..4 + n], buf[4 + n..]))
  }

  /** Every whole body at the front of the buffer, and the incomplete rest. */
  function UnpackAll(buf: bytes): (seq<bytes>, bytes)
    decreases |buf|
  {
    var u := Unpack(buf);
    if u.None? then ([], buf)
    else
      var (bodies, rest) := UnpackAll(u.value.1);
      ([u.value.0] + bodies, rest)
  }

  lemma PacketUnpacks(body: bytes, tail: bytes)
    requires |body| < LENGTH_LIMIT
    ensures Unpack(Packet(body) + tail) == Some((body, tail))
    ensures |Packet(body)| == 4 + |body|
  {
    assert Pow256(4) == LENGTH_LIMIT by { assert Pow256(2) == 0x1_0000; }
    BigEndianReads(|body|, 4);
    var buf := Packet(body) + tail;
    assert buf[..4] == BigEndian(|body|, 4);
    assert buf[4..4 + |body|] == body && buf[4 + |body|..] == tail;
  }

  lemma {:induction false} PacketsUnpack(bodies: seq<bytes>, tail: bytes)
    requires forall b <- bodies :: |b| < LENGTH_LIMIT
    requires Unpack(tail) == None
    ensures UnpackAll(Packets(bodies) + tail) == (bodies, tail)
    decreases |bodies|
  {
    hide Unpack, Packet;
    if bodies == [] {
      assert Packets(bodies) + tail == tail;
    } else {
      assert bodies[0] in bodies;
      forall b | b in bodies[1..] ensures |b| < LENGTH_LIMIT { assert b in bodies; }
      var rest := Packets(bodies[1..]) + tail;
      assert Packets(bodies) + tail == Packet(bodies[0]) + rest;
      PacketUnpacks(bodies[0], rest);
      PacketsUnpack(bodies[1..], tail);
      assert bodies == [bodies[0]] + bodies[1..];
    }
  }

  lemma UnpackExtends(a: bytes, b: bytes)
    requires Unpack(a).Some?
    ensures Unpack(a + b) == Some((Unpack(a).value.0, Unpack(a).value.1 + b))
  {
    SliceOfPrefix(a, b, 0, 4);
    SliceOfPrefix(a, b, 4, 4 + Number(a[..4]));
  }

  lemma {:induction false} UnpackSplits(a: bytes, b: bytes)
    ensures var (first, kept) := UnpackAll(a); var (second, rest) := UnpackAll(kept + b);
      UnpackAll(a + b) == (first + second, rest)
    decreases |a|
  {
    var u := Unpack(a);
    if u.Some? {
      UnpackExtends(a, b);
      UnpackSplits(u.value.1, b);
      var (first, kept) := UnpackAll(u.value.1);
      var (second, rest) := UnpackAll(kept + b);
      assert [u.value.0] + (first + second) == ([u.value.0] + first) + second;
    } else {
      assert [] + UnpackAll(a + b).0 == UnpackAll(a + b).0;
    }
  }

  lemma EmptyWaits()
    ensures Unpack([]) == None
  {}

  // ---------------------------------------------------------------- the TypeScript reader

  /** `#feed`: the buffer keeps only the incomplete suffix; whole bodies go out in order. */
  class Decoder {
    var buffer: bytes
    var dispatched: seq<bytes>

    constructor ()
      ensures buffer == [] && dispatched == []
    {
      buffer, dispatched := [], [];
    }

    method Feed(chunk: bytes)
      modifies this
      ensures var (bodies, rest) := UnpackAll(old(buffer) + chunk);
        buffer == rest && dispatched == old(dispatched) + bodies
    {
      buffer := if |buffer| == 0 then chunk else buffer + chunk;
      assert buffer == old(buffer) + chunk;
      ghost var all := UnpackAll(buffer);
      while |buffer| >= 4 && |buffer| >= 4 + Number(buffer[..4])
        invariant var now := UnpackAll(buffer);
          now.1 == all.1 && dispatched + now.0 == old(dispatched) + all.0
        decreases |buffer|
      {
        ghost var here := UnpackAll(buffer);
        var n := Number(buffer[..4]);
        var body := buffer[4..4 + n];
        buffer := buffer[4 + n..];
        dispatched := dispatched + [body];
        assert here.0 == [body] + UnpackAll(buffer).0;
      }
      assert dispatched + [] == dispatched;
    }

    /** Fed any chunks of a stream of packets, the decoder dispatches exactly their bodies, in order,
        and holds exactly the incomplete suffix. */
    method FeedStream(chunks: seq<bytes>, ghost bodies: seq<bytes>, ghost tail: bytes)
      requires forall b <- bodies :: |b| < LENGTH_LIMIT
      requires buffer == [] && Unpack(tail) == None && Joined(chunks) == Packets(bodies) + tail
      modifies this
      ensures dispatched == old(dispatched) + bodies && buffer == tail
    {
      hide Unpack, Packets;
      assert Unpack(buffer) == None by { EmptyWaits(); }
      PacketsUnpack(bodies, tail);
      ghost var all := UnpackAll(Joined(chunks));
      assert buffer + Joined(chunks[0..]) == Joined(chunks);
      for i := 0 to |chunks|
        invariant var now := UnpackAll(buffer + Joined(chunks[i..]));
          now.1 == all.1 && dispatched + now.0 == old(dispatched) + all.0
        invariant Unpack(buffer) == None
      {
        ghost var rest := Joined(chunks[i + 1..]);
        assert chunks[i..][1..] == chunks[i + 1..];
        assert buffer + Joined(chunks[i..]) == (buffer + chunks[i]) + rest;
        UnpackSplits(buffer + chunks[i], rest);
        UnpackedWaits(buffer + chunks[i]);
        ghost var before := dispatched;
        Feed(chunks[i]);
        ghost var got := dispatched[|before|..];
        assert dispatched + UnpackAll(buffer + rest).0 == before + (got + UnpackAll(buffer + rest).0);
      }
      assert Joined(chunks[|chunks|..]) == [] && buffer + [] == buffer;
      assert dispatched + [] == dispatched;
    }
  }

  lemma {:induction false} UnpackedWaits(buf: bytes)
    ensures Unpack(UnpackAll(buf).1) == None
    decreases |buf|
  {
    if Unpack(buf).Some? { UnpackedWaits(Unpack(buf).value.1); }
  }

  // ---------------------------------------------------------------- the Python reader

  /** A raw pipe gives a reader at most what it asks for and at least one byte until it ends. How many
      it gives is up to it: `lens` answers each read in turn. */
  class Pipe {
    var coming: bytes
    var lens: nat -> nat
    var asked: nat

    method ReadSome(size: nat) returns (chunk: bytes)
      requires size > 0
      modifies this
      ensures lens == old(lens) && chunk + coming == old(coming)
      ensures |chunk| <= size && (chunk == [] <==> old(coming) == [])
    {
      var n := Min(Min(Max(lens(asked), 1), size), |coming|);
      chunk, coming, asked := coming[..n], coming[n..], asked + 1;
    }

    /** `_readn`: exactly `size` bytes, or nothing when the pipe ends first. */
    method ReadN(size: nat) returns (r: Option<bytes>)
      modifies this
      ensures |old(coming)| >= size ==> r == Some(old(coming)[..size]) && coming == old(coming)[size..]
      ensures |old(coming)| < size ==> r == None && coming == []
    {
      var buf: bytes := [];
      while |buf| < size
        invariant |buf| <= size && buf + coming == old(coming)
        decreases size - |buf|
      {
        var chunk := ReadSome(size - |buf|);
        if chunk == [] { return None; }
        assert (buf + chunk) + coming == old(coming);
        buf := buf + chunk;
      }
      assert old(coming)[..size] == buf && old(coming)[size..] == coming;
      return Some(buf);
    }

    /** `_read`: the next body, or nothing at the end of the wire, whole or broken. */
    method ReadFrame() returns (body: Option<bytes>)
      modifies this
      ensures body == if Unpack(old(coming)).Some? then Some(Unpack(old(coming)).value.0) else None
      ensures Unpack(old(coming)).Some? ==> coming == Unpack(old(coming)).value.1
      ensures Unpack(old(coming)).None? ==> coming == []
    {
      var head := ReadN(4);
      if head.None? { return None; }
      var n := Number(head.value);
      body := ReadN(n);
      assert Unpack(old(coming)).Some? <==> |old(coming)| >= 4 + n;
      if body.Some? {
        assert old(coming)[4..][..n] == old(coming)[4..4 + n] && old(coming)[4..][n..] == old(coming)[4 + n..];
      }
    }

    /** Reading until there is nothing gives every whole body of the wire, in order. */
    method ReadFrames() returns (bodies: seq<bytes>)
      modifies this
      ensures bodies == UnpackAll(old(coming)).0 && coming == []
    {
      hide Unpack;
      bodies := [];
      ghost var all := UnpackAll(coming).0;
      assert [] + all == all;
      while true
        invariant bodies + UnpackAll(coming).0 == all
        decreases |coming|
      {
        ghost var here := coming;
        UnpackShrinks(here);
        var body := ReadFrame();
        if body.None? {
          assert bodies + [] == bodies;
          return;
        }
        OneMoreBody(here);
        assert bodies + ([body.value] + UnpackAll(coming).0) == (bodies + [body.value]) + UnpackAll(coming).0;
        bodies := bodies + [body.value];
      }
    }
  }

  lemma UnpackShrinks(buf: bytes)
    ensures Unpack(buf).Some? ==> |Unpack(buf).value.1| < |buf|
  {}

  lemma OneMoreBody(buf: bytes)
    requires Unpack(buf).Some?
    ensures UnpackAll(buf).0 == [Unpack(buf).value.0] + UnpackAll(Unpack(buf).value.1).0
  {}

  // ---------------------------------------------------------------- the Rust reader

  /** `TooLong` is a writer's: a body whose length four bytes cannot hold. */
  datatype FrameError = TooLarge(size: nat) | Truncated | TooLong(size: nat)

  /** `frame::read`: nothing at the end of the stream, an error for a body over the cap or cut short. */
  function RustRead(stream: bytes): Result<Option<(bytes, bytes)>, FrameError> {
    if |stream| < 4 then Success(None)
    else
      var n := Number(stream[..4]);
      if n > MAX_FRAME then Failure(TooLarge(n))
      else if |stream| < 4 + n then Failure(Truncated)
      else Success(Some((stream[4..4 + n], stream[4 + n..])))
  }

  /** The Rust reader takes a whole packet exactly when its body is within the cap. */
  lemma RustReadsUnderCap(body: bytes, tail: bytes)
    requires |body| < LENGTH_LIMIT
    ensures RustRead(Packet(body) + tail) ==
      if |body| <= 1_048_576 then Success(Some((body, tail))) else Failure(TooLarge(|body|))
  {
    PacketUnpacks(body, tail);
    assert (Packet(body) + tail)[..4] == BigEndian(|body|, 4);
    assert Pow256(4) == LENGTH_LIMIT by { assert Pow256(2) == 0x1_0000; }
    BigEndianReads(|body|, 4);
  }

  /** A packet cut short ends the stream quietly within its length, and is an error within its body. */
  lemma RustReadsCut(body: bytes, k: nat)
    requires |body| < LENGTH_LIMIT && k < 4 + |body|
    ensures |Packet(body)| == 4 + |body|
    ensures RustRead(Packet(body)[..k]) ==
      if k < 4 then Success(None) else if |body| > 1_048_576 then Failure(TooLarge(|body|)) else Failure(Truncated)
  {
    PacketUnpacks(body, []);
    if k >= 4 {
      assert Packet(body)[..k][..4] == BigEndian(|body|, 4);
      assert Pow256(4) == LENGTH_LIMIT by { assert Pow256(2) == 0x1_0000; }
      BigEndianReads(|body|, 4);
    }
  }

  function RustReadAll(stream: bytes): Result<seq<bytes>, FrameError>
    decreases |stream|
  {
    match RustRead(stream)
    case Failure(e) => Failure(e)
    case Success(None) => Success([])
    case Success(Some((body, rest))) =>
      match RustReadAll(rest)
      case Failure(e) => Failure(e)
      case Success(more) => Success([body] + more)
  }

  /** Under the cap, the Rust reader returns exactly the bodies written. */
  lemma {:induction false} RustReadsAll(bodies: seq<bytes>)
    requires forall b <- bodies :: |b| <= MAX_FRAME
    ensures RustReadAll(Packets(bodies)) == Success(bodies)
    decreases |bodies|
  {
    hide RustRead;
    if bodies == [] {
      assert RustRead([]) == Success(None) by { EmptyEnds(); }
    } else {
      assert bodies[0] in bodies;
      forall b | b in bodies[1..] ensures |b| <= MAX_FRAME { assert b in bodies; }
      RustReadsUnderCap(bodies[0], Packets(bodies[1..]));
      PacketUnpacks(bodies[0], Packets(bodies[1..]));
      RustReadsAll(bodies[1..]);
      assert bodies == [bodies[0]] + bodies[1..];
    }
  }

  lemma EmptyEnds()
    ensures RustRead([]) == Success(None)
  {}

  // ---------------------------------------------------------------- the writers

  /** What a writer with this cap puts on the wire for one body, or its refusal: the head and the body of
      `frame::write`, and likewise the packets of the two SDKs. */
  function Write(cap: nat, body: bytes): Result<bytes, FrameError> {
    if |body| > cap then Failure(TooLarge(|body|))
    else if |body| >= LENGTH_LIMIT then Failure(TooLong(|body|))
    else Success(Packet(body))
  }

  /** What goes out under a cap: the cap may be set to any number, the length field may not. */
  predicate Sendable(cap: nat, body: bytes) {
    |body| <= cap && |body| < LENGTH_LIMIT
  }

  /** Everything a writer emits for a list of bodies: a refused body leaves nothing. */
  function WriteAll(cap: nat, bodies: seq<bytes>): bytes
    decreases |bodies|
  {
    if bodies == [] then []
    else (match Write(cap, bodies[0]) case Success(p) => p case Failure(_) => []) + WriteAll(cap, bodies[1..])
  }

  function UnderCap(cap: nat, bodies: seq<bytes>): seq<bytes>
    decreases |bodies|
  {
    if bodies == [] then []
    else (if Sendable(cap, bodies[0]) then [bodies[0]] else []) + UnderCap(cap, bodies[1..])
  }

  lemma {:induction false} WriteAllIsPackets(cap: nat, bodies: seq<bytes>)
    ensures forall b <- UnderCap(cap, bodies) :: |b| <= cap && |b| < LENGTH_LIMIT
    ensures WriteAll(cap, bodies) == Packets(UnderCap(cap, bodies))
    decreases |bodies|
  {
    hide Packet;
    if bodies != [] {
      WriteAllIsPackets(cap, bodies[1..]);
      var rest := UnderCap(cap, bodies[1..]);
      if Sendable(cap, bodies[0]) {
        assert ([bodies[0]] + rest)[1..] == rest;
        assert UnderCap(cap, bodies) == [bodies[0]] + rest;
      } else {
        assert UnderCap(cap, bodies) == rest;
        assert [] + WriteAll(cap, bodies[1..]) == WriteAll(cap, bodies[1..]);
      }
    }
  }

  /** What any of the writers emits, the readers of the two SDKs return: the bodies within the writer's
      cap and the length field, in order, and nothing left over. */
  lemma WritersReachReaders(cap: nat, bodies: seq<bytes>)
    ensures UnpackAll(WriteAll(cap, bodies)) == (UnderCap(cap, bodies), [])
  {
    hide Unpack, Packets, UnpackAll;
    WriteAllIsPackets(cap, bodies);
    EmptyWaits();
    PacketsUnpack(UnderCap(cap, bodies), []);
    assert Packets(UnderCap(cap, bodies)) + [] == Packets(UnderCap(cap, bodies));
  }

  /** The Rust reader returns them too, exactly when none of them is over its own cap. */
  lemma WritersReachRust(cap: nat, bodies: seq<bytes>)
    ensures RustReadAll(WriteAll(cap, bodies)) == Success(UnderCap(cap, bodies))
        <==> forall b <- UnderCap(cap, bodies) :: |b| <= MAX_FRAME
  {
    hide Packets, RustReadAll;
    WriteAllIsPackets(cap, bodies);
    var kept := UnderCap(cap, bodies);
    if forall b <- kept :: |b| <= MAX_FRAME {
      RustReadsAll(kept);
    } else {
      RustStops(kept);
    }
  }

  lemma {:induction false} RustStops(bodies: seq<bytes>)
    requires (forall b <- bodies :: |b| < LENGTH_LIMIT) && exists b :: b in bodies && |b| > MAX_FRAME
    ensures RustReadAll(Packets(bodies)).Failure?
    decreases |bodies|
  {
    hide RustRead;
    assert bodies[0] in bodies;
    forall b | b in bodies[1..] ensures |b| < LENGTH_LIMIT { assert b in bodies; }
    RustReadsUnderCap(bodies[0], Packets(bodies[1..]));
    PacketUnpacks(bodies[0], Packets(bodies[1..]));
    if |bodies[0]| <= MAX_FRAME {
      var b :| b in bodies && |b| > MAX_FRAME;
      assert bodies == [bodies[0]] + bodies[1..];
      assert b in bodies[1..];
      RustStops(bodies[1..]);
    }
  }

  /** What the operating system answers to one write. */
  datatype WriteResult = Wrote(n: nat) | Again | Broken

  datatype SendOutcome = Sent | OverCap | OverLength | Failed | Stalled

  /** How many bytes a series of answers took. */
  function Accepted(answers: seq<WriteResult>): nat
    decreases |answers|
  {
    if answers == [] then 0
    else Accepted(answers[..|answers| - 1]) + match answers[|answers| - 1] case Wrote(n) => n case _ => 0
  }

  lemma AcceptedMore(used: seq<WriteResult>, a: WriteResult)
    ensures Accepted(used + [a]) == Accepted(used) + match a case Wrote(n) => n case _ => 0
    ensures (used + [a])[..|used|] == used
    ensures Broken in used + [a] <==> Broken in used || a == Broken
  {
    assert (used + [a])[..|used|] == used;
  }

  /** A descriptor taking partial writes; `answers` is what it says to each one in turn. */
  class Writer {
    const maxFrame: nat
    var wire: bytes
    var answers: seq<WriteResult>

    /** `#send`: nothing for a body over the cap or longer than a length can say, and the partial-write loop otherwise. It uses up
        answers until the packet is out, one of them is an error, or none are left; the wire gains exactly
        what they took of the packet. */
    method Send(body: bytes) returns (r: SendOutcome, ghost used: seq<WriteResult>)
      modifies this`wire, this`answers
      ensures used + answers == old(answers)
      ensures r == OverCap <==> |body| > maxFrame
      ensures r == OverLength <==> LENGTH_LIMIT <= |body| <= maxFrame
      ensures r == OverCap || r == OverLength ==> wire == old(wire) && used == []
      ensures Sendable(maxFrame, body) ==> wire == old(wire) + Packet(body)[..Min(Accepted(used), |Packet(body)|)]
      ensures Sendable(maxFrame, body) ==> Stops(r, |Packet(body)|, used, answers)
      ensures r == Sent ==> Sendable(maxFrame, body) && wire == old(wire) + Packet(body)
    {
      hide Accepted, Stops, BigEndian;
      used := [];
      assert [] + answers == answers;
      if |body| > maxFrame { return OverCap, []; }
      if |body| >= LENGTH_LIMIT { return OverLength, []; }
      var packet := Packet(body);
      PacketUnpacks(body, []);
      r, used := Flush(packet);
      SentWhole(r, packet, used, answers);
    }

    method Flush(packet: bytes) returns (r: SendOutcome, ghost used: seq<WriteResult>)
      requires packet != []
      modifies this`wire, this`answers
      ensures used + answers == old(answers) && r != OverCap && r != OverLength
      ensures wire == old(wire) + packet[..Min(Accepted(used), |packet|)]
      ensures Stops(r, |packet|, used, answers)
    {
      hide Accepted;
      used := [];
      assert [] + answers == answers;
      var written := 0;
      assert packet[..0] == [] && wire + [] == wire;
      NoneAccepted();
      while written < |packet|
        invariant 0 <= written <= |packet| && wire == old(wire) + packet[..written]
        invariant used + answers == old(answers) && Broken !in used
        invariant written == Min(Accepted(used), |packet|)
        invariant written == |packet| ==> used != [] && Accepted(used[..|used| - 1]) < |packet|
        decreases |answers|
      {
        if answers == [] { return Stalled, used; }
        var a := answers[0];
        AcceptedMore(used, a);
        answers := answers[1..];
        assert (used + [a]) + answers == old(answers);
        used := used + [a];
        match a
        case Wrote(n) =>
          var k := Min(n, |packet| - written);
          TookMore(packet, written, k);
          wire := wire + packet[written..written + k];
          written := written + k;
        case Again =>
        case Broken => return Failed, used;
      }
      return Sent, used;
    }
  }

  /** Why the writer stopped, from the answers it used: the packet is out with the last of them, the last
      is the only error, or there were no more. */
  ghost predicate Stops(r: SendOutcome, size: nat, used: seq<WriteResult>, rest: seq<WriteResult>) {
    && (r == Sent <==> Accepted(used) >= size)
    && (r == Sent ==> Broken !in used && used != [] && Accepted(used[..|used| - 1]) < size)
    && (r == Failed <==> Broken in used)
    && (r == Failed ==> used[|used| - 1] == Broken && Broken !in used[..|used| - 1])
    && (r == Stalled ==> rest == [])
  }

  lemma NoneAccepted()
    ensures Accepted([]) == 0
  {}

  lemma TookMore(packet: bytes, written: nat, k: nat)
    requires written + k <= |packet|
    ensures packet[..written] + packet[written..written + k] == packet[..written + k]
    ensures forall w: bytes :: (w + packet[..written]) + packet[written..written + k] == w + packet[..written + k]
  {
    forall w: bytes ensures (w + packet[..written]) + packet[written..written + k] == w + packet[..written + k] {
      assert packet[..written] + packet[written..written + k] == packet[..written + k];
    }
  }

  lemma SentWhole(r: SendOutcome, packet: bytes, used: seq<WriteResult>, rest: seq<WriteResult>)
    requires Stops(r, |packet|, used, rest)
    ensures r == Sent ==> packet[..Min(Accepted(used), |packet|)] == packet
  {}

  lemma {:induction false} AcceptedSplit(a: seq<WriteResult>, b: seq<WriteResult>)
    ensures Accepted(a + b) == Accepted(a) + Accepted(b)
    decreases |b|
  {
    if b == [] {
      assert a + b == a;
    } else {
      assert (a + b)[..|a + b| - 1] == a + b[..|b| - 1];
      AcceptedSplit(a, b[..|b| - 1]);
    }
  }

  /** So a body within the cap goes out exactly when what the descriptor answers takes the whole packet
      before the first error among it. */
  lemma PacketGoesOutIff(r: SendOutcome, size: nat, used: seq<WriteResult>, rest: seq<WriteResult>)
    requires r != OverCap && r != OverLength && Stops(r, size, used, rest)
    ensures r == Sent
        <==> exists k :: 0 <= k <= |used + rest| && Broken !in (used + rest)[..k] && Accepted((used + rest)[..k]) >= size
  {
    var all := used + rest;
    assert all[..|used|] == used;
    forall k | 0 <= k <= |all| && Broken !in all[..k] && Accepted(all[..k]) >= size ensures r == Sent {
      if k <= |used| {
        assert used == all[..k] + used[k..];
        AcceptedSplit(all[..k], used[k..]);
      } else {
        assert all[..k][..|used|] == used;
        assert Broken !in used by { assert forall a :: a in used ==> a in all[..k]; }
        assert rest != [];
      }
    }
  }
}
