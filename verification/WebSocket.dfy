/**
 The device's WebSocket client: the incremental frame decoder and the masked
 encoder (sections 5.2 and 5.3 of RFC 6455), after the HTTP handshake.
 */
module WebSocket {
  import opened Base

  /** An octet. Masks and shifts of the code are written as division and remainder. */
  type byte = n: int | 0 <= n < 256
  type Bytes = seq<byte>

  const MAX_PAYLOAD := 65535
  const OP_CONTINUATION: byte := 0x0
  const OP_TEXT: byte := 0x1
  const OP_CLOSE: byte := 0x8
  const OP_PING: byte := 0x9

  // ---------------------------------------------------------------- frames

  /** What the front of the receive buffer holds. */
  datatype Parsed =
    | More                       // not a whole frame yet
    | Refused                    // a 64-bit length: the client gives up
    | Frame(fin: bool, opcode: byte, payload: Bytes, used: nat)

  function High(b: byte): bool { b >= 0x80 }

  /** The two-byte length of the extended form, most significant byte first. */
  function Wide(hi: byte, lo: byte): (n: nat)
    ensures n <= MAX_PAYLOAD
  {
    hi * 256 + lo
  }

  /** Exclusive or of the low `bits` bits. */
  function XorBits(a: nat, b: nat, bits: nat): (r: nat)
    ensures r < Pow2(bits)
  {
    if bits == 0 then 0
    else Bit(a, b) + 2 * XorBits(a / 2, b / 2, bits - 1)
  }

  /** Exclusive or of the lowest bits. */
  function Bit(a: nat, b: nat): nat { if a % 2 == b % 2 then 0 else 1 }

  function Pow2(n: nat): nat { if n == 0 then 1 else 2 * Pow2(n - 1) }

  function Xor(a: byte, b: byte): byte {
    assert Pow2(8) == 2 * 2 * Pow2(6) == 256 by { assert Pow2(6) == 4 * Pow2(4) == 16 * Pow2(2); }
    XorBits(a, b, 8)
  }

  lemma {:induction false} XorTwice(a: nat, m: nat, bits: nat)
    requires a < Pow2(bits)
    ensures XorBits(XorBits(a, m, bits), m, bits) == a
  {
    if bits > 0 {
      var high := XorBits(a / 2, m / 2, bits - 1);
      var x := Bit(a, m) + 2 * high;
      assert XorBits(a, m, bits) == x;
      assert x / 2 == high && x % 2 == Bit(a, m);
      assert Bit(x, m) == a % 2;
      XorTwice(a / 2, m / 2, bits - 1);
    }
  }

  /** Applying a mask is its own inverse (see `MaskTwice`). */
  function Masked(mask: Bytes, data: Bytes): (r: Bytes)
    requires |mask| == 4
    ensures |r| == |data|
  {
    seq(|data|, i requires 0 <= i < |data| => Xor(data[i], mask[i % 4]))
  }

  /** The payload behind a header of `header` bytes. */
  function ParseBody(b: Bytes, header: nat, len: nat): (p: Parsed)
    requires 2 <= header <= |b|
    ensures p.Frame? ==> header + len <= p.used <= header + len + 4 && p.used <= |b| && |p.payload| == len
    ensures p.More? ==> |b| < header + len + 4
    ensures !p.Refused?
  {
    var maskLen := if High(b[1]) then 4 else 0;
    var used := header + maskLen + len;
    if |b| < used then More
    else
      var raw := b[header + maskLen..used];
      Frame(High(b[0]), b[0] % 16,
            if High(b[1]) then Masked(b[header..header + 4], raw) else raw, used)
  }

  function Parse(b: Bytes): (p: Parsed)
    ensures p.Frame? ==> 2 <= p.used <= |b|
    ensures p.More? ==> |b| < 4 + 4 + MAX_PAYLOAD
  {
    if |b| < 2 then More
    else
      var short := b[1] % 128;
      if short == 127 then Refused
      else if short == 126 then
        if |b| < 4 then More else ParseBody(b, 4, Wide(b[2], b[3]))
      else ParseBody(b, 2, short)
  }

  // ---------------------------------------------------------- the connection

  datatype Event = Deliver(text: Bytes) | SendPong(payload: Bytes) | Closed

  datatype Conn = Conn(open: bool, buffer: Bytes, events: seq<Event>)

  const Fresh := Conn(true, [], [])

  /** What a complete frame makes the client do. */
  function Reaction(fin: bool, opcode: byte, payload: Bytes): seq<Event> {
    if opcode == OP_CLOSE then [Closed]
    else if opcode == OP_PING then [SendPong(payload)]
    else if (opcode == OP_TEXT || opcode == OP_CONTINUATION) && fin then [Deliver(payload)]
    else []
  }

  function Shut(c: Conn): Conn { Conn(false, [], c.events + [Closed]) }

  /** The frame at the front of the buffer has been handled. */
  function AfterFrame(c: Conn, p: Parsed): Conn
    requires p.Frame? && p.used <= |c.buffer|
  {
    if p.opcode == OP_CLOSE then Shut(c)
    else Conn(true, c.buffer[p.used..], c.events + Reaction(p.fin, p.opcode, p.payload))
  }

  /** Everything the buffered bytes already determine. */
  function Consume(c: Conn): (r: Conn)
    requires c.open
    ensures |r.buffer| < 4 + 4 + MAX_PAYLOAD
    ensures !r.open ==> r.buffer == []
    decreases |c.buffer|
  {
    match Parse(c.buffer)
    case More => c
    case Refused => Shut(c)
    case Frame(_, _, _, _) =>
      var next := AfterFrame(c, Parse(c.buffer));
      if next.open then Consume(next) else next
  }

  /** One TCP read. Nothing is read once the connection is closed. */
  function Feed(c: Conn, data: Bytes): Conn {
    if !c.open then c else Consume(c.(buffer := c.buffer + data))
  }

  function FeedAll(c: Conn, chunks: seq<Bytes>): Conn
    decreases |chunks|
  {
    if chunks == [] then c else FeedAll(Feed(c, chunks[0]), chunks[1..])
  }

  // ------------------------------------------------- independence of chunking

  /** A verdict on the front of the buffer never changes when more bytes arrive. */
  lemma ParseIsStable(b: Bytes, x: Bytes)
    requires !Parse(b).More?
    ensures Parse(b + x) == Parse(b)
  {
    hide ParseBody;
    var all := b + x;
    assert all[0] == b[0] && all[1] == b[1];
    if b[1] % 128 == 126 {
      assert all[2] == b[2] && all[3] == b[3];
      BodyIsStable(b, x, 4, Wide(b[2], b[3]));
    } else if b[1] % 128 != 127 {
      BodyIsStable(b, x, 2, b[1] % 128);
    }
  }

  lemma BodyIsStable(b: Bytes, x: Bytes, header: nat, len: nat)
    requires 2 <= header <= |b| && ParseBody(b, header, len).Frame?
    ensures ParseBody(b + x, header, len) == ParseBody(b, header, len)
  {
    hide Xor;
  }

  lemma {:induction false} ConsumeThenFeed(c: Conn, x: Bytes)
    requires c.open
    ensures Consume(c.(buffer := c.buffer + x)) == Feed(Consume(c), x)
    decreases |c.buffer|
  {
    var p := Parse(c.buffer);
    var wide := c.(buffer := c.buffer + x);
    if !p.More? {
      ParseIsStable(c.buffer, x);
      if p.Frame? {
        var next := AfterFrame(c, p);
        if next.open {
          ConsumeThenFeed(next, x);
          assert AfterFrame(wide, p) == next.(buffer := next.buffer + x);
        } else {
          assert AfterFrame(wide, p) == next;
        }
      }
    }
  }

  /**
   Cutting a byte stream into TCP reads changes nothing: deliveries, pong
   replies, the close decision and the bytes left over are those of one read.
   */
  lemma {:induction false} ChunkingIsInvisible(c: Conn, chunks: seq<Bytes>)
    requires c.open ==> Consume(c) == c
    ensures FeedAll(c, chunks) == Feed(c, Concat(chunks))
    decreases |chunks|
  {
    if chunks == [] {
      assert c.buffer + [] == c.buffer;
    } else {
      var first, rest := chunks[0], chunks[1..];
      var after := Feed(c, first);
      if c.open {
        ConsumeThenFeed(c.(buffer := c.buffer + first), Concat(rest));
        assert c.buffer + first + Concat(rest) == c.buffer + Concat(chunks);
        if after.open { ConsumeIsIdempotent(c.(buffer := c.buffer + first)); }
      }
      ChunkingIsInvisible(after, rest);
    }
  }

  lemma {:induction false} ConsumeIsIdempotent(c: Conn)
    requires c.open && Consume(c).open
    ensures Consume(Consume(c)) == Consume(c)
    decreases |c.buffer|
  {
    if Parse(c.buffer).Frame? {
      ConsumeIsIdempotent(AfterFrame(c, Parse(c.buffer)));
    }
  }

  // ----------------------------------------------------------- the encoder

  /** The frame `send_frame_on_poller` builds. */
  function Encode(opcode: byte, mask: Bytes, data: Bytes): Bytes
    requires |mask| == 4 && |data| <= MAX_PAYLOAD
  {
    Head(opcode, |data|) + mask + Masked(mask, data)
  }

  lemma MaskTwice(mask: Bytes, data: Bytes)
    requires |mask| == 4
    ensures Masked(mask, Masked(mask, data)) == data
  {
    forall i | 0 <= i < |data|
      ensures Masked(mask, Masked(mask, data))[i] == data[i]
    {
      XorTwice(data[i], mask[i % 4], 8);
    }
  }

  /** A header that announces a masked payload, and the payload behind it. */
  lemma BodyOf(head: Bytes, mask: Bytes, data: Bytes, rest: Bytes)
    requires |head| >= 2 && |mask| == 4 && High(head[0]) && High(head[1])
    ensures ParseBody(head + mask + Masked(mask, data) + rest, |head|, |data|)
         == Frame(true, head[0] % 16, data, |head| + 4 + |data|)
  {
    hide Xor;
    var b := head + mask + Masked(mask, data) + rest;
    MaskTwice(mask, data);
    assert b[|head| + 4..|head| + 4 + |data|] == Masked(mask, data);
  }

  /** The header bytes of an encoded frame. */
  function Head(opcode: byte, len: nat): (h: Bytes)
    requires len <= MAX_PAYLOAD
    ensures |h| == if len < 126 then 2 else 4
  {
    [0x80 + opcode % 16]
    + if len < 126 then [0x80 + len]
      else [0x80 + 126, len / 256, len % 256]
  }

  /** Whatever follows it on the wire, an encoded frame decodes to what was sent. */
  lemma EncodeThenParse(opcode: byte, mask: Bytes, data: Bytes, rest: Bytes)
    requires |mask| == 4 && |data| <= MAX_PAYLOAD
    ensures Parse(Encode(opcode, mask, data) + rest)
         == Frame(true, opcode % 16, data, |Encode(opcode, mask, data)|)
  {
    hide Xor, ParseBody;
    var head := Head(opcode, |data|);
    BodyOf(head, mask, data, rest);
  }

  // ------------------------------------------------- a whole sending session

  /** A frame handed to the encoder, with the mask drawn for it. */
  datatype Outgoing = Outgoing(opcode: byte, mask: Bytes, data: Bytes)

  type Sent = f: Outgoing | |f.mask| == 4 && |f.data| <= MAX_PAYLOAD
    witness Outgoing(OP_TEXT, [0, 0, 0, 0], [])

  ghost function Wire(sent: seq<Sent>): Bytes {
    if sent == [] then []
    else Encode(sent[0].opcode, sent[0].mask, sent[0].data) + Wire(sent[1..])
  }

  /** What the frames mean to a receiver: nothing counts after a close frame. */
  ghost function Meaning(sent: seq<Sent>): seq<Event> {
    if sent == [] then []
    else
      if IsClose(sent[0]) then EventsOf(sent[0])
      else EventsOf(sent[0]) + Meaning(sent[1..])
  }

  predicate IsClose(s: Sent) { s.opcode % 16 == OP_CLOSE }

  ghost predicate Closes(sent: seq<Sent>) {
    sent != [] && (IsClose(sent[0]) || Closes(sent[1..]))
  }

  function EventsOf(s: Sent): seq<Event> { Reaction(true, s.opcode % 16, s.data) }

  lemma ConsumeFirst(events: seq<Event>, s: Sent, rest: Bytes)
    ensures Consume(Conn(true, Encode(s.opcode, s.mask, s.data) + rest, events))
         == if IsClose(s) then Conn(false, [], events + EventsOf(s))
            else Consume(Conn(true, rest, events + EventsOf(s)))
  {
    hide Xor, Head;
    EncodeThenParse(s.opcode, s.mask, s.data, rest);
  }

  lemma ConsumeNothing(events: seq<Event>)
    ensures Consume(Conn(true, [], events)) == Conn(true, [], events)
  {
  }

  lemma {:induction false} ConsumeWire(events: seq<Event>, sent: seq<Sent>)
    ensures Consume(Conn(true, Wire(sent), events)) == Conn(!Closes(sent), [], events + Meaning(sent))
    decreases |sent|
  {
    hide Encode, Reaction, Consume;
    if sent == [] {
      ConsumeNothing(events);
    } else {
      var s, rest := sent[0], sent[1..];
      ConsumeFirst(events, s, Wire(rest));
      if !IsClose(s) {
        ConsumeWire(events + EventsOf(s), rest);
      }
    }
  }

  /**
   Any frames the encoder builds, sent over TCP and read back in any chunks, make
   the receiver do exactly what they mean, and leave nothing in its buffer.
   */
  lemma SentThenReceived(sent: seq<Sent>, chunks: seq<Bytes>)
    requires Concat(chunks) == Wire(sent)
    ensures FeedAll(Fresh, chunks) == Conn(!Closes(sent), [], Meaning(sent))
  {
    hide Encode, Reaction, Xor;
    ChunkingIsInvisible(Fresh, chunks);
    ConsumeWire([], sent);
    assert [] + Wire(sent) == Wire(sent);
    assert [] + Meaning(sent) == Meaning(sent);
  }

  // ------------------------------------------------------------ the client

  class WsClient {
    var frameBuffer: Bytes
    var connected: bool
    var events: seq<Event>

    ghost function State(): Conn
      reads this
    {
      Conn(connected, frameBuffer, events)
    }

    /** The state right after a successful handshake. */
    constructor ()
      ensures State() == Fresh
    {
      frameBuffer, connected, events := [], true, [];
    }

    method HandleTcpData(data: Bytes)
      requires connected
      modifies this
      ensures State() == Feed(old(State()), data)
    {
      frameBuffer := frameBuffer + data;
      ConsumeFrames();
    }

    method CloseOnPoller()
      modifies this
      ensures State() == Shut(old(State()))
    {
      connected, frameBuffer, events := false, [], events + [Closed];
    }

    method ConsumeFrames()
      requires connected
      modifies this
      ensures State() == Consume(old(State()))
    {
      while |frameBuffer| >= 2
        invariant connected
        invariant Consume(State()) == Consume(old(State()))
        decreases |frameBuffer|
      {
        var parsed := ParseFront();
        match parsed {
          case More =>
            return;
          case Refused =>
            CloseOnPoller();
            return;
          case Frame(fin, opcode, decoded, used) =>
            ghost var next := AfterFrame(State(), parsed);
            if opcode == OP_CLOSE {
              CloseOnPoller();
              return;
            }
            frameBuffer := frameBuffer[used..];
            if opcode == OP_PING {
              events := events + [SendPong(decoded)];
            } else if (opcode == OP_TEXT || opcode == OP_CONTINUATION) && fin {
              events := events + [Deliver(decoded)];
            }
            assert State() == next;
        }
      }
    }

    /** The length checks at the front of the loop body. */
    method ParseFront() returns (parsed: Parsed)
      requires |frameBuffer| >= 2
      ensures parsed == Parse(frameBuffer)
    {
      hide ParseBody;
      var short := frameBuffer[1] % 128;
      if short == 126 {
        if |frameBuffer| < 4 {
          return More;
        }
        parsed := TakePayload(4, Wide(frameBuffer[2], frameBuffer[3]));
      } else if short == 127 {
        parsed := Refused;
      } else {
        parsed := TakePayload(2, short);
      }
    }

    /** The payload behind the header, copied out of the buffer when all of it is there. */
    method TakePayload(header: nat, payloadLen: nat) returns (parsed: Parsed)
      requires 2 <= header <= |frameBuffer|
      ensures parsed == ParseBody(frameBuffer, header, payloadLen)
    {
      hide Xor;
      var masked := frameBuffer[1] >= 0x80;
      var maskLen := if masked then 4 else 0;
      var used := header + maskLen + payloadLen;
      if |frameBuffer| < used {
        return More;
      }
      var decoded := Decode(masked, frameBuffer[header..header + maskLen], frameBuffer[header + maskLen..used]);
      parsed := Frame(frameBuffer[0] >= 0x80, frameBuffer[0] % 16, decoded, used);
    }

    /** The unmasking loop. */
    method Decode(masked: bool, mask: Bytes, payload: Bytes) returns (decoded: Bytes)
      requires masked ==> |mask| == 4
      ensures decoded == if masked then Masked(mask, payload) else payload
    {
      hide Xor;
      decoded := [];
      for i := 0 to |payload|
        invariant |decoded| == i
        invariant forall k :: 0 <= k < i ==> decoded[k] == if masked then Xor(payload[k], mask[k % 4]) else payload[k]
      {
        decoded := decoded + [if masked then Xor(payload[i], mask[i % 4]) else payload[i]];
      }
    }

    /** Hands a frame to the socket, which answers `sent`; a payload over 65535 bytes is refused before. */
    method SendFrame(opcode: byte, data: Bytes, mask: Bytes, sent: bool) returns (ok: bool, frame: Bytes)
      requires |mask| == 4
      ensures frame == if connected && |data| <= MAX_PAYLOAD then Encode(opcode, mask, data) else []
      ensures ok == (frame != [] && sent)
    {
      hide Xor;
      if !connected || |data| > MAX_PAYLOAD {
        return false, [];
      }
      frame := [0x80 + opcode % 16];
      if |data| < 126 {
        frame := frame + [0x80 + |data|];
      } else {
        frame := frame + [0x80 + 126] + [|data| / 256] + [|data| % 256];
      }
      frame := frame + mask;
      ghost var head := frame;
      assert head == Head(opcode, |data|) + mask;
      for i := 0 to |data|
        invariant frame == head + Masked(mask, data)[..i]
      {
        frame := frame + [Xor(data[i], mask[i % 4])];
        assert Masked(mask, data)[..i + 1] == Masked(mask, data)[..i] + [Xor(data[i], mask[i % 4])];
      }
      assert Masked(mask, data)[..|data|] == Masked(mask, data);
      ok := sent;
    }
  }
}
