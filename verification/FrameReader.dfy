/**
 The frame reader: length-prefixed frames read into buffers borrowed from a shared pool. A frame is a
 view of its buffer until it is released; what outlives it must be a copy.
 */
module FrameReader {
  import opened Bits
  import opened Options
  import opened Streams
  import opened Frames
  import opened FrameWriter
  import Address

  /**
   Writer and reader together, over any connection: while no failed write has lost bytes, the reader
   can have got a prefix of the accepted frames, in the order of their writes, and once the batch is
   empty all of them. Over a connection that does not fail, those are all frames of possible size.
   */
  lemma ReaderFollowsWriter(sink: Sink, steps: seq<Step>, s: State)
    requires sink.wire == [] && Run(Start(sink), steps) == Some(s)
    ensures s.lost == 0 ==> AllFrames(s.sink.wire) <= s.accepted
    ensures s.lost == 0 && s.batch == [] ==> AllFrames(s.sink.wire) == s.accepted
    ensures Reliable(sink) ==> s.lost == 0 && s.accepted == Bodies(steps)
  {
    WriterRefines(sink, steps, s);
    if Reliable(sink) {
      ReliableAcceptsAll(Start(sink), steps);
      assert [] + Bodies(steps) == Bodies(steps);
    }
    if s.lost == 0 {
      assert [] + EncodeAll(s.accepted) == EncodeAll(s.accepted);
      PrefixIsRead(s.accepted, s.sink.wire, s.batch);
      if s.batch == [] {
        assert s.sink.wire == EncodeAll(s.accepted) + [];
        ReaderInverse(s.accepted, []);
        assert s.accepted + AllFrames([]) == s.accepted;
      }
    }
  }

  // ----- The buffers

  type Buffer = array<Byte>

  const BUFFER_SIZE: nat := MAX_FRAME + 4

  /** The buffers free for use, in no particular order, and those lent out. */
  class BufferPool {
    var free: seq<Buffer>
    ghost var lent: set<Buffer>

    ghost function Free(): set<Buffer>
      reads this
    {
      set b | b in free
    }

    /** No buffer is twice in the pool, or in the pool and lent out. */
    ghost predicate Valid()
      reads this
    {
      && (forall i, j :: 0 <= i < j < |free| ==> free[i] != free[j])
      && (forall b <- free :: b !in lent && b.Length == BUFFER_SIZE)
      && (forall b <- lent :: b.Length == BUFFER_SIZE)
    }

    constructor ()
      ensures Valid() && free == [] && lent == {}
    {
      free, lent := [], {};
    }

    method Get() returns (b: Buffer)
      requires Valid()
      modifies this
      ensures Valid() && b.Length == BUFFER_SIZE
      ensures b !in old(lent) && lent == old(lent) + {b}
      ensures (b in old(Free()) && Free() == old(Free()) - {b}) || (fresh(b) && free == old(free))
    {
      if free == [] {
        b := new Byte[BUFFER_SIZE](_ => 0);
      } else {
        b := free[|free| - 1];
        free := free[..|free| - 1];
      }
      lent := lent + {b};
    }

    /** Only a buffer that is lent out can be returned, so none is returned twice. */
    method Put(b: Buffer)
      requires Valid() && b in lent
      modifies this
      ensures Valid() && lent == old(lent) - {b} && Free() == old(Free()) + {b}
    {
      free := free + [b];
      lent := lent - {b};
    }
  }

  class PooledFrame {
    var typ: Byte
    var size: nat
    var buf: array?<Byte>
    const pool: BufferPool

    /** A frame with a buffer has borrowed it. */
    ghost predicate Valid()
      reads this, pool
    {
      && pool.Valid()
      && (buf != null ==> buf in pool.lent && 1 <= size <= MAX_FRAME)
      && (buf == null ==> typ == 0 && size == 0)
    }

    /** The frame's view of its buffer: the type, then the payload. */
    ghost function View(): seq<Byte>
      reads this, pool, buf
      requires Valid()
    {
      if buf == null then [0] else [typ] + buf[1..size]
    }

    constructor (typ: Byte, size: nat, buf: array?<Byte>, pool: BufferPool)
      ensures this.typ == typ && this.size == size && this.buf == buf && this.pool == pool
    {
      this.typ, this.size, this.buf, this.pool := typ, size, buf, pool;
    }

    /** Returns the buffer; a second release does nothing. */
    method Release()
      requires Valid()
      modifies this, pool
      ensures pool.Valid() && buf == null
      ensures old(buf) == null ==> pool.lent == old(pool.lent) && pool.free == old(pool.free)
      ensures old(buf) != null ==>
                && pool.lent == old(pool.lent) - {old(buf)}
                && pool.Free() == old(pool.Free()) + {old(buf)}
    {
      if buf != null {
        pool.Put(buf);
        buf := null;
      }
    }

    function Payload(): (p: seq<Byte>)
      reads this, pool, buf
      requires Valid()
      ensures [typ] + p == View()
    {
      if buf == null then [] else buf[1..size]
    }

    /** A copy of the last `n` bytes of the payload that the next use of the buffer cannot change. */
    method CopyTail(n: nat) returns (copy: array<Byte>)
      requires Valid() && n <= |Payload()|
      ensures fresh(copy) && copy[..] == Payload()[|Payload()| - n..]
    {
      var payload := Payload();
      copy := new Byte[n](i requires 0 <= i < n => payload[|payload| - n + i]);
    }
  }

  class FrameReader {
    const r: Reader
    const header: array<Byte>
    const pool: BufferPool

    ghost predicate Valid()
      reads this, pool
    {
      header.Length == 2 && pool.Valid() && header !in pool.lent && header !in pool.Free()
    }

    constructor (r: Reader, pool: BufferPool)
      requires pool.Valid()
      ensures Valid() && fresh(header) && this.r == r && this.pool == pool
    {
      this.r, this.pool := r, pool;
      header := new Byte[2](_ => 0);
    }

    /**
     Reads one frame into a borrowed buffer. At the end of the stream, also in the middle of a frame,
     nothing stays borrowed.
     */
    method ReadTypedFramePooled() returns (frame: PooledFrame?)
      requires Valid()
      modifies r, header, pool, pool.free
      ensures Valid()
      ensures fresh(pool.Free() - old(pool.Free()))
      ensures old(pool.Free() + pool.lent) <= pool.Free() + pool.lent
      ensures match Parsed(old(r.Pending()))
        case Short =>
          frame == null && r.Pending() == [] && pool.lent == old(pool.lent)
        case Blank(rest) =>
          && frame != null && fresh(frame) && frame.pool == pool && frame.Valid() && frame.buf == null
          && r.Pending() == rest && pool.lent == old(pool.lent)
        case Got(body, rest) =>
          && frame != null && fresh(frame) && frame.pool == pool && frame.Valid() && frame.buf != null
          && frame.View() == body && r.Pending() == rest
          && frame.buf !in old(pool.lent) && pool.lent == old(pool.lent) + {frame.buf}
          && (frame.buf in old(pool.Free()) || fresh(frame.buf)) && frame.buf !in pool.Free()
    {
      ghost var s := r.Pending();
      var ok := r.ReadInto(header, 2);
      if !ok {
        return null;
      }
      var (high: nat, low: nat) := (header[0], header[1]);
      assert header[..2][0] == s[0] && header[..2][1] == s[1];
      var length := high * 256 + low;
      if length == 0 {
        frame := new PooledFrame(0, 0, null, pool);
        return;
      }
      var buf := pool.Get();
      ok := r.ReadInto(buf, length);
      if !ok {
        pool.Put(buf);
        return null;
      }
      assert buf[..length] == s[2..2 + length];
      frame := new PooledFrame(buf[0], length, buf, pool);
      assert frame.View() == buf[..length];
    }
  }

  // ----- The frame loop

  const FRAME_CONNECT: Byte := 0x01
  const FRAME_UDP: Byte := 0x07
  const FRAME_UDP_CLOSE: Byte := 0x0A

  /** The client and the server read frames in the same way and differ in what they do with them. */
  datatype Side = ClientSide | ServerSide

  /** What a frame is for: a datagram of an association, its closing by the peer, or a copy for a consumer. */
  datatype Kind = Datagram(assoc: Uint16, source: Address.Address) | Closing(assoc: Uint16) | Plain(typ: Byte)

  /** What the loop passes on, and to whom. */
  datatype Event = Event(kind: Kind, data: seq<Byte>)

  /** The closing of an association, decoded in place; one that cannot be decoded is dropped. */
  function Closings(payload: seq<Byte>): seq<Event> {
    if |payload| == 2 then [Event(Closing(Address.Uint(payload, 0)), [])] else []
  }

  /** A datagram with the end of its payload as data; one that cannot be decoded is dropped. */
  function Datagrams(payload: seq<Byte>): seq<Event> {
    match Address.DecodeUdpFrame(payload)
    case None => []
    case Some((assoc, source, data)) => [Event(Datagram(assoc, source), data)]
  }

  /**
   One frame. The client decodes datagrams and keeps everything else for its consumers; the server
   copies connects and datagrams for their handlers and ignores what it does not know.
   */
  function Handled(side: Side, body: Body): seq<Event> {
    var payload := body[1..];
    if body[0] == FRAME_UDP_CLOSE then Closings(payload)
    else if side.ServerSide? then
      if body[0] == FRAME_CONNECT || body[0] == FRAME_UDP then [Event(Plain(body[0]), payload)] else []
    else if body[0] == FRAME_UDP then Datagrams(payload)
    else [Event(Plain(body[0]), payload)]
  }

  function AllHandled(side: Side, bodies: seq<Body>): seq<Event> {
    if bodies == [] then [] else Handled(side, bodies[0]) + AllHandled(side, bodies[1..])
  }

  /** The server's datagram reaches its association with source and data, exactly if it is well formed. */
  lemma DatagramIsHandled(assoc: Uint16, source: Address.Address, data: seq<Byte>, body: Body)
    requires body[0] == FRAME_UDP
    ensures Handled(ClientSide, body) == [Event(Datagram(assoc, source), data)] <==>
            Address.WellFormed(source) && body[1..] == Address.EncodeUdpFrame(assoc, source, data)
  {
    Address.UdpExactly(body[1..], assoc, source, data);
  }

  lemma ClosingIsHandled(side: Side, assoc: Uint16, body: Body)
    requires body[0] == FRAME_UDP_CLOSE
    ensures Handled(side, body) == [Event(Closing(assoc), [])] <==> body[1..] == Address.Big(assoc)
  {
    if |body| == 3 {
      Address.BigUint(body[1..], 0, assoc);
      assert body[1..][0..2] == body[1..];
    }
  }

  /** The client keeps a frame of any other type for its consumers, whole. */
  lemma PlainIsKept(body: Body)
    requires body[0] != 0x07 && body[0] != 0x0A
    ensures Handled(ClientSide, body) == [Event(Plain(body[0]), body[1..])]
  {
  }

  /** The server passes connects and datagrams on whole, and nothing of the other types but closings. */
  lemma ServerPassesOn(body: Body)
    requires body[0] != 0x0A
    ensures Handled(ServerSide, body)
         == if body[0] == 0x01 || body[0] == 0x07 then [Event(Plain(body[0]), body[1..])] else []
  {
  }

  /** Neither closings nor, for a client, datagrams. */
  predicate AllPlain(bodies: seq<Body>) {
    forall i :: 0 <= i < |bodies| ==> bodies[i][0] != 0x07 && bodies[i][0] != 0x0A
  }

  /** From a stream of such frames the client keeps every frame, in order. */
  lemma {:induction false} AllPlainAreKept(bodies: seq<Body>)
    requires AllPlain(bodies)
    ensures var events := AllHandled(ClientSide, bodies);
      |events| == |bodies| && forall i :: 0 <= i < |bodies| ==> events[i] == Event(Plain(bodies[i][0]), bodies[i][1..])
  {
    if bodies != [] {
      PlainIsKept(bodies[0]);
      AllPlainAreKept(bodies[1..]);
    }
  }

  /** What the server passes on from a stream: its connects and datagrams, in order. */
  function Requests(bodies: seq<Body>): seq<Body> {
    if bodies == [] then []
    else (if bodies[0][0] == 0x01 || bodies[0][0] == 0x07 then [bodies[0]] else []) + Requests(bodies[1..])
  }

  lemma {:induction false} AllRequestsArePassedOn(bodies: seq<Body>)
    requires forall i :: 0 <= i < |bodies| ==> bodies[i][0] != 0x0A
    ensures var (events, requests) := (AllHandled(ServerSide, bodies), Requests(bodies));
      && |events| == |requests|
      && forall i :: 0 <= i < |requests| ==> events[i] == Event(Plain(requests[i][0]), requests[i][1..])
  {
    if bodies != [] {
      ServerPassesOn(bodies[0]);
      AllRequestsArePassedOn(bodies[1..]);
    }
  }

  /** The data of a decoded datagram is the end of its payload. */
  lemma DataIsTail(payload: seq<Byte>)
    requires Address.DecodeUdpFrame(payload).Some?
    ensures var data := Address.DecodeUdpFrame(payload).value.2;
      |data| <= |payload| && data == payload[|payload| - |data|..]
  {
    var (assoc, source, data) := Address.DecodeUdpFrame(payload).value;
    Address.UdpExactly(payload, assoc, source, data);
    assert payload == Address.Big(assoc) + Address.EncodeAddress(source) + data;
  }

  /** What a consumer keeps: the data in memory of its own. */
  datatype Delivered = Delivered(kind: Kind, data: array<Byte>)

  ghost function Value(d: Delivered): Event
    reads d.data
  {
    Event(d.kind, d.data[..])
  }

  ghost function Values(out: seq<Delivered>): seq<Event>
    reads set d | d in out :: d.data
  {
    seq(|out|, i requires 0 <= i < |out| reads set d | d in out :: d.data => Value(out[i]))
  }

  /** Decodes a datagram and copies its data out of the buffer. */
  method CopyDatagram(frame: PooledFrame) returns (d: Option<Delivered>)
    requires frame.Valid()
    ensures Datagrams(frame.Payload()) == if d.Some? then [Value(d.value)] else []
    ensures d.Some? ==> fresh(d.value.data)
  {
    var payload := frame.Payload();
    var decoded := Address.DecodeUdpFrame(payload);
    if decoded == None {
      return None;
    }
    DataIsTail(payload);
    hide Address.DecodeUdpFrame;
    var (assoc, source, rest) := decoded.value;
    var data := frame.CopyTail(|rest|);
    return Some(Delivered(Datagram(assoc, source), data));
  }

  /** The client's switch on the type of a frame. */
  method Dispatch(frame: PooledFrame, ghost body: Body) returns (d: Option<Delivered>)
    requires frame.Valid() && frame.View() == body
    ensures d.Some? ==> fresh(d.value.data) && Handled(ClientSide, body) == [Value(d.value)]
    ensures d.None? ==> Handled(ClientSide, body) == []
  {
    hide Datagrams, Address.Uint;
    var payload := frame.Payload();
    assert body[1..] == payload;
    if frame.typ == FRAME_UDP {
      d := CopyDatagram(frame);
      return;
    }
    if frame.typ == FRAME_UDP_CLOSE {
      if |payload| != 2 {
        return None;
      }
      var nothing := frame.CopyTail(0);
      return Some(Delivered(Closing(Address.Uint(payload, 0)), nothing));
    }
    var copy := frame.CopyTail(|payload|);
    return Some(Delivered(Plain(frame.typ), copy));
  }

  /** The server's switch; it also counts the bytes of packets, which are not kept. */
  method ServerDispatch(frame: PooledFrame, ghost body: Body) returns (d: Option<Delivered>)
    requires frame.Valid() && frame.View() == body
    ensures d.Some? ==> fresh(d.value.data) && Handled(ServerSide, body) == [Value(d.value)]
    ensures d.None? ==> Handled(ServerSide, body) == []
  {
    var payload := frame.Payload();
    assert body[1..] == payload;
    if frame.typ == FRAME_CONNECT || frame.typ == FRAME_UDP {
      var copy := frame.CopyTail(|payload|);
      return Some(Delivered(Plain(frame.typ), copy));
    }
    if frame.typ == FRAME_UDP_CLOSE && |payload| == 2 {
      var nothing := frame.CopyTail(0);
      return Some(Delivered(Closing(Address.Uint(payload, 0)), nothing));
    }
    return None;
  }

  /** One turn of the frame loop: what is passed on is copied before the frame's buffer goes back. */
  method NextFrame(reader: FrameReader, side: Side) returns (more: bool, d: Option<Delivered>)
    requires reader.Valid()
    modifies reader.r, reader.header, reader.pool, reader.pool.free
    ensures reader.Valid() && reader.pool.lent == old(reader.pool.lent)
    ensures fresh(reader.pool.Free() - old(reader.pool.Free())) && old(reader.pool.Free()) <= reader.pool.Free()
    ensures !more ==> AllFrames(old(reader.r.Pending())) == [] && reader.r.Pending() == [] && d == None
    ensures more ==>
              && AllHandled(side, AllFrames(old(reader.r.Pending())))
                 == (if d.Some? then [Value(d.value)] else []) + AllHandled(side, AllFrames(reader.r.Pending()))
              && |reader.r.Pending()| < |old(reader.r.Pending())|
    ensures d.Some? ==> fresh(d.value.data) && d.value.data !in reader.pool.Free() + reader.pool.lent
  {
    hide Handled;
    var frame := reader.ReadTypedFramePooled();
    if frame == null {
      return false, None;
    }
    ghost var body: Body := frame.View();
    assert AllFrames(old(reader.r.Pending())) == [body] + AllFrames(reader.r.Pending());
    match side {
      case ClientSide => d := Dispatch(frame, body);
      case ServerSide => d := ServerDispatch(frame, body);
    }
    frame.Release();
    more := true;
  }

  /**
   The frame loop. However often the buffers are reused, what was passed on keeps the values of the
   frames on the wire, and at the end every borrowed buffer has been returned.
   */
  method FrameLoop(reader: FrameReader, side: Side) returns (out: seq<Delivered>)
    requires reader.Valid()
    modifies reader.r, reader.header, reader.pool, reader.pool.free
    ensures reader.Valid() && reader.pool.lent == old(reader.pool.lent)
    ensures old(reader.pool.Free()) <= reader.pool.Free() && reader.r.Pending() == []
    ensures Values(out) == AllHandled(side, AllFrames(old(reader.r.Pending())))
    ensures forall d <- out :: d.data !in reader.pool.Free() + reader.pool.lent
    ensures var bodies := AllFrames(old(reader.r.Pending()));
            side.ClientSide? && AllPlain(bodies) ==>
              && |out| == |bodies|
              && forall i :: 0 <= i < |bodies| ==>
                   out[i].kind == Plain(bodies[i][0]) && out[i].data[..] == bodies[i][1..]
  {
    hide AllHandled, AllFrames, AllPlain;
    out := [];
    ghost var all := AllHandled(side, AllFrames(reader.r.Pending()));
    while true
      invariant reader.Valid() && reader.pool.lent == old(reader.pool.lent)
      invariant fresh(reader.pool.Free() - old(reader.pool.Free())) && old(reader.pool.Free()) <= reader.pool.Free()
      invariant forall d <- out :: fresh(d.data) && d.data !in reader.pool.Free() + reader.pool.lent
      invariant all == Values(out) + AllHandled(side, AllFrames(reader.r.Pending()))
      decreases |reader.r.Pending()|
    {
      ghost var kept := Values(out);
      var more, d := NextFrame(reader, side);
      assert Values(out) == kept;
      if !more {
        NothingHandled(side);
        OutputIsPlain(side, AllFrames(old(reader.r.Pending())), out);
        return;
      }
      if d.Some? {
        assert Values(out + [d.value]) == kept + [Value(d.value)];
        out := out + [d.value];
      }
    }
  }

  lemma OutputIsPlain(side: Side, bodies: seq<Body>, out: seq<Delivered>)
    requires Values(out) == AllHandled(side, bodies)
    ensures side.ClientSide? && AllPlain(bodies) ==>
              && |out| == |bodies|
              && forall i :: 0 <= i < |bodies| ==>
                   out[i].kind == Plain(bodies[i][0]) && out[i].data[..] == bodies[i][1..]
  {
    if side.ClientSide? && AllPlain(bodies) {
      AllPlainAreKept(bodies);
      forall i | 0 <= i < |bodies|
        ensures out[i].kind == Plain(bodies[i][0]) && out[i].data[..] == bodies[i][1..]
      {
        assert Values(out)[i] == Value(out[i]);
      }
    }
  }

  lemma NothingHandled(side: Side)
    ensures AllFrames([]) == [] && AllHandled(side, []) == []
  {
  }
}
