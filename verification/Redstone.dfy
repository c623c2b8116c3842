/**
 The tunnel shaped like a Minecraft session: a handshake and a login, then a byte stream cut into
 packets. All packets are read through one buffered reader, so that bytes arriving together with
 the login are still there for the tunnel.
 */
module Redstone {
  import opened Bits
  import opened Options
  import opened Streams
  import opened Varint

  const TUNNEL_ID: Int32 := 0x17
  const MAX_PACKET: nat := 2 * 1024 * 1024
  const CHUNK_SIZE: nat := 16 * 1024

  // ----- Packets

  function Body(id: int, data: seq<Byte>): seq<Byte> { Encode(Uint32(id)) + data }

  /** A packet on the wire: the length of the body, then the body. */
  function Packet(id: int, data: seq<Byte>): seq<Byte> {
    Encode(Uint32(|Body(id, data)|)) + Body(id, data)
  }

  /** What reading one packet from the bytes `s` yields, and the bytes left after it. */
  function Parsed(s: seq<Byte>): (Option<(Int32, seq<Byte>)>, seq<Byte>) {
    ScanBounds(s, MAX_BYTES);
    match Decoded(s)
    case None => (None, s[Min(MAX_BYTES, |s|)..])
    case Some((length, n)) =>
      var rest := s[n..];
      if length <= 0 || length > MAX_PACKET then (None, rest)
      else if |rest| < length then (None, [])
      else (Split(rest[..length]), rest[length..])
  }

  /** The packet id and the data after it. */
  function Split(body: seq<Byte>): Option<(Int32, seq<Byte>)> {
    ScanBounds(body, MAX_BYTES);
    match Decoded(body)
    case None => None
    case Some((id, n)) => Some((id, body[n..]))
  }

  method MakePacket(id: int, data: seq<Byte>) returns (out: seq<Byte>)
    ensures out == Packet(id, data)
  {
    var pkt := Append([], id);
    pkt := pkt + data;
    assert pkt == Body(id, data);
    out := Append([], |pkt|);
    out := out + pkt;
  }

  method ReadPacket(br: Reader) returns (r: Option<(Int32, seq<Byte>)>)
    modifies br
    ensures r == Parsed(old(br.Pending())).0
    ensures br.Pending() == Parsed(old(br.Pending())).1
  {
    ScanBounds(br.Pending(), MAX_BYTES);
    var length := Varint.ReadFrom(br);
    if length == None || length.value <= 0 || length.value > MAX_PACKET {
      return None;
    }
    var data := br.ReadFull(length.value);
    if data == None {
      return None;
    }
    ScanBounds(data.value, MAX_BYTES);
    var id := Varint.Decode(data.value);
    if id == None {
      return None;
    }
    return Some((id.value.0, data.value[id.value.1..]));
  }

  lemma SplitBody(id: Int32, data: seq<Byte>)
    ensures Split(Body(id, data)) == Some((id, data))
  {
    RoundTrip(id, data);
  }

  /** A packet of a size the reader accepts is read back, and the bytes after it are left. */
  lemma ReadBack(id: Int32, data: seq<Byte>, tail: seq<Byte>)
    requires |Body(id, data)| <= MAX_PACKET
    ensures Parsed(Packet(id, data) + tail) == (Some((id, data)), tail)
  {
    var body := Body(id, data);
    RoundTrip(|body|, body + tail);
    assert Packet(id, data) + tail == Encode(Uint32(|body|)) + (body + tail);
    assert (body + tail)[..|body|] == body && (body + tail)[|body|..] == tail;
    SplitBody(id, data);
  }

  lemma ParsedIsSuffix(s: seq<Byte>)
    ensures Parsed(s).0.Some? ==> |Parsed(s).0.value.1| < MAX_PACKET && |Parsed(s).1| < |s|
  {
    ScanBounds(s, MAX_BYTES);
    if Parsed(s).0.Some? {
      var (length, n) := Decoded(s).value;
      ScanBounds(s[n..][..length], MAX_BYTES);
    }
  }

  /** A larger packet is refused or, when its length wraps, cut short. */
  lemma Oversized(id: Int32, data: seq<Byte>, tail: seq<Byte>)
    requires |Body(id, data)| > MAX_PACKET
    ensures var (packet, rest) := Parsed(Packet(id, data) + tail); packet.None? || |rest| > |tail|
  {
    var size := Uint32(|Body(id, data)|);
    EncodeFits(size);
    ScanEncode(size, Body(id, data) + tail, MAX_BYTES);
    assert Packet(id, data) + tail == Encode(size) + (Body(id, data) + tail);
  }

  /** Exactly the packets whose body is at most 2 MiB survive the trip, whatever follows them. */
  lemma PacketRoundTrip(id: Int32, data: seq<Byte>, tail: seq<Byte>)
    ensures Parsed(Packet(id, data) + tail) == (Some((id, data)), tail) <==> |Body(id, data)| <= 2097152
  {
    if |Body(id, data)| <= MAX_PACKET {
      ReadBack(id, data, tail);
    } else {
      Oversized(id, data, tail);
    }
  }

  // ----- The byte stream over packets

  /** The packets that one write of `p` is cut into. */
  function Packets(p: seq<Byte>): seq<seq<Byte>>
    decreases |p|
  {
    if p == [] then []
    else if |p| <= CHUNK_SIZE then [Packet(TUNNEL_ID, p)]
    else [Packet(TUNNEL_ID, p[..CHUNK_SIZE])] + Packets(p[CHUNK_SIZE..])
  }

  /** Writes go out in packets with the id 0x17 of 16 KiB each, but for the last, which has what is left. */
  lemma PacketsOfChunks(p: seq<Byte>)
    ensures Packets(p) ==
              if p == [] then []
              else [Packet(0x17, p[..Min(|p|, 16384)])] + Packets(p[Min(|p|, 16384)..])
  {
    if 0 < |p| <= 16384 {
      assert p[..|p|] == p && p[|p|..] == [];
    }
  }

  /** The bytes that reads still deliver from a stream of packets, until it ends or is malformed. */
  function Payloads(s: seq<Byte>): seq<Byte>
    decreases |s|
  {
    ParsedIsSuffix(s);
    match Parsed(s)
    case (None, _) => []
    case (Some((_, data)), rest) => data + Payloads(rest)
  }

  class Conn {
    const br: Reader
    var sink: Sink
    var rbuf: seq<Byte>

    constructor (br: Reader, sink: Sink)
      ensures this.br == br && this.sink == sink && rbuf == []
    {
      this.br, this.sink, this.rbuf := br, sink, [];
    }

    ghost function Unread(): seq<Byte>
      reads this, br
    {
      rbuf + Payloads(br.Pending())
    }

    /**
     A read delivers the next unread bytes, at most as many as fit, and none only into an empty
     buffer. It fails only when nothing is left to deliver.
     */
    method Read(size: nat) returns (r: Option<seq<Byte>>)
      modifies this, br
      ensures sink == old(sink)
      ensures r.Some? ==> old(Unread()) == r.value + Unread() && |r.value| <= size
      ensures r.Some? && size > 0 ==> r.value != []
      ensures r.None? ==> old(Unread()) == []
    {
      while rbuf == []
        invariant Unread() == old(Unread()) && sink == old(sink)
        decreases |br.Pending()|
      {
        ParsedIsSuffix(br.Pending());
        var packet := ReadPacket(br);
        if packet == None {
          return None;
        }
        rbuf := packet.value.1;
      }
      var n := Min(size, |rbuf|);
      r := Some(rbuf[..n]);
      rbuf := rbuf[n..];
    }

    /** Sends the packets of `p`. A failed write has sent the first `count` and at most part of the next. */
    method Write(p: seq<Byte>) returns (total: nat, ok: bool, ghost count: nat)
      modifies `sink
      ensures ok ==> total == |p| && sink.wire == old(sink.wire) + Flatten(Packets(p))
      ensures !ok ==>
                && total == CHUNK_SIZE * count < |p|
                && Interrupted(Packets(p), count, old(sink.wire), sink.wire)
    {
      hide Packet;
      total := 0;
      var rest := p;
      ghost var done := [];
      while rest != []
        invariant total + |rest| == |p| && (rest != [] ==> total == CHUNK_SIZE * |done|)
        invariant Packets(p) == done + Packets(rest)
        invariant sink.wire == old(sink.wire) + Flatten(done)
      {
        var chunk, packet := NextPacket(rest);
        FlattenNext(old(sink.wire), done, packet, Packets(rest[|chunk|..]));
        Regroup(done, packet, Packets(rest[|chunk|..]));
        var accepted := Send(packet);
        if !accepted {
          return total, false, |done|;
        }
        total := total + |chunk|;
        rest := rest[|chunk|..];
        done := done + [packet];
      }
      assert done + Packets([]) == done;
      return total, true, |done|;
    }

    /** One write of the connection below, which takes only part of it when it fails. */
    method Send(packet: seq<Byte>) returns (ok: bool)
      modifies `sink
      ensures ok ==> sink.wire == old(sink.wire) + packet
      ensures !ok ==> old(sink.wire) <= sink.wire <= old(sink.wire) + packet
    {
      ok := sink.Accepts();
      assert packet[..|packet|] == packet;
      sink := sink.Write(packet);
    }
  }

  /** The wire holds the first `n` packets and at most a part of the next. */
  ghost predicate Interrupted(packets: seq<seq<Byte>>, n: nat, start: seq<Byte>, wire: seq<Byte>) {
    n < |packets| && start + Flatten(packets[..n]) <= wire <= start + Flatten(packets[..n + 1])
  }

  method NextPacket(p: seq<Byte>) returns (chunk: seq<Byte>, packet: seq<Byte>)
    requires p != []
    ensures 0 < |chunk| <= |p| && (|chunk| == |p| || |chunk| == CHUNK_SIZE)
    ensures Packets(p) == [packet] + Packets(p[|chunk|..])
  {
    chunk := p;
    if |chunk| > CHUNK_SIZE {
      chunk := chunk[..CHUNK_SIZE];
    }
    packet := MakePacket(TUNNEL_ID, chunk);
  }

  /** A packet the reader accepts contributes its data to what reads deliver. */
  lemma PacketIsDelivered(id: Int32, data: seq<Byte>, tail: seq<Byte>)
    requires |Body(id, data)| <= MAX_PACKET
    ensures Payloads(Packet(id, data) + tail) == data + Payloads(tail)
  {
    ReadBack(id, data, tail);
  }

  /** What was written, followed by any other packets, is what the reader delivers first. */
  lemma {:induction false} PacketsAreDelivered(p: seq<Byte>, tail: seq<Byte>)
    ensures Payloads(Flatten(Packets(p)) + tail) == p + Payloads(tail)
    decreases |p|
  {
    if p == [] {
      assert Flatten(Packets(p)) + tail == tail;
      assert p + Payloads(tail) == Payloads(tail);
    } else {
      var n := Min(|p|, CHUNK_SIZE);
      FirstIsDelivered(p, tail);
      PacketsAreDelivered(p[n..], tail);
      Splice(p, n, Payloads(Flatten(Packets(p)) + tail), Payloads(Flatten(Packets(p[n..])) + tail), Payloads(tail));
    }
  }

  lemma FirstIsDelivered(p: seq<Byte>, tail: seq<Byte>)
    requires p != []
    ensures var n := Min(|p|, CHUNK_SIZE);
      Payloads(Flatten(Packets(p)) + tail) == p[..n] + Payloads(Flatten(Packets(p[n..])) + tail)
  {
    var n := Min(|p|, CHUNK_SIZE);
    var rest := Flatten(Packets(p[n..])) + tail;
    assert Flatten(Packets(p)) + tail == Packet(TUNNEL_ID, p[..n]) + rest by {
      assert Packets(p) == [Packet(TUNNEL_ID, p[..n])] + Packets(p[n..]) by { assert p[..|p|] == p; }
    }
    PacketIsDelivered(TUNNEL_ID, p[..n], rest);
  }

  lemma Splice(p: seq<Byte>, n: nat, whole: seq<Byte>, middle: seq<Byte>, end: seq<Byte>)
    requires n <= |p| && whole == p[..n] + middle && middle == p[n..] + end
    ensures whole == p + end
  {
  }

  /** The wire after any sequence of completed writes. */
  function Written(writes: seq<seq<Byte>>): seq<Byte> {
    if writes == [] then [] else Flatten(Packets(writes[0])) + Written(writes[1..])
  }

  /** A whole conversation: the reader gets the concatenation of the writes, neither more nor less. */
  lemma {:induction false} WritesAreDelivered(writes: seq<seq<Byte>>)
    ensures Payloads(Written(writes)) == Flatten(writes)
  {
    if writes != [] {
      PacketsAreDelivered(writes[0], Written(writes[1..]));
      WritesAreDelivered(writes[1..]);
    }
  }

  // ----- Streams that end early

  lemma PartSuffix<T>(part: seq<T>, s: seq<T>, n: nat)
    requires part <= s && n <= |part|
    ensures part[n..] <= s[n..] && part[..n] == s[..n]
  {
  }

  /** A packet read from a part of a stream is the one read from the stream. */
  lemma ParsedOfPart(part: seq<Byte>, s: seq<Byte>)
    requires part <= s && Parsed(part).0.Some?
    ensures Parsed(s).0 == Parsed(part).0 && Parsed(part).1 <= Parsed(s).1
  {
    ScanBounds(part, MAX_BYTES);
    ScanOfPart(part, s, MAX_BYTES);
    var (length: int, n) := Decoded(part).value;
    PartSuffix(part, s, n);
    PartSuffix(part[n..], s[n..], length);
  }

  /** From a part of a stream reads deliver a prefix of what they deliver from the whole. */
  lemma {:induction false} PayloadsOfPart(part: seq<Byte>, s: seq<Byte>)
    requires part <= s
    ensures Payloads(part) <= Payloads(s)
    decreases |part|
  {
    ParsedIsSuffix(part);
    if Parsed(part).0.Some? {
      ParsedOfPart(part, s);
      PayloadsOfPart(Parsed(part).1, Parsed(s).1);
    }
  }

  /** The bytes that the first `n` packets of a write carry. */
  function Carried(p: seq<Byte>, n: nat): seq<Byte> { p[..Min(CHUNK_SIZE * n, |p|)] }

  lemma {:induction false} PacketsOfPart(p: seq<Byte>, n: nat)
    requires n <= |Packets(p)|
    ensures Packets(p)[..n] == Packets(Carried(p, n))
    decreases n
  {
    if n > 0 {
      if |p| <= CHUNK_SIZE {
        assert n == 1 && Carried(p, n) == p;
      } else {
        PacketsOfPart(p[CHUNK_SIZE..], n - 1);
        assert Carried(p, n) == p[..CHUNK_SIZE] + Carried(p[CHUNK_SIZE..], n - 1);
        CarriedHead(p, n);
      }
    }
  }

  lemma CarriedHead(p: seq<Byte>, n: nat)
    requires n > 0 && |p| > CHUNK_SIZE
    ensures Packets(Carried(p, n)) == [Packet(TUNNEL_ID, p[..CHUNK_SIZE])] + Packets(Carried(p[CHUNK_SIZE..], n - 1))
  {
    var c := Carried(p, n);
    assert c[..CHUNK_SIZE] == p[..CHUNK_SIZE] && c[CHUNK_SIZE..] == Carried(p[CHUNK_SIZE..], n - 1);
  }

  /** The wire after completed writes and the first `n` packets of another delivers what they carried. */
  lemma PartlyWritten(writes: seq<seq<Byte>>, p: seq<Byte>, n: nat)
    requires n <= |Packets(p)|
    ensures Payloads(Written(writes) + Flatten(Packets(p)[..n])) == Flatten(writes) + Carried(p, n)
  {
    PacketsOfPart(p, n);
    WrittenThen(writes, Flatten(Packets(p)[..n]));
    PacketsAreDelivered(Carried(p, n), []);
    assert Flatten(Packets(Carried(p, n))) + [] == Flatten(Packets(Carried(p, n)));
    assert Carried(p, n) + [] == Carried(p, n);
  }

  lemma {:induction false} WrittenThen(writes: seq<seq<Byte>>, tail: seq<Byte>)
    ensures Payloads(Written(writes) + tail) == Flatten(writes) + Payloads(tail)
  {
    hide Payloads, Packets;
    if writes == [] {
      assert Written(writes) + tail == tail;
    } else {
      var first, more := writes[0], writes[1..];
      assert Written(writes) + tail == Flatten(Packets(first)) + (Written(more) + tail);
      PacketsAreDelivered(first, Written(more) + tail);
      WrittenThen(more, tail);
    }
  }

  /** At any moment of any writes the peer has received a prefix of the bytes written, however the wire is cut. */
  lemma ReceivedIsPrefix(writes: seq<seq<Byte>>, wire: seq<Byte>)
    requires wire <= Written(writes)
    ensures Payloads(wire) <= Flatten(writes)
  {
    PayloadsOfPart(wire, Written(writes));
    WritesAreDelivered(writes);
  }

  /**
   After completed writes and one that failed, the peer receives a prefix of all bytes written: at
   least those of the completed writes and the total the failed one reported, and at most one chunk
   more.
   */
  lemma InterruptedIsPrefix(writes: seq<seq<Byte>>, p: seq<Byte>, count: nat, wire: seq<Byte>)
    requires CHUNK_SIZE * count < |p| && Interrupted(Packets(p), count, Written(writes), wire)
    ensures Flatten(writes) + p[..CHUNK_SIZE * count] <= Payloads(wire)
    ensures Payloads(wire) <= Flatten(writes) + p[..Min(CHUNK_SIZE * (count + 1), |p|)]
  {
    var packets := Packets(p);
    PartlyWritten(writes, p, count);
    PartlyWritten(writes, p, count + 1);
    PayloadsOfPart(Written(writes) + Flatten(packets[..count]), wire);
    PayloadsOfPart(wire, Written(writes) + Flatten(packets[..count + 1]));
  }

  /** When the failed write stopped between two packets, later writes are delivered after what it carried. */
  lemma WholePacketsCarryOn(writes: seq<seq<Byte>>, p: seq<Byte>, n: nat, more: seq<seq<Byte>>)
    requires n <= |Packets(p)|
    ensures Payloads(Written(writes) + (Flatten(Packets(p)[..n]) + Written(more)))
         == Flatten(writes) + (Carried(p, n) + Flatten(more))
  {
    WrittenThen(writes, Flatten(Packets(p)[..n]) + Written(more));
    PacketsOfPart(p, n);
    PacketsAreDelivered(Carried(p, n), Written(more));
    WritesAreDelivered(more);
  }

  // ----- Handshake and login

  function Text(s: seq<Byte>): seq<Byte> { Encode(Uint32(|s|)) + s }

  function PortBytes(port: Uint16): seq<Byte> { [port / 256, port % 256] }

  function Handshake(protocol: int, host: seq<Byte>, port: Uint16, nextState: int): seq<Byte> {
    Encode(Uint32(protocol)) + (Text(host) + (PortBytes(port) + Encode(Uint32(nextState))))
  }

  /** A host length below -2 makes the slice expression panic. */
  datatype Greeting = NextState(state: Int32) | Malformed | OutOfRange

  function Greeted(data: seq<Byte>): Greeting {
    ScanBounds(data, MAX_BYTES);
    match Decoded(data)
    case None => Malformed
    case Some((_, n)) => GreetedHost(data[n..])
  }

  function GreetedHost(data: seq<Byte>): Greeting {
    ScanBounds(data, MAX_BYTES);
    match Decoded(data)
    case None => Malformed
    case Some((x, n)) =>
      var (length: int, rest) := (x, data[n..]);
      if |rest| < length + 2 then Malformed
      else if length + 2 < 0 then OutOfRange
      else
        match Decoded(rest[length + 2..])
        case None => Malformed
        case Some((state, _)) => NextState(state)
  }

  method ParseHandshake(data: seq<Byte>) returns (r: Greeting)
    ensures r == Greeted(data)
  {
    ScanBounds(data, MAX_BYTES);
    var protocol := Varint.Decode(data);
    if protocol == None {
      return Malformed;
    }
    var rest := data[protocol.value.1..];
    if |rest| < 1 {
      return Malformed;
    }
    ScanBounds(rest, MAX_BYTES);
    var host := Varint.Decode(rest);
    if host == None {
      return Malformed;
    }
    var length: int := host.value.0;
    rest := rest[host.value.1..];
    if |rest| < length + 2 {
      return Malformed;
    }
    if length + 2 < 0 {
      return OutOfRange;
    }
    var state := Varint.Decode(rest[length + 2..]);
    if state == None {
      return Malformed;
    }
    return NextState(state.value.0);
  }

  /**
   When the parser panics: exactly on the host lengths below -2, whatever comes before and after them.
   */
  lemma PanicsExactly(protocol: Int32, length: Int32, rest: seq<Byte>)
    ensures Greeted(Encode(Uint32(protocol)) + (Encode(Uint32(length)) + rest)).OutOfRange? <==> length < -2
  {
    var host := Encode(Uint32(length)) + rest;
    RoundTrip(protocol, host);
    DropPrefix(Encode(Uint32(protocol)), host);
    RoundTrip(length, rest);
    DropPrefix(Encode(Uint32(length)), rest);
  }

  /** The same for all data, also when the two numbers are not written in their shortest form. */
  lemma PanicsExactlyOn(data: seq<Byte>)
    ensures Greeted(data).OutOfRange? <==>
              && Decoded(data).Some? && Decoded(data).value.1 <= |data|
              && var host := Decoded(data[Decoded(data).value.1..]); host.Some? && host.value.0 < -2
  {
    ScanBounds(data, MAX_BYTES);
  }

  /** Every handshake the client writes is understood, whatever its version, host and port. */
  lemma HandshakeIsUnderstood(protocol: Int32, host: seq<Byte>, port: Uint16, nextState: Int32)
    requires |host| < 0x8000_0000
    ensures Greeted(Handshake(protocol, host, port, nextState)) == NextState(nextState)
  {
    var end := PortBytes(port) + Encode(Uint32(nextState));
    RoundTrip(protocol, Text(host) + end);
    DropPrefix(Encode(Uint32(protocol)), Text(host) + end);
    HostIsUnderstood(host, port, nextState);
  }

  /**
   For hosts of any length: the length is written in 32 bits and read as a signed number, so parsing
   panics exactly when that number is below -2.
   */
  lemma LongHostPanics(protocol: Int32, host: seq<Byte>, port: Uint16, nextState: Int32)
    ensures Greeted(Handshake(protocol, host, port, nextState)).OutOfRange? <==>
            0x8000_0000 <= |host| % WORD32 < WORD32 - 2
  {
    var end := PortBytes(port) + Encode(Uint32(nextState));
    var size := Uint32(|host|);
    SignedPattern(size);
    assert Text(host) + end == Encode(size) + (host + end);
    PanicsExactly(protocol, Signed(size), host + end);
  }

  lemma HostIsUnderstood(host: seq<Byte>, port: Uint16, nextState: Int32)
    requires |host| < 0x8000_0000
    ensures GreetedHost(Text(host) + (PortBytes(port) + Encode(Uint32(nextState)))) == NextState(nextState)
  {
    var size, state := Encode(Uint32(|host|)), Encode(Uint32(nextState));
    var rest := host + (PortBytes(port) + state);
    assert Text(host) + (PortBytes(port) + state) == size + rest;
    RoundTrip(|host|, rest);
    DropPrefix(size, rest);
    assert rest == host + PortBytes(port) + state;
    DropPrefix(host + PortBytes(port), state);
    RoundTrip(nextState, []);
    assert state + [] == state;
  }

  lemma DropPrefix(a: seq<Byte>, b: seq<Byte>)
    ensures (a + b)[|a|..] == b
  {
  }

  // ----- The server

  datatype Served = Closed | Status | Crashed | Tunnel(conn: Conn)

  /** How far the client's bytes take the server, and the bytes it leaves to the tunnel. */
  datatype Outcome = Refuse | Panic | ShowStatus | Enter(rest: seq<Byte>)

  function Admitted(s: seq<Byte>): Outcome {
    match Parsed(s)
    case (None, _) => Refuse
    case (Some((id, data)), rest) =>
      if id != 0 then Refuse
      else
        match Greeted(data)
        case Malformed => Refuse
        case OutOfRange => Panic
        case NextState(state) =>
          if state == 1 then ShowStatus
          else if state == 2 && Parsed(rest).0.Some? then Enter(Parsed(rest).1)
          else Refuse
  }

  /** A first packet with another id than 0 is refused, whatever it and the bytes behind it hold. */
  lemma FirstPacketIsHandshake(id: Int32, data: seq<Byte>, tail: seq<Byte>)
    requires id != 0 && |Body(id, data)| <= MAX_PACKET
    ensures Admitted(Packet(id, data) + tail) == Refuse
  {
    ReadBack(id, data, tail);
  }

  /** Nothing is admitted to the tunnel on a handshake alone: without a second packet it is refused. */
  lemma HandshakeAloneIsRefused(protocol: Int32, host: seq<Byte>, port: Uint16, nextState: Int32, rest: seq<Byte>)
    requires |Body(0, Handshake(protocol, host, port, nextState))| <= MAX_PACKET
    requires nextState != 1 && Parsed(rest).0.None?
    ensures Admitted(Packet(0, Handshake(protocol, host, port, nextState)) + rest) == Refuse
  {
    ReadBack(0, Handshake(protocol, host, port, nextState), rest);
    HandshakeIsUnderstood(protocol, host, port, nextState);
  }

  /** The layout of a handshake: version, length of the host, host, port with the high byte first, next state. */
  lemma HandshakeLayout(protocol: Int32, host: seq<Byte>, port: Uint16, nextState: Int32)
    requires |host| < 0x8000_0000
    ensures var h := Handshake(protocol, host, port, nextState);
      && Decoded(h).Some? && Decoded(h).value.0 == protocol
      && var rest := h[Min(|h|, Decoded(h).value.1)..];
      && Decoded(rest).Some? && Decoded(rest).value.0 == |host|
      && var end := rest[Min(|rest|, Decoded(rest).value.1)..];
      && |end| >= |host| + 2 && end[..|host|] == host
      && port == end[|host|] as int * 256 + end[|host| + 1] as int
      && end[|host| + 2..] == Encode(Uint32(nextState))
  {
    var state := Encode(Uint32(nextState));
    var end := host + (PortBytes(port) + state);
    var rest := Encode(Uint32(|host|)) + end;
    assert Handshake(protocol, host, port, nextState) == Encode(Uint32(protocol)) + rest;
    RoundTrip(protocol, rest);
    DropPrefix(Encode(Uint32(protocol)), rest);
    RoundTrip(|host|, end);
    DropPrefix(Encode(Uint32(|host|)), end);
    assert end[|host|..] == PortBytes(port) + state;
    assert end[|host| + 2..] == end[|host|..][2..] == state;
  }

  /** In a packet of an acceptable size such a length, and only such a length, ends serving with a panic. */
  lemma ServerPanics(protocol: Int32, length: Int32, rest: seq<Byte>, tail: seq<Byte>)
    requires |Body(0, Encode(Uint32(protocol)) + (Encode(Uint32(length)) + rest))| <= MAX_PACKET
    ensures var packet := Packet(0, Encode(Uint32(protocol)) + (Encode(Uint32(length)) + rest));
      Admitted(packet + tail).Panic? <==> length < -2
  {
    ReadBack(0, Encode(Uint32(protocol)) + (Encode(Uint32(length)) + rest), tail);
    PanicsExactly(protocol, length, rest);
  }

  /** The length -3 in a packet of a few bytes is a witness. */
  lemma PanicWitness(tail: seq<Byte>)
    ensures var data := Encode(Uint32(47)) + (Encode(Uint32(-3)) + []);
      |Body(0, data)| <= 11 && Admitted(Packet(0, data) + tail).Panic?
  {
    RoundTrip(47, []);
    RoundTrip(-3, []);
    RoundTrip(0, []);
    ServerPanics(47, -3, [], tail);
  }

  function LoginSuccess(uuid: seq<Byte>, user: seq<Byte>): seq<Byte> {
    Packet(2, uuid + Text(user) + Encode(0))
  }

  /**
   Serves one connection. Exactly when the client is admitted and the login answer is written, the
   tunnel starts, on the same reader, with all the bytes behind the login and nothing else to read.
   */
  method Serve(br: Reader, out: Sink, uuid: seq<Byte>, user: seq<Byte>) returns (served: Served)
    modifies br
    ensures served.Tunnel? <==> Admitted(old(br.Pending())).Enter? && out.Accepts()
    ensures served.Status? <==> Admitted(old(br.Pending())).ShowStatus?
    ensures served.Crashed? <==> Admitted(old(br.Pending())).Panic?
    ensures served.Tunnel? ==>
              && fresh(served.conn) && served.conn.br == br
              && br.Pending() == Admitted(old(br.Pending())).rest
              && served.conn.Unread() == Payloads(br.Pending())
              && served.conn.sink.wire == out.wire + LoginSuccess(uuid, user)
  {
    var first := ReadPacket(br);
    if first == None || first.value.0 != 0 {
      return Closed;
    }
    var greeting := ParseHandshake(first.value.1);
    match greeting {
      case Malformed => return Closed;
      case OutOfRange => return Crashed;
      case NextState(state) =>
        if state == 1 {
          return Status;
        }
        if state != 2 {
          return Closed;
        }
        served := Login(br, out, uuid, user);
    }
  }

  /** The login: one packet from the client, the answer, then the tunnel. */
  method Login(br: Reader, out: Sink, uuid: seq<Byte>, user: seq<Byte>) returns (served: Served)
    modifies br
    ensures served.Closed? || served.Tunnel?
    ensures served.Tunnel? <==> Parsed(old(br.Pending())).0.Some? && out.Accepts()
    ensures served.Tunnel? ==>
              && fresh(served.conn) && served.conn.br == br
              && br.Pending() == Parsed(old(br.Pending())).1
              && served.conn.Unread() == Payloads(br.Pending())
              && served.conn.sink.wire == out.wire + LoginSuccess(uuid, user)
  {
    var login := ReadPacket(br);
    if login == None {
      return Closed;
    }
    var name := Append([], |user|);
    var zero := Append([], 0);
    var answer := MakePacket(2, uuid + (name + user) + zero);
    assert answer == LoginSuccess(uuid, user);
    if !out.Accepts() {
      return Closed;
    }
    assert answer[..out.Taken(|answer|)] == answer;
    var conn := new Conn(br, out.Write(answer));
    return Tunnel(conn);
  }

  /**
   The handover. Whatever segments the client's bytes arrive in, the server recovers the next state
   the client wrote, enters the tunnel exactly when it is 2, and the tunnel then delivers exactly
   the bytes the client wrote into it.
   */
  lemma Handover(br: Reader, protocol: Int32, host: seq<Byte>, port: Uint16, nextState: Int32,
                 user: seq<Byte>, writes: seq<seq<Byte>>)
    requires |Body(0, Handshake(protocol, host, port, nextState))| <= MAX_PACKET
    requires |Body(0, Text(user))| <= MAX_PACKET
    requires br.Pending() == Packet(0, Handshake(protocol, host, port, nextState))
                             + (Packet(0, Text(user)) + Written(writes))
    ensures Admitted(br.Pending()).Enter? <==> nextState == 2
    ensures Admitted(br.Pending()).ShowStatus? <==> nextState == 1
    ensures !Admitted(br.Pending()).Panic?
    ensures nextState == 2 ==> Payloads(Admitted(br.Pending()).rest) == Flatten(writes)
  {
    ReadBack(0, Handshake(protocol, host, port, nextState), Packet(0, Text(user)) + Written(writes));
    HandshakeIsUnderstood(protocol, host, port, nextState);
    ReadBack(0, Text(user), Written(writes));
    WritesAreDelivered(writes);
  }

  /** On the client's side the login answer is the one packet read before the tunnel. */
  lemma ClientHandover(uuid: seq<Byte>, user: seq<Byte>, writes: seq<seq<Byte>>)
    requires |Body(2, uuid + Text(user) + Encode(0))| <= MAX_PACKET
    ensures var (login, rest) := Parsed(LoginSuccess(uuid, user) + Written(writes));
      login == Some((2, uuid + Text(user) + Encode(0))) && Payloads(rest) == Flatten(writes)
  {
    ReadBack(2, uuid + Text(user) + Encode(0), Written(writes));
    WritesAreDelivered(writes);
  }
}
