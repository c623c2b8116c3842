/**
 The address header of section 5 of RFC 1928, written by one encoder and read by four parsers: of a
 byte slice, of a stream, of a stream whose first byte has been read, and inside a connect frame.
 IP addresses are taken as their raw bytes.
 */
module Address {
  import opened Bits
  import opened Options
  import opened Streams

  const IPV4: Byte := 0x01
  const DOMAIN: Byte := 0x03
  const IPV6: Byte := 0x04

  datatype Address = Address(typ: Byte, addr: seq<Byte>, port: Uint16)

  /** The addresses that have an encoding of their own. */
  predicate WellFormed(a: Address) {
    || (a.typ == IPV4 && |a.addr| == 4)
    || (a.typ == IPV6 && |a.addr| == 16)
    || (a.typ == DOMAIN && |a.addr| <= 255)
  }

  function Big(v: Uint16): seq<Byte> { [v / 256, v % 256] }

  /** The big-endian number at `s[i..i + 2]`. */
  function Uint(s: seq<Byte>, i: nat): Uint16
    requires i + 2 <= |s|
  {
    var (high: int, low: int) := (s[i], s[i + 1]);
    high * 256 + low
  }

  function Zeros(n: nat): seq<Byte> { seq(n, _ => 0) }

  /** An address that is not one of its type becomes the zero address; a long domain is cut. */
  function EncodeAddress(a: Address): seq<Byte> {
    [a.typ]
    + (if a.typ == IPV4 then if |a.addr| == 4 then a.addr else Zeros(4)
       else if a.typ == IPV6 then if |a.addr| == 16 then a.addr else Zeros(16)
       else if a.typ == DOMAIN then
         var domain := if |a.addr| > 255 then a.addr[..255] else a.addr;
         [|domain|] + domain
       else [])
    + Big(a.port)
  }

  // ----- The parsers

  function DecodeAddress(data: seq<Byte>): Option<(Address, seq<Byte>)> {
    if |data| < 1 then None
    else
      var (typ, s) := (data[0], data[1..]);
      if typ == IPV4 then
        if |s| < 6 then None else Some((Address(typ, s[..4], Uint(s, 4)), s[6..]))
      else if typ == IPV6 then
        if |s| < 18 then None else Some((Address(typ, s[..16], Uint(s, 16)), s[18..]))
      else if typ == DOMAIN then
        if |s| < 1 then None
        else
          var (n: nat, t) := (s[0], s[1..]);
          if |t| < n + 2 then None else Some((Address(typ, t[..n], Uint(t, n)), t[n + 2..]))
      else None
  }

  predicate Known(typ: Byte) { typ == IPV4 || typ == IPV6 || typ == DOMAIN }

  /** What a stream parser leaves unread: the rest, everything after an unknown type, or nothing. */
  ghost function Unread(data: seq<Byte>): seq<Byte>
    requires data != []
  {
    match DecodeAddress(data)
    case Some((_, rest)) => rest
    case None => if Known(data[0]) then [] else data[1..]
  }

  /** An address and a port read as one block of bytes are those found in the stream. */
  lemma Taken(first: Byte, data: seq<Byte>, n: nat)
    requires n + 2 <= |data|
    ensures ([first] + data)[1..] == data
    ensures data[..n + 2][..n] == data[..n] && Uint(data[..n + 2], n) == Uint(data, n)
  {
  }

  method ReadAddressHeader(r: Reader) returns (a: Option<Address>)
    modifies r
    ensures a == match DecodeAddress(old(r.Pending())) case Some((x, _)) => Some(x) case None => None
    ensures r.Pending() == if old(r.Pending()) == [] then [] else Unread(old(r.Pending()))
  {
    var header := r.ReadFull(1);
    if header == None {
      return None;
    }
    a := ReadAddressHeaderWithFirstByte(header.value[0], r);
  }

  method ReadAddressHeaderWithFirstByte(typ: Byte, r: Reader) returns (a: Option<Address>)
    modifies r
    ensures a == match DecodeAddress([typ] + old(r.Pending())) case Some((x, _)) => Some(x) case None => None
    ensures r.Pending() == Unread([typ] + old(r.Pending()))
  {
    ghost var data := r.Pending();
    assert ([typ] + data)[1..] == data;
    if typ == IPV4 {
      var buf := r.ReadFull(6);
      if buf == None {
        return None;
      }
      Taken(typ, data, 4);
      return Some(Address(typ, buf.value[..4], Uint(buf.value, 4)));
    } else if typ == IPV6 {
      var buf := r.ReadFull(18);
      if buf == None {
        return None;
      }
      Taken(typ, data, 16);
      return Some(Address(typ, buf.value[..16], Uint(buf.value, 16)));
    } else if typ == DOMAIN {
      var length := r.ReadFull(1);
      if length == None {
        return None;
      }
      var n: nat := length.value[0];
      var buf := r.ReadFull(n + 2);
      if buf == None {
        return None;
      }
      Taken(data[0], data[1..], n);
      return Some(Address(typ, buf.value[..n], Uint(buf.value, n)));
    }
    return None;
  }

  /** The server's own parser of the same stream; to an unknown type it answers with a status byte. */
  method ReadDirectTarget(typ: Byte, r: Reader) returns (a: Option<Address>, status: seq<Byte>)
    modifies r
    ensures a == match DecodeAddress([typ] + old(r.Pending())) case Some((x, _)) => Some(x) case None => None
    ensures r.Pending() == Unread([typ] + old(r.Pending()))
    ensures status == if Known(typ) then [] else [0x01]
  {
    status := [];
    ghost var data := r.Pending();
    assert ([typ] + data)[1..] == data;
    if typ == IPV4 {
      var buf := r.ReadFull(6);
      if buf == None {
        return None, [];
      }
      Taken(typ, data, 4);
      a := Some(Address(typ, buf.value[..4], Uint(buf.value, 4)));
    } else if typ == IPV6 {
      var buf := r.ReadFull(18);
      if buf == None {
        return None, [];
      }
      Taken(typ, data, 16);
      a := Some(Address(typ, buf.value[..16], Uint(buf.value, 16)));
    } else if typ == DOMAIN {
      var length := r.ReadFull(1);
      if length == None {
        return None, [];
      }
      var n: nat := length.value[0];
      var buf := r.ReadFull(n + 2);
      if buf == None {
        return None, [];
      }
      Taken(data[0], data[1..], n);
      a := Some(Address(typ, buf.value[..n], Uint(buf.value, n)));
    } else {
      a, status := None, [0x01];
    }
  }

  function EncodeConnectFrame(stream: Uint16, a: Address): seq<Byte> { Big(stream) + EncodeAddress(a) }

  function DecodeConnectFrame(payload: seq<Byte>): Option<(Uint16, Address)> {
    if |payload| < 5 then None
    else
      match DecodeAddress(payload[2..])
      case None => None
      case Some((a, _)) => Some((Uint(payload, 0), a))
  }

  /** The server's parser of a connect frame, with its own offsets and its own guard. */
  function ConnectTarget(payload: seq<Byte>): Option<(Uint16, Address)> {
    if |payload| < 4 then None
    else
      var (stream, typ, s) := (Uint(payload, 0), payload[2], payload[3..]);
      if typ == IPV4 then
        if |s| < 6 then None else Some((stream, Address(typ, s[..4], Uint(s, 4))))
      else if typ == DOMAIN then
        if |s| < 1 then None
        else
          var n: nat := s[0];
          if |s| < 1 + n + 2 then None else Some((stream, Address(typ, s[1..1 + n], Uint(s, 1 + n))))
      else if typ == IPV6 then
        if |s| < 18 then None else Some((stream, Address(typ, s[..16], Uint(s, 16))))
      else None
  }

  // ----- Their agreement

  lemma BigUint(s: seq<Byte>, i: nat, v: Uint16)
    requires i + 2 <= |s|
    ensures Uint(s, i) == v <==> s[i..i + 2] == Big(v)
  {
  }

  /** What decoding the encoding of any address yields, also of one that is not well formed. */
  function Normal(a: Address): Address {
    if a.typ == IPV4 && |a.addr| != 4 then a.(addr := Zeros(4))
    else if a.typ == IPV6 && |a.addr| != 16 then a.(addr := Zeros(16))
    else if a.typ == DOMAIN && |a.addr| > 255 then a.(addr := a.addr[..255])
    else a
  }

  lemma NormalEncodesAlike(a: Address)
    ensures EncodeAddress(Normal(a)) == EncodeAddress(a)
    ensures Known(a.typ) ==> WellFormed(Normal(a))
    ensures WellFormed(a) ==> Normal(a) == a
  {
  }

  lemma DecodeIpOfEncoded(a: Address, rest: seq<Byte>)
    requires WellFormed(a) && a.typ != DOMAIN
    ensures DecodeAddress(EncodeAddress(a) + rest) == Some((a, rest))
  {
    var n := |a.addr|;
    var s := (EncodeAddress(a) + rest)[1..];
    assert s == a.addr + Big(a.port) + rest;
    assert s[..n] == a.addr && s[n..n + 2] == Big(a.port) && s[n + 2..] == rest;
    BigUint(s, n, a.port);
  }

  lemma DecodeDomainOfEncoded(a: Address, rest: seq<Byte>)
    requires WellFormed(a) && a.typ == DOMAIN
    ensures DecodeAddress(EncodeAddress(a) + rest) == Some((a, rest))
  {
    var n := |a.addr|;
    var t := (EncodeAddress(a) + rest)[1..][1..];
    assert t == a.addr + Big(a.port) + rest;
    assert t[..n] == a.addr && t[n..n + 2] == Big(a.port) && t[n + 2..] == rest;
    BigUint(t, n, a.port);
  }

  lemma DecodedIsEncoded(data: seq<Byte>)
    requires DecodeAddress(data).Some?
    ensures var (a, rest) := DecodeAddress(data).value; WellFormed(a) && data == EncodeAddress(a) + rest
  {
    var (a, rest) := DecodeAddress(data).value;
    var at := if a.typ == DOMAIN then 2 else 1;
    var n := |a.addr|;
    BigUint(data, at + n, a.port);
    assert data == data[..at] + a.addr + data[at + n..at + n + 2] + rest;
  }

  /**
   The parser of slices accepts exactly the encodings of well-formed addresses, returns the address
   encoded, and stops right after it.
   */
  lemma DecodeExactly(data: seq<Byte>, a: Address, rest: seq<Byte>)
    ensures DecodeAddress(data) == Some((a, rest)) <==> WellFormed(a) && data == EncodeAddress(a) + rest
  {
    if DecodeAddress(data) == Some((a, rest)) {
      DecodedIsEncoded(data);
    } else if WellFormed(a) && data == EncodeAddress(a) + rest {
      if a.typ == DOMAIN {
        DecodeDomainOfEncoded(a, rest);
      } else {
        DecodeIpOfEncoded(a, rest);
      }
    }
  }

  /** The round trip for all addresses: the well-formed come back, the others normalised or not at all. */
  lemma DecodeEncoded(a: Address, rest: seq<Byte>)
    ensures DecodeAddress(EncodeAddress(a) + rest) == if Known(a.typ) then Some((Normal(a), rest)) else None
  {
    NormalEncodesAlike(a);
    DecodeExactly(EncodeAddress(a) + rest, Normal(a), rest);
  }

  /** Both parsers of connect frames accept the same payloads with the same result, despite their guards. */
  lemma ConnectParsersAgree(payload: seq<Byte>)
    ensures DecodeConnectFrame(payload) == ConnectTarget(payload)
  {
    if |payload| >= 4 {
      var data := payload[2..];
      assert data[1..] == payload[3..];
      if data[0] == DOMAIN && |data| > 1 {
        var n: nat := data[1];
        if |data| >= n + 4 {
          assert data[1..][1..][..n] == payload[3..][1..1 + n];
        }
      }
    }
  }

  /** The server connects to the address the client asked for. */
  lemma ConnectRoundTrip(stream: Uint16, a: Address)
    ensures ConnectTarget(EncodeConnectFrame(stream, a)) == if Known(a.typ) then Some((stream, Normal(a))) else None
  {
    var payload := EncodeConnectFrame(stream, a);
    ConnectParsersAgree(payload);
    assert payload[2..] == EncodeAddress(a) + [] && payload[..2] == Big(stream);
    BigUint(payload, 0, stream);
    DecodeEncoded(a, []);
  }

  // ----- The layout on the wire

  /** Section 5 of RFC 1928: the type, the address, with its length if it is a domain, and the port, high byte first. */
  lemma Layout(a: Address)
    requires WellFormed(a)
    ensures var e := EncodeAddress(a);
      && e[0] == a.typ && a.port == e[|e| - 2] as int * 256 + e[|e| - 1] as int
      && match a.typ
         case 0x01 => |e| == 7 && e[1..5] == a.addr
         case 0x04 => |e| == 19 && e[1..17] == a.addr
         case _ => a.typ == 0x03 && |e| == |a.addr| + 4 && e[1] == |a.addr| && e[2..|e| - 2] == a.addr
  {
    var e := EncodeAddress(a);
    assert a.typ == 0x03 ==> e[2..|e| - 2] == a.addr;
  }

  /** What is not an address of its type is written as zeros, and a longer domain as its first 255 bytes. */
  lemma MalformedLayout(a: Address)
    requires Known(a.typ) && !WellFormed(a)
    ensures var e := EncodeAddress(a);
      && a.port == e[|e| - 2] as int * 256 + e[|e| - 1] as int
      && match a.typ
         case 0x01 => |e| == 7 && forall i :: 1 <= i < 5 ==> e[i] == 0
         case 0x04 => |e| == 19 && forall i :: 1 <= i < 17 ==> e[i] == 0
         case _ => |e| == 259 && e[1] == 255 && e[2..257] == a.addr[..255]
  {
  }

  /** Before it a connect frame has the number of its stream, and a datagram that of its association. */
  lemma FrameLayout(id: Uint16, a: Address, data: seq<Byte>)
    ensures var (c, u) := (EncodeConnectFrame(id, a), EncodeUdpFrame(id, a, data));
      && |c| >= 2 && |u| >= 2
      && id == c[0] as int * 256 + c[1] as int && id == u[0] as int * 256 + u[1] as int
      && c[2..] == EncodeAddress(a) && u[2..] == EncodeAddress(a) + data
  {
  }

  // ----- UDP frames

  function EncodeUdpFrame(assoc: Uint16, a: Address, data: seq<Byte>): seq<Byte> {
    Big(assoc) + (EncodeAddress(a) + data)
  }

  function DecodeUdpFrame(payload: seq<Byte>): Option<(Uint16, Address, seq<Byte>)> {
    if |payload| < 2 then None
    else
      match DecodeAddress(payload[2..])
      case None => None
      case Some((a, rest)) => Some((Uint(payload, 0), a, rest))
  }

  /** A datagram payload is decoded exactly from its encoding. */
  lemma UdpExactly(payload: seq<Byte>, assoc: Uint16, a: Address, data: seq<Byte>)
    ensures DecodeUdpFrame(payload) == Some((assoc, a, data)) <==>
            WellFormed(a) && payload == EncodeUdpFrame(assoc, a, data)
  {
    var frame := EncodeUdpFrame(assoc, a, data);
    assert frame[..2] == Big(assoc) && frame[2..] == EncodeAddress(a) + data;
    if |payload| >= 2 {
      BigUint(payload, 0, assoc);
      DecodeExactly(payload[2..], a, data);
      assert payload == payload[..2] + payload[2..];
    }
  }
}
