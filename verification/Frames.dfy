/** Frames on the wire, written and read. */
module Frames {
  import opened Bits

  const MAX_FRAME: nat := 65535

  /** A frame on the wire: the length of its body in two bytes, high byte first, then the body. */
  function Encode(body: seq<Byte>): seq<Byte>
    requires |body| <= MAX_FRAME
  {
    [|body| / 256, |body| % 256] + body
  }

  predicate Fits(body: seq<Byte>) { 1 <= |body| <= MAX_FRAME }

  type Body = body: seq<Byte> | Fits(body) witness [0]

  function EncodeAll(bodies: seq<Body>): seq<Byte> {
    if bodies == [] then [] else Encode(bodies[0]) + EncodeAll(bodies[1..])
  }

  lemma {:induction false} EncodeAllSnoc(bodies: seq<Body>, body: Body)
    ensures EncodeAll(bodies + [body]) == EncodeAll(bodies) + Encode(body)
  {
    if bodies == [] {
      assert bodies + [body] == [body];
    } else {
      assert (bodies + [body])[1..] == bodies[1..] + [body];
      EncodeAllSnoc(bodies[1..], body);
    }
  }

  /** A frame and what follows it, an empty frame, or the end of the stream. */
  datatype Parse = Got(body: Body, rest: seq<Byte>) | Blank(rest: seq<Byte>) | Short

  function Parsed(s: seq<Byte>): Parse {
    if |s| < 2 then Short
    else
      var (high: nat, low: nat) := (s[0], s[1]);
      var length := high * 256 + low;
      if length == 0 then Blank(s[2..])
      else if |s| < 2 + length then Short
      else Got(s[2..2 + length], s[2 + length..])
  }

  /** The reader takes a frame exactly from its encoding, so no stream can be read in two ways. */
  lemma ParsedExactly(s: seq<Byte>, body: Body, rest: seq<Byte>)
    ensures Parsed(s) == Got(body, rest) <==> s == Encode(body) + rest
  {
    var e := Encode(body) + rest;
    assert e[2..2 + |body|] == body && e[2 + |body|..] == rest;
    if Parsed(s) == Got(body, rest) {
      assert s == s[..2] + s[2..2 + |body|] + s[2 + |body|..];
    }
  }

  /** All frames of a stream, up to its end; an empty frame counts as one of type 0 with no payload. */
  function AllFrames(s: seq<Byte>): seq<Body>
    decreases |s|
  {
    match Parsed(s)
    case Got(body, rest) => [body] + AllFrames(rest)
    case Blank(rest) => [[0]] + AllFrames(rest)
    case Short => []
  }

  /** The layout of a frame: two bytes with the length of the body, the high one first, then the body. */
  lemma FrameLayout(body: Body)
    ensures var e := Encode(body);
      |e| == 2 + |body| && e[0] as int * 256 + e[1] as int == |body| && e[2..] == body
  {
  }

  lemma FramesStep(body: Body, rest: seq<Byte>)
    ensures AllFrames(Encode(body) + rest) == [body] + AllFrames(rest)
  {
    ParsedExactly(Encode(body) + rest, body, rest);
  }

  /** The encodings of any frames, followed by anything, are read back as those frames, in order. */
  lemma {:induction false} ReaderInverse(bodies: seq<Body>, tail: seq<Byte>)
    ensures AllFrames(EncodeAll(bodies) + tail) == bodies + AllFrames(tail)
  {
    if bodies == [] {
      assert EncodeAll(bodies) + tail == tail;
    } else {
      var rest := EncodeAll(bodies[1..]) + tail;
      assert EncodeAll(bodies) + tail == Encode(bodies[0]) + rest;
      FramesStep(bodies[0], rest);
      ReaderInverse(bodies[1..], tail);
      Prepend(bodies, AllFrames(tail));
    }
  }

  lemma Prepend(bodies: seq<Body>, more: seq<Body>)
    requires bodies != []
    ensures [bodies[0]] + (bodies[1..] + more) == bodies + more
  {
  }

  /** Different lists of frames have different encodings. */
  lemma EncodeAllInjective(a: seq<Body>, b: seq<Body>)
    requires EncodeAll(a) == EncodeAll(b)
    ensures a == b
  {
    ReaderInverse(a, []);
    ReaderInverse(b, []);
    assert a + AllFrames([]) == a && b + AllFrames([]) == b;
  }

  /** No read of a stream, up to its end, meets an empty frame. */
  predicate NeverBlank(s: seq<Byte>)
    decreases |s|
  {
    match Parsed(s)
    case Got(_, rest) => NeverBlank(rest)
    case Blank(_) => false
    case Short => true
  }

  // The first read of the writer's bytes.
  lemma NoBlank(bodies: seq<Body>, wire: seq<Byte>, batch: seq<Byte>)
    requires wire + batch == EncodeAll(bodies)
    ensures !Parsed(wire).Blank?
  {
    if bodies != [] && |wire| >= 2 {
      ParsedExactly(wire + batch, bodies[0], EncodeAll(bodies[1..]));
      assert (wire + batch)[0] == wire[0] && (wire + batch)[1] == wire[1];
    }
  }

  // A read that does not fail takes the first frame, and a part of the other frames is left.
  lemma FirstIsRead(bodies: seq<Body>, wire: seq<Byte>, batch: seq<Byte>)
    requires wire + batch == EncodeAll(bodies) && Parsed(wire).Got?
    ensures bodies != [] && Parsed(wire).body == bodies[0]
    ensures Parsed(wire).rest + batch == EncodeAll(bodies[1..])
  {
    var (body, rest) := (Parsed(wire).body, Parsed(wire).rest);
    ParsedExactly(wire, body, rest);
    assert wire + batch == Encode(body) + (rest + batch);
    ParsedExactly(wire + batch, body, rest + batch);
    ParsedExactly(wire + batch, bodies[0], EncodeAll(bodies[1..]));
  }

  /** On any part of the writer's bytes no read ever takes the branch for an empty frame. */
  lemma {:induction false} WireIsNeverBlank(bodies: seq<Body>, wire: seq<Byte>, batch: seq<Byte>)
    requires wire + batch == EncodeAll(bodies)
    ensures NeverBlank(wire)
  {
    NoBlank(bodies, wire, batch);
    if Parsed(wire).Got? {
      FirstIsRead(bodies, wire, batch);
      WireIsNeverBlank(bodies[1..], Parsed(wire).rest, batch);
    }
  }

  /** What can be read from a part of the wire is a prefix of the frames on it. */
  lemma {:induction false} PrefixIsRead(bodies: seq<Body>, wire: seq<Byte>, batch: seq<Byte>)
    requires wire + batch == EncodeAll(bodies)
    ensures AllFrames(wire) <= bodies
  {
    NoBlank(bodies, wire, batch);
    if Parsed(wire).Got? {
      FirstIsRead(bodies, wire, batch);
      PrefixIsRead(bodies[1..], Parsed(wire).rest, batch);
    }
  }
}
