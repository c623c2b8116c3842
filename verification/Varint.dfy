/** The 32-bit varint of the Minecraft protocol: unsigned LEB128 of at most five bytes. */
module Varint {
  import opened Bits
  import opened Options
  import opened Streams

  const MAX_BYTES: nat := 5

  type Int32 = x: int | -0x8000_0000 <= x < 0x8000_0000

  /** Conversion between an integer and its 32-bit pattern, truncating as the source does. */
  function Uint32(v: int): (u: nat)
    ensures u < WORD32
  {
    v % WORD32
  }

  function Signed(u: nat): Int32
    requires u < WORD32
  {
    if u < 0x8000_0000 then u else u - WORD32
  }

  /** Seven bits a byte, least significant first; all bytes but the last have the high bit. */
  function Encode(u: nat): (s: seq<Byte>)
    ensures |s| >= 1
  {
    if u < 128 then [u] else [128 + u % 128] + Encode(u / 128)
  }

  /** The number in the first bytes of `data` and its length, if it ends within `left` bytes. */
  function Scan(data: seq<Byte>, left: nat): Option<(nat, nat)> {
    if data == [] || left == 0 then None
    else if data[0] < 128 then Some((data[0], 1))
    else
      match Scan(data[1..], left - 1)
      case None => None
      case Some((v, n)) => Some((data[0] - 128 + 128 * v, n + 1))
  }

  /** What both decoders compute: the value as a 32-bit signed number and the bytes it takes. */
  function Decoded(data: seq<Byte>): Option<(Int32, nat)> {
    match Scan(data, MAX_BYTES)
    case None => None
    case Some((v, n)) => Some((Signed(v % WORD32), n))
  }

  // ----- The three loops of the source

  method Append(buf: seq<Byte>, v: int) returns (out: seq<Byte>)
    ensures out == buf + Encode(Uint32(v))
  {
    out := buf;
    var u: nat := Uint32(v);
    while true
      invariant out + Encode(u) == buf + Encode(Uint32(v))
      decreases u
    {
      var b := LowBits(u);
      u := u / 128;
      if u != 0 {
        b := WithHighBit(b);
      }
      out := out + [b];
      if u == 0 {
        return;
      }
    }
  }

  method Decode(data: seq<Byte>) returns (r: Option<(Int32, nat)>)
    ensures r == Decoded(data)
  {
    CollectIsScan(data, 0, 0);
    var result: nat, shift: nat, i: nat := 0, 0, 0;
    while i < |data| && i < MAX_BYTES
      invariant i <= |data| && shift == 7 * i && Progress(data, result, i)
    {
      CollectStep(data, i, result);
      result := OrShifted(result, data[i], shift, i);
      shift := shift + 7;
      var last := HighBitClear(data[i]);
      if last {
        return Some((Signed(result), i + 1));
      }
      i := i + 1;
    }
    return None;
  }

  method ReadFrom(r: Reader) returns (v: Option<Int32>)
    modifies r
    ensures match Decoded(old(r.Pending()))
      case Some((x, n)) => v == Some(x) && n <= |old(r.Pending())| && r.Pending() == old(r.Pending())[n..]
      case None => v == None && r.Pending() == old(r.Pending())[Min(MAX_BYTES, |old(r.Pending())|)..]
  {
    ghost var data := r.Pending();
    CollectIsScan(data, 0, 0);
    var result: nat, shift: nat, i: nat := 0, 0, 0;
    while i < MAX_BYTES
      invariant i <= |data| && shift == 7 * i && Progress(data, result, i)
      invariant r.Pending() == data[i..]
    {
      var byte := r.ReadFull(1);
      if byte == None {
        return None;
      }
      var b := byte.value[0];
      CollectStep(data, i, result);
      result := OrShifted(result, b, shift, i);
      shift := shift + 7;
      var last := HighBitClear(b);
      if last {
        return Some(Signed(result));
      }
      i := i + 1;
    }
    return None;
  }

  // ----- The bit operations of the loops

  /** `byte(u & 0x7F)`. */
  method LowBits(u: nat) returns (b: Byte)
    ensures b == u % 128
  {
    MaskSeven(u);
    b := And(u, 0x7F);
  }

  /** `b | 0x80`. */
  method WithHighBit(b: Byte) returns (c: Byte)
    requires b < 128
    ensures c == 128 + b
  {
    assert Pow2(7) == 128;
    OrDisjoint(b, 1, 7);
    c := Or(b, 0x80);
  }

  /** `b & 0x80 == 0`. */
  method HighBitClear(b: Byte) returns (clear: bool)
    ensures clear == (b < 128)
  {
    assert Pow2(7) == 128;
    TestBit(b, 7);
    TopBit(b, 7);
    clear := And(b, 0x80) == 0;
  }

  /** `result | uint32(b & 0x7F) << shift` for byte `i`, where the shift drops the bits above 32. */
  method OrShifted(result: nat, b: Byte, shift: nat, ghost i: nat) returns (next: nat)
    requires i < MAX_BYTES && shift == 7 * i && result < Scaled(1, i)
    ensures next == (result + Scaled(b % 128, i)) % WORD32
    ensures i < 4 ==> next == result + Scaled(b % 128, i) < Scaled(1, i + 1)
  {
    var x := LowBits(b);
    var y := ShiftLeft(x, shift, i);
    WordScaled(result, x, i);
    next := OrAbove(result, y, if i < 4 then x else x % 16, i);
  }

  /** `uint32(x) << shift`. */
  method ShiftLeft(x: nat, shift: nat, ghost i: nat) returns (y: nat)
    requires i < MAX_BYTES && shift == 7 * i
    ensures y == Scaled(x, i) % WORD32
  {
    ShiftIsScaled(x, i);
    y := x * Pow2(shift) % WORD32;
  }

  /** `result | y`, where no bit of `y` lies among those of `result`. */
  method OrAbove(result: nat, y: nat, ghost x: nat, ghost i: nat) returns (next: nat)
    requires i < MAX_BYTES && result < Scaled(1, i) && y == Scaled(x, i)
    ensures next == result + y
  {
    ShiftIsScaled(x, i);
    OrDisjoint(result, x, 7 * i);
    next := Or(result, y);
  }

  /** Only in the fifth byte can bits leave the word; four of its seven bits stay. */
  lemma WordScaled(result: nat, x: nat, i: nat)
    requires i < MAX_BYTES && result < Scaled(1, i) && x < 128
    ensures i < 4 ==> Scaled(x, i) % WORD32 == Scaled(x, i) && result + Scaled(x, i) < Scaled(1, i + 1) <= WORD32
    ensures i == 4 ==>
              Scaled(x, i) % WORD32 == Scaled(x % 16, i)
              && (result + Scaled(x, i)) % WORD32 == result + Scaled(x % 16, i)
  {
  }

  /** `x << 7 * i` for the five places of a varint. */
  function Scaled(x: nat, i: nat): nat
    requires i < MAX_BYTES
  {
    match i
    case 0 => x
    case 1 => 0x80 * x
    case 2 => 0x4000 * x
    case 3 => 0x20_0000 * x
    case _ => 0x1000_0000 * x
  }

  lemma ShiftIsScaled(x: nat, i: nat)
    requires i < MAX_BYTES
    ensures x * Pow2(7 * i) == Scaled(x, i) && Pow2(7 * i) == Scaled(1, i)
  {
    PlaceValues();
  }

  lemma PlaceValues()
    ensures Pow2(0) == 1 && Pow2(7) == 0x80 && Pow2(14) == 0x4000 && Pow2(21) == 0x20_0000
    ensures Pow2(28) == 0x1000_0000
  {
    assert Pow2(7) == 0x80;
    assert Pow2(14) == 0x80 * 0x80 by { Pow2Add(7, 7); }
    assert Pow2(21) == 0x80 * 0x4000 by { Pow2Add(7, 14); }
    assert Pow2(28) == 0x4000 * 0x4000 by { Pow2Add(14, 14); }
  }

  /** `i` bytes with the high bit set have been read, and their number is `result`. */
  ghost predicate Progress(data: seq<Byte>, result: nat, i: nat) {
    && i <= MAX_BYTES && i <= |data|
    && (i < MAX_BYTES ==> result < Scaled(1, i))
    && Scan(data, MAX_BYTES) == Collect(data[i..], i, result)
  }

  /** The decoding loop from byte `i` on, with unbounded numbers. */
  function Collect(data: seq<Byte>, i: nat, result: nat): Option<(nat, nat)>
    requires i <= MAX_BYTES
    decreases |data|
  {
    if data == [] || i == MAX_BYTES then None
    else if data[0] < 128 then Some((result + Scaled(data[0], i), i + 1))
    else Collect(data[1..], i + 1, result + Scaled(data[0] - 128, i))
  }

  lemma CollectStep(data: seq<Byte>, i: nat, result: nat)
    requires i < MAX_BYTES && i < |data|
    ensures Collect(data[i..], i, result) ==
            var sum := result + Scaled(data[i] % 128, i);
            if data[i] < 128 then Some((sum, i + 1)) else Collect(data[i + 1..], i + 1, sum)
  {
    assert data[i..][1..] == data[i + 1..];
  }

  /** Adding each byte at its own place gives the number that the digits form. */
  lemma {:induction false} CollectIsScan(data: seq<Byte>, i: nat, result: nat)
    requires i < MAX_BYTES
    ensures Collect(data, i, result) ==
            match Scan(data, MAX_BYTES - i)
            case None => None
            case Some((v, n)) => Some((result + Scaled(v, i), i + n))
    decreases |data|
  {
    if data != [] && data[0] >= 128 && i + 1 < MAX_BYTES {
      CollectIsScan(data[1..], i + 1, result + Scaled(data[0] - 128, i));
    }
  }

  lemma {:induction false} ScanBounds(data: seq<Byte>, left: nat)
    ensures Scan(data, left).Some? ==> 1 <= Scan(data, left).value.1 <= Min(left, |data|)
  {
    if data != [] && left > 0 && data[0] >= 128 {
      ScanBounds(data[1..], left - 1);
    }
  }

  /** What has been decoded from a part of a stream stays the same when more of it has arrived. */
  lemma {:induction false} ScanOfPart(part: seq<Byte>, data: seq<Byte>, left: nat)
    requires part <= data && Scan(part, left).Some?
    ensures Scan(data, left) == Scan(part, left)
    decreases left
  {
    assert data[0] == part[0];
    if part[0] >= 128 {
      assert part[1..] <= data[1..];
      ScanOfPart(part[1..], data[1..], left - 1);
    }
  }

  // ----- Round trip, agreement, minimality

  /** Decoding what was encoded yields the number and stops at the end of the encoding. */
  lemma {:induction false} ScanEncode(u: nat, tail: seq<Byte>, left: nat)
    requires |Encode(u)| <= left
    ensures Scan(Encode(u) + tail, left) == Some((u, |Encode(u)|))
    decreases u
  {
    if u >= 128 {
      ScanEncode(u / 128, tail, left - 1);
      assert (Encode(u) + tail)[1..] == Encode(u / 128) + tail;
    }
  }

  /** The number that the low seven bits of the bytes form, the first byte being the least significant. */
  function DigitsValue(s: seq<Byte>): nat {
    if s == [] then 0 else s[0] % 128 + 128 * DigitsValue(s[1..])
  }

  /** The format: the high bit is set in every byte but the last, and the other bits are the digits. */
  lemma {:induction false} EncodingIsLeb128(u: nat)
    ensures var s := Encode(u);
      && DigitsValue(s) == u
      && forall i :: 0 <= i < |s| ==> (s[i] >= 128 <==> i < |s| - 1)
    decreases u
  {
    if u < 128 {
      assert Encode(u)[1..] == [];
    } else {
      EncodingIsLeb128(u / 128);
      var s, rest := Encode(u), Encode(u / 128);
      assert s[1..] == rest;
      forall i | 0 <= i < |s| ensures s[i] >= 128 <==> i < |s| - 1 {
        assert i > 0 ==> s[i] == rest[i - 1];
      }
    }
  }

  /** An encoding of at most `n` bytes is one of a number of at most `7 * n` bits. */
  lemma {:induction false} EncodeLength(u: nat, n: nat)
    requires 1 <= n <= MAX_BYTES
    ensures |Encode(u)| <= n <==> u < 128 * Scaled(1, n - 1)
    decreases n
  {
    if n > 1 {
      EncodeLength(u / 128, n - 1);
    }
  }

  lemma EncodeFits(u: nat)
    requires u < WORD32
    ensures |Encode(u)| <= MAX_BYTES
  {
    EncodeLength(u, 5);
  }

  /** Every 32-bit value, followed by anything, is read back, and exactly its encoding is consumed. */
  lemma RoundTrip(v: Int32, tail: seq<Byte>)
    ensures Decoded(Encode(Uint32(v)) + tail) == Some((v, |Encode(Uint32(v))|))
    ensures |Encode(Uint32(v))| <= MAX_BYTES
  {
    EncodeFits(Uint32(v));
    ScanEncode(Uint32(v), tail, MAX_BYTES);
  }

  /** The last byte read is a zero that a shorter encoding would leave out. */
  predicate Padded(data: seq<Byte>, n: nat)
    requires 1 <= n <= |data|
  {
    n > 1 && data[n - 1] == 0
  }

  /** An unpadded string is the encoding of its number; a padded one is longer than it. */
  lemma {:induction false} ScanIsEncode(data: seq<Byte>, left: nat)
    requires Scan(data, left).Some?
    ensures var (v, n) := Scan(data, left).value;
      && 1 <= n <= Min(left, |data|)
      && if Padded(data, n) then |Encode(v)| < n else Encode(v) == data[..n]
    decreases left
  {
    ScanBounds(data, left);
    var (v, n) := Scan(data, left).value;
    if data[0] >= 128 {
      ScanIsEncode(data[1..], left - 1);
      var (w, m) := Scan(data[1..], left - 1).value;
      assert v % 128 == data[0] - 128 && v / 128 == w;
      if w == 0 {
        assert m == 1 ==> data[1] == 0;
        assert m > 1 ==> Padded(data[1..], m) by {
          assert !Padded(data[1..], m) ==> |Encode(w)| == m;
        }
      } else if !Padded(data, n) {
        assert data[..n] == [data[0]] + data[1..][..m];
      }
    }
  }

  /** No string decodes to a value with fewer bytes than the encoder writes for it. */
  lemma Shortest(data: seq<Byte>)
    requires Decoded(data).Some?
    ensures |Encode(Uint32(Decoded(data).value.0))| <= Decoded(data).value.1
  {
    var (v, n) := Scan(data, MAX_BYTES).value;
    ScanIsEncode(data, MAX_BYTES);
    EncodeLength(v, n);
    EncodeLength(v % WORD32, n);
    SignedPattern(v % WORD32);
  }

  /**
   The decoders accept more than the encoder writes: padded strings, and fifth bytes with bits
   beyond the word. These two are the only exceptions.
   */
  lemma CanonicalExactly(data: seq<Byte>)
    requires Decoded(data).Some?
    ensures var (v, n) := Decoded(data).value;
      && 1 <= n <= Min(MAX_BYTES, |data|)
      && (Encode(Uint32(v)) == data[..n] <==> !Padded(data, n) && (n == MAX_BYTES ==> data[4] < 16))
  {
    var (v, n) := Scan(data, MAX_BYTES).value;
    ScanBounds(data, MAX_BYTES);
    CanonicalScan(data, v, n);
    SignedPattern(v % WORD32);
  }

  lemma SignedPattern(u: nat)
    requires u < WORD32
    ensures Uint32(Signed(u)) == u
  {
  }

  lemma CanonicalScan(data: seq<Byte>, v: nat, n: nat)
    requires Scan(data, MAX_BYTES) == Some((v, n)) && 1 <= n <= |data|
    ensures Encode(v % WORD32) == data[..n] <==> !Padded(data, n) && (n == MAX_BYTES ==> data[4] < 16)
  {
    ScanIsEncode(data, MAX_BYTES);
    FifthByte(data);
    if Encode(v % WORD32) == data[..n] {
      EncodedIsScanned(data, n, v % WORD32);
    }
  }

  lemma EncodedIsScanned(data: seq<Byte>, n: nat, u: nat)
    requires n <= |data| && Encode(u) == data[..n] && n <= MAX_BYTES
    ensures Scan(data, MAX_BYTES) == Some((u, n))
  {
    ScanEncode(u, data[n..], MAX_BYTES);
    assert data[..n] + data[n..] == data;
  }

  /** A scanned number needs more than 32 bits exactly when its fifth byte is 16 or more. */
  lemma FifthByte(data: seq<Byte>)
    requires Scan(data, MAX_BYTES).Some?
    ensures var (v, n) := Scan(data, MAX_BYTES).value;
      && n <= |data|
      && (v < WORD32 <==> (n == MAX_BYTES ==> data[4] < 16))
  {
    ScanBounds(data, MAX_BYTES);
    var (v, n) := Scan(data, MAX_BYTES).value;
    if n == MAX_BYTES {
      var r := ScanHead(data, 4);
    } else {
      ScanIsEncode(data, MAX_BYTES);
      EncodeLength(v, 4);
    }
  }

  /** The first `i` bytes of a longer encoding contribute a number below `2^(7 * i)`. */
  lemma {:induction false} ScanHead(data: seq<Byte>, i: nat) returns (r: nat)
    requires i < MAX_BYTES && Scan(data, i + 1).Some? && Scan(data, i + 1).value.1 == i + 1 <= |data|
    ensures r < Scaled(1, i) && Scan(data, i + 1).value.0 == r + Scaled(data[i], i)
    decreases i
  {
    r := 0;
    if i > 0 {
      var rest := ScanHead(data[1..], i - 1);
      r := data[0] - 128 + 128 * rest;
    }
  }
}
