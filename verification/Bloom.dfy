/**
 The Bloom filter of the replay protection: a bitset packed into 64-bit words, updated in place
 at positions chosen by double hashing with wrapping 64-bit arithmetic.
 */
module Bloom {
  import opened Bits

  type Word64 = x: int | 0 <= x < 0x1_0000_0000_0000_0000
  type Data = seq<Byte>

  const FNV_OFFSET: Word64 := 14695981039346656037
  const FNV_PRIME: Word64 := 1099511628211

  /** The size `m` of the bitset and the number `k` of probes. */
  datatype Shape = Shape(m: nat, k: nat) {
    predicate Valid() { 1 <= m && m + 63 < WORD64 }
  }

  /** 64-bit FNV-1a, continued from the running value `h`. */
  function Fnv(h: Word64, data: Data): Word64
    decreases |data|
  {
    if data == [] then h
    else Fnv(Xor(h, data[0]) * FNV_PRIME % WORD64, data[1..])
  }

  /** The first sum hashes the data, the second the data followed by one more byte. */
  function Hash1(data: Data): Word64 { Fnv(FNV_OFFSET, data) }
  function Hash2(data: Data): Word64 { Fnv(Hash1(data), [1]) }

  /** Writing to the hash twice is writing the concatenation once. */
  lemma {:induction false} FnvContinues(h: Word64, a: Data, b: Data)
    ensures Fnv(Fnv(h, a), b) == Fnv(h, a + b)
    decreases |a|
  {
    if a == [] {
      assert a + b == b;
    } else {
      FnvContinues(Xor(h, a[0]) * FNV_PRIME % WORD64, a[1..], b);
      assert (a + b)[1..] == a[1..] + b;
    }
  }

  /** The second sum is the first sum of the data followed by the byte 1. */
  lemma SecondSum(data: Data)
    ensures Hash2(data) == Hash1(data + [1])
  {
    FnvContinues(FNV_OFFSET, data, [1]);
  }

  // The inverse of the prime modulo 2^64.
  const FNV_INVERSE: nat := 14886173955864302971

  /** Multiplying by the prime loses nothing: it is odd. */
  lemma PrimeSeparates(x: Word64, y: Word64)
    requires x * FNV_PRIME % WORD64 == y * FNV_PRIME % WORD64
    ensures x == y
  {
    var t := x * FNV_PRIME / WORD64 - y * FNV_PRIME / WORD64;
    assert (x - y) * FNV_PRIME == t * WORD64;
    assert FNV_PRIME * FNV_INVERSE == 1 + 887285111055 * WORD64;
    assert x - y == WORD64 * (t * FNV_INVERSE - (x - y) * 887285111055);
  }

  lemma XorSeparates(h: nat, a: nat, b: nat)
    requires Xor(h, a) == Xor(h, b)
    ensures a == b
  {
    XorTwice(h, a);
    XorTwice(h, b);
  }

  lemma {:induction false} XorCommutes(a: nat, b: nat)
    ensures Xor(a, b) == Xor(b, a)
    decreases a + b
  {
    if a > 0 || b > 0 {
      XorCommutes(a / 2, b / 2);
    }
  }

  lemma ByteStep(h: Word64, a: Byte, g: Word64, b: Byte)
    requires Xor(h, a) * FNV_PRIME % WORD64 == Xor(g, b) * FNV_PRIME % WORD64
    ensures Xor(h, a) == Xor(g, b)
  {
    Pow2OfWords();
    XorBound(h, a, 64);
    XorBound(g, b, 64);
    PrimeSeparates(Xor(h, a), Xor(g, b));
  }

  /** Hashing more bytes keeps different running values apart. */
  lemma {:induction false} FnvKeepsApart(h: Word64, g: Word64, data: Data)
    requires Fnv(h, data) == Fnv(g, data)
    ensures h == g
    decreases |data|
  {
    if data != [] {
      var a := data[0];
      FnvKeepsApart(Xor(h, a) * FNV_PRIME % WORD64, Xor(g, a) * FNV_PRIME % WORD64, data[1..]);
      ByteStep(h, a, g, a);
      XorCommutes(h, a);
      XorCommutes(g, a);
      XorSeparates(a, h, g);
    }
  }

  /** Data that differ in one byte, wherever it is, have different sums. */
  lemma OneByteSeparates(before: Data, a: Byte, b: Byte, after: Data)
    requires a != b
    ensures Hash1(before + [a] + after) != Hash1(before + [b] + after)
  {
    var h := Fnv(FNV_OFFSET, before);
    FnvContinues(FNV_OFFSET, before + [a], after);
    FnvContinues(FNV_OFFSET, before, [a]);
    FnvContinues(FNV_OFFSET, before + [b], after);
    FnvContinues(FNV_OFFSET, before, [b]);
    if Fnv(Fnv(h, [a]), after) == Fnv(Fnv(h, [b]), after) {
      FnvKeepsApart(Fnv(h, [a]), Fnv(h, [b]), after);
      OneByte(h, a);
      OneByte(h, b);
      ByteStep(h, a, h, b);
      XorSeparates(h, a, b);
    }
  }

  lemma OneByte(h: Word64, a: Byte)
    ensures Fnv(h, [a]) == Xor(h, a) * FNV_PRIME % WORD64
  {
    assert [a][1..] == [];
  }

  /** Double hashing: the `i`-th probe, with the additions and products of unsigned 64-bit integers. */
  function Probe(h1: Word64, h2: Word64, i: nat, m: nat): (p: nat)
    requires m >= 1
    ensures p < m
  {
    (h1 + i * h2 % WORD64) % WORD64 % m
  }

  /** From the first sum, `i` times the second sum is added, each time with wrap-around. */
  function Walk(h1: Word64, h2: Word64, i: nat): Word64 {
    if i == 0 then h1 else (Walk(h1, h2, i - 1) + h2) % WORD64
  }

  lemma WrappedSum(h: Word64, y: nat, h2: Word64)
    ensures ((h + y % WORD64) % WORD64 + h2) % WORD64 == (h + (y + h2) % WORD64) % WORD64
  {
    var rest := y % WORD64;
    assert y == rest + WORD64 * (y / WORD64);
    Wraps(y + h2, rest + h2, y / WORD64);
    var wrapped := (h + rest) / WORD64;
    Wraps(h + rest + h2, (h + rest) % WORD64 + h2, wrapped);
    var carried := (rest + h2) / WORD64;
    Wraps(h + rest + h2, h + (rest + h2) % WORD64, carried);
  }

  lemma Wraps(whole: nat, part: nat, times: nat)
    requires whole == part + WORD64 * times
    ensures whole % WORD64 == part % WORD64
  {
  }

  lemma {:induction false} WalkIsProduct(h1: Word64, h2: Word64, i: nat)
    ensures Walk(h1, h2, i) == (h1 + i * h2 % WORD64) % WORD64
    decreases i
  {
    if i > 0 {
      var y := (i - 1) * h2;
      assert i * h2 == y + h2;
      WalkIsProduct(h1, h2, i - 1);
      WrappedSum(h1, y, h2);
    }
  }

  /** The probes are the stations of that walk, reduced to the size of the bitset. */
  lemma ProbeIsWalk(h1: Word64, h2: Word64, i: nat, m: nat)
    requires m >= 1
    ensures Probe(h1, h2, i, m) == Walk(h1, h2, i) % m
  {
    WalkIsProduct(h1, h2, i);
  }

  /** The `i`-th probe position of `data`. */
  function Position(shape: Shape, data: Data, i: nat): (p: nat)
    requires shape.Valid()
    ensures p < shape.m
  {
    Probe(Hash1(data), Hash2(data), i, shape.m)
  }

  ghost predicate Probes(shape: Shape, data: Data, n: nat, p: nat)
    requires shape.Valid()
  {
    exists i :: 0 <= i < n && Position(shape, data, i) == p
  }

  /** Position `p` was set by one of the items added. */
  ghost predicate Marked(shape: Shape, items: set<Data>, p: nat)
    requires shape.Valid()
  {
    exists d :: d in items && Probes(shape, d, shape.k, p)
  }

  /** What `Contains` decides: every probe position of `data` was set by some item. */
  ghost predicate Covers(shape: Shape, items: set<Data>, data: Data)
    requires shape.Valid()
  {
    forall i :: 0 <= i < shape.k ==> Marked(shape, items, Position(shape, data, i))
  }

  /** No false negatives. */
  lemma CoversMember(shape: Shape, items: set<Data>, data: Data)
    requires shape.Valid() && data in items
    ensures Covers(shape, items, data)
  {
    forall i | 0 <= i < shape.k ensures Marked(shape, items, Position(shape, data, i)) {
      assert Probes(shape, data, shape.k, Position(shape, data, i));
    }
  }

  /** Adding items never makes a filter forget. */
  lemma CoversGrows(shape: Shape, items: set<Data>, more: set<Data>, data: Data)
    requires shape.Valid() && items <= more && Covers(shape, items, data)
    ensures Covers(shape, more, data)
  {
    forall i | 0 <= i < shape.k ensures Marked(shape, more, Position(shape, data, i)) {
      assert Marked(shape, items, Position(shape, data, i));
    }
  }

  /** A fresh filter contains nothing exactly when it probes at least once. */
  lemma CoversNothing(shape: Shape, data: Data)
    requires shape.Valid()
    ensures Covers(shape, {}, data) <==> shape.k == 0
  {
    if shape.k > 0 {
      assert !Marked(shape, {}, Position(shape, data, 0));
    }
  }

  predicate IsSet(words: seq<Word64>, p: nat)
    requires p / 64 < |words|
  {
    Bit(words[p / 64], p % 64)
  }

  /** `word & (1 << bit) != 0`. */
  method TestWord(word: Word64, bit: nat) returns (isSet: bool)
    ensures isSet == Bit(word, bit)
  {
    TestBit(word, bit);
    isSet := And(word, Pow2(bit)) != 0;
  }

  /** `word | 1 << bit`. */
  method SetWord(word: Word64, bit: nat) returns (r: Word64)
    requires bit < 64
    ensures forall i: nat :: Bit(r, i) == (Bit(word, i) || i == bit)
  {
    Pow2Grows(bit, 64);
    Pow2OfWords();
    OrBound(word, Pow2(bit), 64);
    forall i: nat ensures Bit(Or(word, Pow2(bit)), i) == (Bit(word, i) || i == bit) {
      BitOr(word, Pow2(bit), i);
      BitPow2(bit, i);
    }
    r := Or(word, Pow2(bit));
  }

  /** The words hold the marks of `items` and of the first `n` probes of `data`, and no others. */
  ghost predicate Exact(shape: Shape, words: seq<Word64>, items: set<Data>, data: Data, n: nat)
    requires shape.Valid()
  {
    && |words| == (shape.m + 63) / 64
    && forall p: nat | p / 64 < |words| ::
         IsSet(words, p) == (Marked(shape, items, p) || Probes(shape, data, n, p))
  }

  lemma ExactStep(shape: Shape, words: seq<Word64>, items: set<Data>, data: Data, n: nat, word: Word64)
    requires shape.Valid() && Exact(shape, words, items, data, n)
    requires var pos := Position(shape, data, n);
      forall i: nat :: Bit(word, i) == (Bit(words[pos / 64], i) || i == pos % 64)
    ensures var pos := Position(shape, data, n);
      Exact(shape, words[pos / 64 := word], items, data, n + 1)
  {
    var pos := Position(shape, data, n);
    var after := words[pos / 64 := word];
    forall p: nat | p / 64 < |after|
      ensures IsSet(after, p) == (Marked(shape, items, p) || Probes(shape, data, n + 1, p))
    {
      assert p == 64 * (p / 64) + p % 64 && pos == 64 * (pos / 64) + pos % 64;
      ProbesStep(shape, data, n, p);
    }
  }

  /** Once all `k` probes are set, the data is one of the items. */
  lemma ExactEnd(shape: Shape, words: seq<Word64>, items: set<Data>, data: Data)
    requires shape.Valid() && Exact(shape, words, items, data, shape.k)
    ensures Exact(shape, words, items + {data}, data, 0)
  {
    forall p: nat | p / 64 < |words|
      ensures IsSet(words, p) == (Marked(shape, items + {data}, p) || Probes(shape, data, 0, p))
    {
      MarkedStep(shape, items, data, p);
    }
  }

  lemma ExactBit(shape: Shape, words: seq<Word64>, items: set<Data>, pos: nat)
    requires shape.Valid() && Exact(shape, words, items, [], 0) && pos / 64 < |words|
    ensures Bit(words[pos / 64], pos % 64) == Marked(shape, items, pos)
  {
    assert !Probes(shape, [], 0, pos);
    assert IsSet(words, pos) == Marked(shape, items, pos);
  }

  class BloomFilter {
    const shape: Shape
    const bitset: array<Word64>
    ghost var items: set<Data>

    /** Every bit of the packed words is set exactly when some added item probes it. */
    ghost predicate Valid()
      reads this, bitset
    {
      shape.Valid() && Exact(shape, bitset[..], items, [], 0)
    }

    constructor (shape: Shape)
      requires shape.Valid()
      ensures Valid() && fresh(bitset) && this.shape == shape && items == {}
    {
      this.shape := shape;
      bitset := new Word64[(shape.m + 63) / 64](_ => 0);
      items := {};
      new;
      forall p: nat | p / 64 < bitset.Length ensures IsSet(bitset[..], p) == Marked(shape, {}, p) {
        BitOfZero(p % 64);
      }
    }

    method Add(data: Data)
      requires Valid()
      modifies this, bitset
      ensures Valid() && items == old(items) + {data}
    {
      hide Probe, Hash1, Hash2;
      var h1, h2 := Hash1(data), Hash2(data);
      var i := 0;
      while i < shape.k
        invariant 0 <= i <= shape.k && items == old(items)
        invariant Exact(shape, bitset[..], items, data, i)
      {
        var pos := Probe(h1, h2, i, shape.m);
        assert pos == Position(shape, data, i);
        ghost var before := bitset[..];
        var word := SetWord(bitset[pos / 64], pos % 64);
        ExactStep(shape, before, items, data, i, word);
        bitset[pos / 64] := word;
        assert bitset[..] == before[pos / 64 := word];
        i := i + 1;
      }
      ExactEnd(shape, bitset[..], items, data);
      items := items + {data};
    }

    method Contains(data: Data) returns (found: bool)
      requires Valid()
      ensures found == Covers(shape, items, data)
    {
      hide Probe, Hash1, Hash2;
      var h1, h2 := Hash1(data), Hash2(data);
      var i := 0;
      while i < shape.k
        invariant 0 <= i <= shape.k
        invariant forall j :: 0 <= j < i ==> Marked(shape, items, Position(shape, data, j))
      {
        var pos := Probe(h1, h2, i, shape.m);
        assert pos == Position(shape, data, i);
        var isSet := TestWord(bitset[pos / 64], pos % 64);
        ExactBit(shape, bitset[..], items, pos);
        if !isSet {
          return false;
        }
        i := i + 1;
      }
      return true;
    }
  }

  lemma ProbesStep(shape: Shape, data: Data, n: nat, p: nat)
    requires shape.Valid()
    ensures Probes(shape, data, n + 1, p) == (Probes(shape, data, n, p) || p == Position(shape, data, n))
  {
  }

  lemma MarkedStep(shape: Shape, items: set<Data>, data: Data, p: nat)
    requires shape.Valid()
    ensures Marked(shape, items + {data}, p) == (Marked(shape, items, p) || Probes(shape, data, shape.k, p))
  {
  }
}
