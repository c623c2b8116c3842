module Options {
  datatype Option<+T> = None | Some(value: T)
}

/** Byte streams: a reader that receives its bytes in arbitrary segments and a writer that may fail. */
module Streams {
  import opened Bits
  import opened Options

  function Flatten<T>(segments: seq<seq<T>>): seq<T> {
    if segments == [] then [] else segments[0] + Flatten(segments[1..])
  }

  lemma {:induction false} FlattenConcat<T>(a: seq<seq<T>>, b: seq<seq<T>>)
    ensures Flatten(a + b) == Flatten(a) + Flatten(b)
  {
    if a == [] {
      assert a + b == b;
    } else {
      FlattenConcat(a[1..], b);
      assert (a + b)[1..] == a[1..] + b;
      assert Flatten(a) + Flatten(b) == a[0] + (Flatten(a[1..]) + Flatten(b));
    }
  }

  /** Appending a segment to the ones before it, with others still to come. */
  lemma FlattenNext<T>(start: seq<T>, done: seq<seq<T>>, next: seq<T>, left: seq<seq<T>>)
    ensures start + Flatten(done) + next == start + Flatten(done + [next])
    ensures start + Flatten(done + [next]) <= start + Flatten(done + [next] + left)
  {
    FlattenConcat(done, [next]);
    FlattenConcat(done + [next], left);
    assert Flatten([next]) == next;
  }

  lemma Regroup<T>(done: seq<T>, next: T, left: seq<T>)
    ensures var all := done + ([next] + left);
      all == done + [next] + left && all[..|done|] == done && all[..|done| + 1] == done + [next]
  {
  }

  function Min(a: int, b: int): int { if a < b then a else b }

  /** The bytes received and not read yet, and the segments that will still arrive. */
  class Reader {
    var arrived: seq<Byte>
    var coming: seq<seq<Byte>>

    ghost function Pending(): seq<Byte>
      reads this
    {
      arrived + Flatten(coming)
    }

    constructor (coming: seq<seq<Byte>>)
      ensures Pending() == Flatten(coming)
    {
      this.arrived := [];
      this.coming := coming;
    }

    /** One read of at most `max` bytes; it may return fewer, and none when a segment is empty. */
    method Read(max: nat) returns (chunk: seq<Byte>, eof: bool)
      modifies this
      ensures old(Pending()) == chunk + Pending() && |chunk| <= max
      ensures eof ==> chunk == [] && Pending() == []
      ensures |coming| <= |old(coming)|
      ensures !eof && max > 0 && chunk == [] ==> |coming| < |old(coming)|
    {
      eof := false;
      if arrived == [] {
        if coming == [] {
          return [], true;
        }
        arrived, coming := coming[0], coming[1..];
      }
      var n := Min(max, |arrived|);
      chunk, arrived := arrived[..n], arrived[n..];
    }

    /** Fills the first `n` bytes of `a`, however they are segmented, or reads everything there is and fails. */
    method ReadInto(a: array<Byte>, n: nat) returns (ok: bool)
      requires n <= a.Length
      modifies this, a
      ensures ok == (|old(Pending())| >= n)
      ensures ok ==> a[..n] == old(Pending())[..n] && Pending() == old(Pending())[n..]
      ensures !ok ==> Pending() == []
      ensures a[n..] == old(a[n..])
    {
      var got: nat := 0;
      while got < n
        invariant got <= n && old(Pending()) == a[..got] + Pending()
        invariant forall i :: n <= i < a.Length ==> a[i] == old(a[i])
        decreases |coming|, n - got
      {
        var chunk, eof := Read(n - got);
        if eof {
          return false;
        }
        ghost var before := a[..got];
        forall i | 0 <= i < |chunk| {
          a[got + i] := chunk[i];
        }
        assert a[..got + |chunk|] == before + chunk;
        got := got + |chunk|;
      }
      return true;
    }

    /** The same into a new array. */
    method ReadFull(n: nat) returns (r: Option<seq<Byte>>)
      modifies this
      ensures |old(Pending())| >= n ==> r == Some(old(Pending())[..n]) && Pending() == old(Pending())[n..]
      ensures |old(Pending())| < n ==> r == None && Pending() == []
    {
      var a := new Byte[n](_ => 0);
      var ok := ReadInto(a, n);
      r := if ok then Some(a[..]) else None;
      assert a[..n] == a[..];
    }
  }

  /**
   A writer with a script of the outcomes of the next writes: `None` accepts the whole write,
   `Some(n)` accepts at most `n` bytes of it and fails. An exhausted script accepts everything.
   */
  datatype Sink = Sink(wire: seq<Byte>, script: seq<Option<nat>>) {
    predicate Accepts() { script == [] || script[0].None? }

    /** How many of `size` bytes the next write takes. */
    function Taken(size: nat): nat {
      if Accepts() then size else Min(script[0].value, size)
    }

    function Write(p: seq<Byte>): Sink {
      Sink(wire + p[..Taken(|p|)], if script == [] then [] else script[1..])
    }
  }
}
