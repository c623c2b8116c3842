/**
 The byte stream over a WebRTC data channel. Messages are received into one scratch array, and the
 unread bytes are a slice of that array: it must not be refilled while they are unread.
 */
module WebRtc {
  import opened Bits
  import opened Streams

  const CHUNK_SIZE: nat := 16 * 1024
  const SCRATCH_SIZE: nat := 64 * 1024

  type Message = seq<Byte>

  /** The messages one write of `p` is cut into. */
  function Messages(p: seq<Byte>): seq<Message>
    decreases |p|
  {
    if p == [] then []
    else if |p| <= CHUNK_SIZE then [p]
    else [p[..CHUNK_SIZE]] + Messages(p[CHUNK_SIZE..])
  }

  ghost predicate Fit(messages: seq<Message>) {
    messages != [] ==> |messages[0]| <= SCRATCH_SIZE && Fit(messages[1..])
  }

  /** The data channel: the messages under way to this side, those sent, and the fate of later sends. */
  class Conn {
    const scratch: array<Byte>
    var start: nat
    var end: nat
    var incoming: seq<Message>
    var sent: seq<Message>
    var accepts: seq<bool>

    ghost predicate Valid()
      reads this
    {
      scratch.Length == SCRATCH_SIZE && start <= end <= SCRATCH_SIZE && Fit(incoming)
    }

    /** The bytes not delivered yet: the slice of the scratch array, then the messages to come. */
    ghost function Unread(): seq<Byte>
      reads this, scratch
      requires Valid()
    {
      scratch[start..end] + Flatten(incoming)
    }

    constructor (incoming: seq<Message>, accepts: seq<bool>)
      requires Fit(incoming)
      ensures Valid() && fresh(scratch) && Unread() == Flatten(incoming) && sent == []
    {
      scratch := new Byte[SCRATCH_SIZE](_ => 0);
      start, end := 0, 0;
      this.incoming, this.sent, this.accepts := incoming, [], accepts;
    }

    /** Receives the next message into the scratch array. */
    method Receive() returns (ok: bool)
      requires Valid() && start == end
      modifies this, scratch
      ensures Valid() && Unread() == old(Unread()) && sent == old(sent)
      ensures if ok then |incoming| < |old(incoming)| else Unread() == []
    {
      if incoming == [] {
        return false;
      }
      var message := incoming[0];
      forall i | 0 <= i < |message| {
        scratch[i] := message[i];
      }
      start, end, incoming := 0, |message|, incoming[1..];
      assert scratch[start..end] == message;
      return true;
    }

    /** Delivers the next unread bytes into `p`, none only if `p` is empty, and fails only at the end. */
    method Read(p: array<Byte>) returns (n: nat, ok: bool)
      requires Valid() && p != scratch
      modifies this, scratch, p
      ensures Valid() && sent == old(sent)
      ensures n <= p.Length && p[n..] == old(p[n..])
      ensures ok ==> old(Unread()) == p[..n] + Unread()
      ensures ok && p.Length > 0 ==> n > 0
      ensures !ok ==> n == 0 && old(Unread()) == []
    {
      while start == end
        invariant Valid() && Unread() == old(Unread()) && sent == old(sent) && p[..] == old(p[..])
        decreases |incoming|
      {
        var received := Receive();
        if !received {
          return 0, false;
        }
      }
      n := Min(p.Length, end - start);
      ghost var unread := scratch[start..end];
      forall i | 0 <= i < n {
        p[i] := scratch[start + i];
      }
      start := start + n;
      assert unread == p[..n] + scratch[start..end];
      assert forall i :: n <= i < p.Length ==> p[i] == old(p[..])[i];
      return n, true;
    }

    /** Sends the messages of `p`; when one is refused, exactly the `count` before it were sent. */
    method Write(p: seq<Byte>) returns (total: nat, ok: bool, ghost count: nat)
      requires Valid()
      modifies `sent, `accepts
      ensures ok ==> total == |p| && sent == old(sent) + Messages(p)
      ensures !ok ==>
                && total == CHUNK_SIZE * count < |p|
                && count < |Messages(p)| && sent == old(sent) + Messages(p)[..count]
    {
      total := 0;
      var rest := p;
      ghost var done := [];
      while rest != []
        invariant total + |rest| == |p| && (rest != [] ==> total == CHUNK_SIZE * |done|)
        invariant Messages(p) == done + Messages(rest) && sent == old(sent) + done
      {
        var chunk := FirstMessage(rest);
        Regroup(done, chunk, Messages(rest[|chunk|..]));
        var accepted := Send(chunk);
        if !accepted {
          return total, false, |done|;
        }
        total := total + |chunk|;
        rest := rest[|chunk|..];
        done := done + [chunk];
      }
      assert done + Messages([]) == done;
      return total, true, |done|;
    }

    method Send(message: Message) returns (ok: bool)
      modifies `sent, `accepts
      ensures sent == if ok then old(sent) + [message] else old(sent)
    {
      ok := accepts == [] || accepts[0];
      if accepts != [] {
        accepts := accepts[1..];
      }
      if ok {
        sent := sent + [message];
      }
    }
  }

  method FirstMessage(p: seq<Byte>) returns (chunk: Message)
    requires p != []
    ensures 0 < |chunk| <= |p| && (|chunk| == |p| || |chunk| == CHUNK_SIZE)
    ensures Messages(p) == [chunk] + Messages(p[|chunk|..])
  {
    chunk := p;
    if |chunk| > CHUNK_SIZE {
      chunk := chunk[..CHUNK_SIZE];
    }
  }

  /** Cutting loses nothing, and every message fits the receiver's scratch array. */
  lemma {:induction false} MessagesAreWhole(p: seq<Byte>)
    ensures Flatten(Messages(p)) == p && Fit(Messages(p))
    decreases |p|
  {
    if |p| > CHUNK_SIZE {
      MessagesAreWhole(p[CHUNK_SIZE..]);
    }
  }

  function AllMessages(writes: seq<seq<Byte>>): seq<Message> {
    if writes == [] then [] else Messages(writes[0]) + AllMessages(writes[1..])
  }

  /** The peer of any sequence of completed writes has exactly the bytes written to read. */
  lemma {:induction false} WritesAreDelivered(writes: seq<seq<Byte>>)
    ensures Flatten(AllMessages(writes)) == Flatten(writes) && Fit(AllMessages(writes))
  {
    if writes != [] {
      MessagesAreWhole(writes[0]);
      WritesAreDelivered(writes[1..]);
      FlattenConcat(Messages(writes[0]), AllMessages(writes[1..]));
      FitConcat(Messages(writes[0]), AllMessages(writes[1..]));
    }
  }

  /** The first `count` messages of a write carry its first `count` chunks. */
  lemma {:induction false} FirstChunks(p: seq<Byte>, count: nat)
    requires count < |Messages(p)|
    ensures CHUNK_SIZE * count < |p| && Flatten(Messages(p)[..count]) == p[..CHUNK_SIZE * count]
    decreases count
  {
    if count > 0 {
      var rest := p[CHUNK_SIZE..];
      FirstChunks(rest, count - 1);
      assert Messages(p)[..count] == [p[..CHUNK_SIZE]] + Messages(rest)[..count - 1];
      assert p[..CHUNK_SIZE * count] == p[..CHUNK_SIZE] + rest[..CHUNK_SIZE * (count - 1)];
    }
  }

  /** A write that was completed, or refused after `count` messages. */
  datatype Attempt = Completed(p: seq<Byte>) | Refused(p: seq<Byte>, count: nat)

  predicate Possible(a: Attempt) { a.Refused? ==> a.count < |Messages(a.p)| }

  function Sent(attempts: seq<Attempt>): seq<Message> {
    if attempts == [] then []
    else
      var a := attempts[0];
      (if a.Completed? then Messages(a.p)
       else Messages(a.p)[..Min(a.count, |Messages(a.p)|)]) + Sent(attempts[1..])
  }

  /** The bytes that the attempts reported as written. */
  function Reported(attempts: seq<Attempt>): seq<Byte> {
    if attempts == [] then []
    else
      var a := attempts[0];
      (if a.Completed? then a.p else a.p[..Min(CHUNK_SIZE * a.count, |a.p|)]) + Reported(attempts[1..])
  }

  /**
   Over any sequence of writes, some of them refused part of the way, the peer has exactly the bytes
   reported as written to read, in order.
   */
  lemma {:induction false} ReportedIsDelivered(attempts: seq<Attempt>)
    requires forall a <- attempts :: Possible(a)
    ensures Flatten(Sent(attempts)) == Reported(attempts)
  {
    if attempts != [] {
      var a, more := attempts[0], attempts[1..];
      assert a in attempts && forall b <- more :: b in attempts;
      MessagesAreWhole(a.p);
      ReportedIsDelivered(more);
      if a.Refused? {
        FirstChunks(a.p, a.count);
        FlattenConcat(Messages(a.p)[..a.count], Sent(more));
      } else {
        FlattenConcat(Messages(a.p), Sent(more));
      }
    }
  }

  lemma {:induction false} FitConcat(a: seq<Message>, b: seq<Message>)
    requires Fit(a) && Fit(b)
    ensures Fit(a + b)
  {
    if a == [] {
      assert a + b == b;
    } else {
      assert (a + b)[1..] == a[1..] + b;
      FitConcat(a[1..], b);
    }
  }
}
