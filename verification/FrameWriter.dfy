/**
 The frame writer: frames from several goroutines are gathered in a batch that is written when it
 fills up, when a timer has run out, on request and on closing. The timer only leaves a token in a
 channel of capacity one; a background flusher takes the token and writes the batch.
 */
module FrameWriter {
  import opened Bits
  import opened Options
  import opened Streams
  import opened Frames

  const MAX_BATCH: nat := 128 * 1024

  // ----- The state and its steps

  datatype Flusher = Waiting | Holding | Gone

  /**
   The batch and the connection, with the bodies accepted so far and the number of bytes lost to
   failed writes; the timer, its callbacks that have fired but not run, the token, and the flusher.
   */
  datatype State = State(
    batch: seq<Byte>, sink: Sink, accepted: seq<Body>, lost: nat,
    armed: bool, callbacks: nat, token: bool, flusher: Flusher, closed: bool)

  function Start(sink: Sink): State { State([], sink, [], 0, false, 0, false, Waiting, false) }

  /** Writes the batch. Whether or not the write succeeds, the batch is empty afterwards. */
  function Flushed(s: State): State {
    if s.batch == [] then s
    else s.(batch := [], sink := s.sink.Write(s.batch), lost := s.lost + |s.batch| - s.sink.Taken(|s.batch|))
  }

  predicate FlushFails(s: State) { s.batch != [] && !s.sink.Accepts() }

  predicate Overflows(s: State, body: Body) { |s.batch| + 2 + |body| > MAX_BATCH }

  function Appended(s: State, body: Body): State {
    s.(batch := s.batch + Encode(body), accepted := s.accepted + [body])
  }

  /**
   Writes a frame. A body of impossible size is dropped silently. Typed frames (`eager`) also write
   the batch when it is half full.
   */
  function Wrote(s: State, body: seq<Byte>, eager: bool): State {
    if !Fits(body) then s
    else
      var room := if Overflows(s, body) then Flushed(s) else s;
      if Overflows(s, body) && FlushFails(s) then room
      else
        var full := Appended(room, body);
        if eager && |full.batch| >= MAX_BATCH / 2 then Flushed(full) else full.(armed := true)
  }

  /** The same in direct mode: every frame is one write. */
  function WroteDirect(s: State, body: seq<Byte>): State {
    if !Fits(body) then s else Flushed(Appended(s, body))
  }

  datatype Step =
    | Write(body: seq<Byte>, eager: bool)
    | Flush
    | Expire
    | RunCallback
    | TakeToken
    | FlusherFlush
    | FlusherExit
    | MarkClosed
    | StopTimer

  predicate Enabled(s: State, step: Step) {
    match step
    case Write(_, _) => true
    case Flush => true
    case Expire => s.armed
    case RunCallback => s.callbacks > 0
    case TakeToken => s.token && s.flusher.Waiting?
    case FlusherFlush => s.flusher.Holding?
    case FlusherExit => s.closed && s.flusher.Waiting?
    case MarkClosed => true
    case StopTimer => s.closed
  }

  function Next(s: State, step: Step): State
    requires Enabled(s, step)
  {
    match step
    case Write(body, eager) => Wrote(s, body, eager)
    case Flush => Flushed(s)
    case Expire => s.(armed := false, callbacks := s.callbacks + 1)
    case RunCallback => s.(callbacks := s.callbacks - 1, token := true)
    case TakeToken => s.(token := false, flusher := Holding)
    case FlusherFlush => Flushed(s).(flusher := Waiting)
    case FlusherExit => s.(flusher := Gone)
    case MarkClosed => s.(closed := true)
    case StopTimer => s.(armed := false)
  }

  function Run(s: State, steps: seq<Step>): Option<State>
    decreases |steps|
  {
    if steps == [] then Some(s)
    else if Enabled(s, steps[0]) then Run(Next(s, steps[0]), steps[1..])
    else None
  }

  // ----- The writer

  /** What has become of the script of the connection: `ok` if and only if no write used up a failure. */
  predicate Consumed(before: seq<Option<nat>>, after: seq<Option<nat>>, ok: bool) {
    && |after| <= |before| && after == before[|before| - |after|..]
    && (ok <==> forall i :: 0 <= i < |before| - |after| ==> before[i].None?)
  }

  lemma ConsumedTwice(a: seq<Option<nat>>, b: seq<Option<nat>>, c: seq<Option<nat>>, ok: bool)
    requires Consumed(a, b, true) && Consumed(b, c, ok)
    ensures Consumed(a, c, ok)
  {
    var n, m := |a| - |b|, |b| - |c|;
    assert forall i :: 0 <= i < m ==> b[i] == a[n + i];
    assert a[n..][m..] == a[n + m..];
    if !ok {
      var i :| 0 <= i < m && !b[i].None?;
      assert !a[n + i].None?;
    } else {
      forall i | 0 <= i < n + m ensures a[i].None? {
        if i >= n {
          assert a[i] == b[i - n];
        }
      }
    }
  }

  lemma HeaderSize(frame: seq<Byte>, body: Body)
    requires frame == Encode(body)
    ensures |frame| == 2 + |body| && frame[0] as int * 256 + frame[1] as int == |body|
  {
  }

  class FrameWriter {
    var sink: Sink
    var batchBuf: seq<Byte>
    var batchSize: nat
    var timerSet: bool
    var armed: bool
    var callbacks: nat
    var token: bool
    var flusher: Flusher
    var closed: bool
    const directMode: bool
    const directBuf: array<Byte>
    ghost var accepted: seq<Body>
    ghost var lost: nat

    ghost predicate Valid()
      reads this
    {
      && batchSize == |batchBuf| <= MAX_BATCH
      && (directMode ==> batchBuf == [] && directBuf.Length == 3 + MAX_FRAME)
      && (armed ==> timerSet)
    }

    ghost function Abs(): State
      reads this
    {
      State(batchBuf, sink, accepted, lost, armed, callbacks, token, flusher, closed)
    }

    constructor (sink: Sink)
      ensures Valid() && !directMode && Abs() == Start(sink)
    {
      this.sink, batchBuf, batchSize := sink, [], 0;
      timerSet, armed, callbacks, token, flusher, closed := false, false, 0, false, Waiting, false;
      directMode := false;
      directBuf := new Byte[0];
      accepted, lost := [], 0;
    }

    constructor Direct(sink: Sink)
      ensures Valid() && directMode && fresh(directBuf) && Abs() == Start(sink).(flusher := Gone)
    {
      this.sink, batchBuf, batchSize := sink, [], 0;
      timerSet, armed, callbacks, token, flusher, closed := false, false, 0, false, Gone, false;
      directMode := true;
      directBuf := new Byte[3 + MAX_FRAME](_ => 0);
      accepted, lost := [], 0;
    }

    method FlushLocked() returns (ok: bool)
      requires Valid()
      modifies this
      ensures Valid() && timerSet == old(timerSet)
      ensures Abs() == Flushed(old(Abs())) && ok == !FlushFails(old(Abs()))
      ensures Consumed(old(sink.script), sink.script, ok)
    {
      if batchSize == 0 {
        return true;
      }
      ok := sink.Accepts();
      lost := lost + batchSize - sink.Taken(batchSize);
      assert batchBuf[..batchSize] == batchBuf;
      sink := sink.Write(batchBuf[..batchSize]);
      batchBuf, batchSize := [], 0;
    }

    method ScheduleFlush()
      modifies this`timerSet, this`armed
      ensures timerSet && armed
    {
      timerSet := true;
      armed := true;
    }

    /** Appends the encoding of `body` to the batch, writing the batch first when it would overflow. */
    method Append(body: Body) returns (ok: bool)
      requires Valid() && !directMode
      modifies this
      ensures Valid() && timerSet == old(timerSet)
      ensures ok == !(Overflows(old(Abs()), body) && FlushFails(old(Abs())))
      ensures var room := if Overflows(old(Abs()), body) then Flushed(old(Abs())) else old(Abs());
        Abs() == if ok then Appended(room, body) else room
      ensures Consumed(old(sink.script), sink.script, ok)
    {
      if batchSize + 2 + |body| > MAX_BATCH {
        ok := FlushLocked();
        if !ok {
          return false;
        }
      }
      batchBuf := batchBuf + [|body| / 256, |body| % 256];
      batchBuf := batchBuf + body;
      batchSize := batchSize + 2 + |body|;
      accepted := accepted + [body];
      return true;
    }

    method WriteTypedFrame(typ: Byte, payload: seq<Byte>) returns (ok: bool)
      requires Valid()
      modifies this, directBuf
      ensures Valid()
      ensures Abs() == if directMode then WroteDirect(old(Abs()), [typ] + payload)
                       else Wrote(old(Abs()), [typ] + payload, true)
      ensures |sink.script| <= |old(sink.script)|
      ensures ok <==> forall i :: 0 <= i < |old(sink.script)| - |sink.script| ==> old(sink.script)[i].None?
      ensures ok ==> lost == old(lost) && (Fits([typ] + payload) ==> accepted == old(accepted) + [[typ] + payload])
    {
      var frameLen := 1 + |payload|;
      if frameLen == 0 || frameLen > MAX_FRAME {
        return true;
      }
      if directMode {
        directBuf[0], directBuf[1], directBuf[2] := frameLen / 256, frameLen % 256, typ;
        forall i | 0 <= i < |payload| {
          directBuf[3 + i] := payload[i];
        }
        assert directBuf[..2 + frameLen] == Encode([typ] + payload);
        ok := WriteDirect([typ] + payload);
        return;
      }
      ok := Append([typ] + payload);
      if !ok {
        return;
      }
      if batchSize >= MAX_BATCH / 2 {
        ghost var between := sink.script;
        ok := FlushLocked();
        ConsumedTwice(old(sink.script), between, sink.script, ok);
        return;
      }
      ScheduleFlush();
    }

    method WriteFrame(data: seq<Byte>) returns (ok: bool)
      requires Valid()
      modifies this, directBuf
      ensures Valid()
      ensures Abs() == if directMode then WroteDirect(old(Abs()), data) else Wrote(old(Abs()), data, false)
      ensures |sink.script| <= |old(sink.script)|
      ensures ok <==> forall i :: 0 <= i < |old(sink.script)| - |sink.script| ==> old(sink.script)[i].None?
      ensures ok ==> lost == old(lost) && (Fits(data) ==> accepted == old(accepted) + [data])
    {
      if |data| == 0 || |data| > MAX_FRAME {
        return true;
      }
      if directMode {
        directBuf[0], directBuf[1] := |data| / 256, |data| % 256;
        forall i | 0 <= i < |data| {
          directBuf[2 + i] := data[i];
        }
        assert directBuf[..2 + |data|] == Encode(data);
        ok := WriteDirect(data);
        return;
      }
      ok := Append(data);
      if !ok {
        return;
      }
      ScheduleFlush();
    }

    /** Writes the frame that has been laid out in the direct buffer. */
    method WriteDirect(ghost body: Body) returns (ok: bool)
      requires Valid() && directMode && directBuf[..2 + |body|] == Encode(body)
      modifies this
      ensures Valid() && Abs() == Flushed(Appended(old(Abs()), body))
      ensures Consumed(old(sink.script), sink.script, ok) && (ok ==> lost == old(lost))
    {
      var high: nat, low: nat := directBuf[0], directBuf[1];
      var size := high * 256 + low + 2;
      HeaderSize(directBuf[..2 + |body|], body);
      assert [] + Encode(body) == Encode(body);
      hide Encode;
      ok := sink.Accepts();
      lost := lost + size - sink.Taken(size);
      sink := sink.Write(directBuf[..size]);
      accepted := accepted + [body];
    }

    method Flush() returns (ok: bool)
      requires Valid()
      modifies this
      ensures Valid() && Abs() == Flushed(old(Abs()))
      ensures |sink.script| <= |old(sink.script)|
      ensures ok <==> forall i :: 0 <= i < |old(sink.script)| - |sink.script| ==> old(sink.script)[i].None?
    {
      if directMode {
        return true;
      }
      ok := FlushLocked();
    }

    /** The timer's function: leaves a token unless there is one. */
    method OnTimer()
      requires Valid() && callbacks > 0
      modifies this
      ensures Valid() && Abs() == Next(old(Abs()), RunCallback)
    {
      callbacks := callbacks - 1;
      if !token {
        token := true;
      }
    }

    /** One turn of the flusher with a token. */
    method AutoFlush()
      requires Valid() && !directMode && token && flusher.Waiting?
      modifies this
      ensures Valid() && Abs() == Next(Next(old(Abs()), TakeToken), FlusherFlush)
    {
      token, flusher := false, Holding;
      var _ := Flush();
      flusher := Waiting;
    }

    method Close() returns (ok: bool)
      requires Valid()
      modifies this
      ensures Valid()
      ensures Abs() == Next(Next(Next(old(Abs()), MarkClosed), StopTimer), Step.Flush)
      ensures |sink.script| <= |old(sink.script)|
      ensures ok <==> forall i :: 0 <= i < |old(sink.script)| - |sink.script| ==> old(sink.script)[i].None?
    {
      if !closed {
        closed := true;
      }
      if timerSet {
        armed := false;
      }
      ok := Flush();
    }
  }

  // ----- Refinement: batching is invisible on the wire

  /** The bytes on the wire and in the batch are the accepted frames, unless bytes were lost. */
  ghost predicate Conserved(start: seq<Byte>, s: State) {
    && |s.batch| <= MAX_BATCH
    && |s.sink.wire| + |s.batch| + s.lost == |start| + |EncodeAll(s.accepted)|
    && (s.lost == 0 ==> s.sink.wire + s.batch == start + EncodeAll(s.accepted))
  }

  lemma FlushedConserves(start: seq<Byte>, s: State)
    requires Conserved(start, s)
    ensures Conserved(start, Flushed(s))
  {
    if s.batch != [] {
      var n := s.sink.Taken(|s.batch|);
      assert n == |s.batch| ==> s.batch[..n] == s.batch;
    }
  }

  lemma AppendedConserves(start: seq<Byte>, s: State, body: Body)
    requires Conserved(start, s) && !Overflows(s, body)
    ensures Conserved(start, Appended(s, body))
  {
    EncodeAllSnoc(s.accepted, body);
    Associate(s.sink.wire, s.batch, Encode(body));
    Associate(start, EncodeAll(s.accepted), Encode(body));
  }

  lemma Associate(a: seq<Byte>, b: seq<Byte>, c: seq<Byte>)
    ensures a + b + c == a + (b + c)
  {
  }

  lemma WroteConserves(start: seq<Byte>, s: State, body: Body, eager: bool)
    requires Conserved(start, s)
    ensures Conserved(start, Wrote(s, body, eager))
  {
    FlushedConserves(start, s);
    var room := if Overflows(s, body) then Flushed(s) else s;
    AppendedConserves(start, room, body);
    FlushedConserves(start, Appended(room, body));
  }

  lemma StepConserves(start: seq<Byte>, s: State, step: Step)
    requires Conserved(start, s) && Enabled(s, step)
    ensures Conserved(start, Next(s, step))
  {
    match step
    case Write(body, eager) =>
      if Fits(body) {
        WroteConserves(start, s, body, eager);
      }
    case Flush => FlushedConserves(start, s);
    case FlusherFlush => FlushedConserves(start, s);
    case _ =>
  }

  /** Conservation holds in every state of every run, whatever the connection does. */
  lemma {:induction false} RunConserves(start: seq<Byte>, s: State, steps: seq<Step>)
    requires Conserved(start, s) && Run(s, steps).Some?
    ensures Conserved(start, Run(s, steps).value)
    decreases |steps|
  {
    if steps != [] {
      StepConserves(start, s, steps[0]);
      RunConserves(start, Next(s, steps[0]), steps[1..]);
    }
  }

  /**
   In every reachable state the batch fits its buffer, and wire and batch together are exactly the
   encodings of the accepted frames, in the order of their writes, if and only if no byte was lost.
   */
  lemma WriterRefines(sink: Sink, steps: seq<Step>, s: State)
    requires Run(Start(sink), steps) == Some(s)
    ensures |s.batch| <= 131072
    ensures s.sink.wire + s.batch == sink.wire + EncodeAll(s.accepted) <==> s.lost == 0
  {
    assert sink.wire + [] == sink.wire;
    RunConserves(sink.wire, Start(sink), steps);
  }

  /** The bodies of all writes that have a possible size. */
  function Bodies(steps: seq<Step>): seq<Body> {
    if steps == [] then []
    else if steps[0].Write? && Fits(steps[0].body) then [steps[0].body] + Bodies(steps[1..])
    else Bodies(steps[1..])
  }

  ghost predicate Reliable(sink: Sink) { sink.script == [] }

  /** Nothing but accepted frames is added to the log. */
  ghost predicate Keeps(s: State, t: State) {
    Reliable(s.sink) ==> Reliable(t.sink) && t.lost == s.lost && t.accepted == s.accepted
  }

  lemma FlushedKeeps(s: State)
    ensures Keeps(s, Flushed(s))
  {
  }

  lemma ReliableStep(s: State, step: Step)
    requires Reliable(s.sink) && Enabled(s, step)
    ensures var t := Next(s, step);
      && Reliable(t.sink) && t.lost == s.lost
      && t.accepted == if step.Write? && Fits(step.body) then s.accepted + [step.body] else s.accepted
  {
    FlushedKeeps(s);
    if step.Write? && Fits(step.body) {
      FlushedKeeps(Appended(if Overflows(s, step.body) then Flushed(s) else s, step.body));
    }
  }

  /** Over a connection that does not fail nothing is lost, and every possible frame is accepted. */
  lemma {:induction false} ReliableAcceptsAll(s: State, steps: seq<Step>)
    requires Reliable(s.sink) && Run(s, steps).Some?
    ensures var t := Run(s, steps).value;
      Reliable(t.sink) && t.lost == s.lost && t.accepted == s.accepted + Bodies(steps)
    decreases |steps|
  {
    if steps != [] {
      ReliableStep(s, steps[0]);
      var next := Next(s, steps[0]);
      ReliableAcceptsAll(next, steps[1..]);
    }
  }

  /** What direct mode puts on the wire for the same writes. */
  function DirectWire(wire: seq<Byte>, bodies: seq<Body>): seq<Byte>
    decreases |bodies|
  {
    if bodies == [] then wire
    else DirectWire(WroteDirect(Start(Sink(wire, [])), bodies[0]).sink.wire, bodies[1..])
  }

  lemma {:induction false} DirectWireIsEncodeAll(wire: seq<Byte>, bodies: seq<Body>)
    ensures DirectWire(wire, bodies) == wire + EncodeAll(bodies)
    decreases |bodies|
  {
    if bodies != [] {
      var packet := Encode(bodies[0]);
      assert [] + packet == packet && packet[..|packet|] == packet;
      DirectWireIsEncodeAll(wire + packet, bodies[1..]);
      Associate(wire, packet, EncodeAll(bodies[1..]));
    }
  }

  /**
   Any interleaving of batched writes that ends with an empty batch leaves the bytes that direct mode
   leaves for the accepted frames, if and only if no failed write has lost bytes. Over a connection that
   does not fail, those are all frames of possible size.
   */
  lemma BatchingIsInvisible(sink: Sink, steps: seq<Step>, s: State)
    requires Run(Start(sink), steps) == Some(s) && s.batch == []
    ensures s.sink.wire == DirectWire(sink.wire, s.accepted) <==> s.lost == 0
    ensures Reliable(sink) ==> s.sink.wire == DirectWire(sink.wire, Bodies(steps))
  {
    WriterRefines(sink, steps, s);
    DirectWireIsEncodeAll(sink.wire, s.accepted);
    assert s.sink.wire + s.batch == s.sink.wire;
    if Reliable(sink) {
      ReliableAcceptsAll(Start(sink), steps);
      assert [] + Bodies(steps) == Bodies(steps);
    }
  }

  // ----- When the batch is written

  /** A frame that fits into the batch, and a typed one into its first half, waits there for the timer. */
  lemma SmallFrameWaits(s: State, body: Body, eager: bool)
    requires |s.batch| + 2 + |body| <= 131072
    requires eager ==> |s.batch| + 2 + |body| < 65536
    ensures var t := Next(s, Write(body, eager));
      && t.sink == s.sink && t.lost == s.lost && t.armed
      && t.batch == s.batch + Encode(body) && t.accepted == s.accepted + [body]
  {
  }

  /** A typed frame that makes the batch half full is written at once, together with the batch, in one write. */
  lemma HalfFullIsWritten(s: State, body: Body)
    requires 65536 <= |s.batch| + 2 + |body| <= 131072
    ensures var t := Next(s, Write(body, true));
      t.batch == [] && t.sink == s.sink.Write(s.batch + Encode(body)) && t.accepted == s.accepted + [body]
  {
    assert s.batch + Encode(body) != [];
  }

  /** A frame that overflows the batch makes room first, unless that write fails. */
  lemma OverflowMakesRoom(s: State, body: Body)
    requires |s.batch| + 2 + |body| > 131072
    ensures var t := Next(s, Write(body, false));
      && t.sink == s.sink.Write(s.batch)
      && if s.sink.Accepts() then t.batch == Encode(body) && t.accepted == s.accepted + [body]
         else t.batch == [] && t.accepted == s.accepted
  {
    assert s.batch != [];
    assert [] + Encode(body) == Encode(body);
  }

  /** A body of impossible size changes nothing. */
  lemma ImpossibleSizeIsDropped(s: State, body: seq<Byte>, eager: bool)
    requires |body| == 0 || |body| > 65535
    ensures Next(s, Write(body, eager)) == s
  {
  }

  // ----- No stranded bytes

  /** Until closing, a batch that is not empty has something under way that will write it. */
  ghost predicate Covered(s: State) {
    && (s.flusher.Gone? ==> s.closed)
    && (!s.closed && s.batch != [] ==> s.armed || s.callbacks > 0 || s.token || s.flusher.Holding?)
  }

  lemma {:induction false} NoStrandedBytes(s: State, steps: seq<Step>)
    requires Covered(s) && Run(s, steps).Some?
    ensures Covered(Run(s, steps).value)
    decreases |steps|
  {
    if steps != [] {
      NoStrandedBytes(Next(s, steps[0]), steps[1..]);
    }
  }

  /** The steps of timer, callback and flusher, which need no caller. */
  predicate Internal(step: Step) {
    step.Expire? || step.RunCallback? || step.TakeToken? || step.FlusherFlush?
  }

  predicate Quiet(s: State) {
    !Enabled(s, Expire) && !Enabled(s, RunCallback) && !Enabled(s, TakeToken) && !Enabled(s, FlusherFlush)
  }

  /** How many internal steps can still happen. */
  function Budget(s: State): nat {
    (if s.armed then 4 else 0) + 3 * s.callbacks + (if s.token then 2 else 0)
    + if s.flusher.Holding? then 1 else 0
  }

  lemma {:induction false} InternalRun(s: State, steps: seq<Step>)
    requires Covered(s) && !s.closed && Run(s, steps).Some?
    requires forall i :: 0 <= i < |steps| ==> Internal(steps[i])
    ensures var t := Run(s, steps).value;
      Covered(t) && !t.closed && t.accepted == s.accepted && |steps| + Budget(t) <= Budget(s)
    decreases |steps|
  {
    if steps != [] {
      InternalRun(Next(s, steps[0]), steps[1..]);
    }
  }

  lemma Reached(sink: Sink, before: seq<Step>, s: State)
    requires Run(Start(sink), before) == Some(s)
    ensures Covered(s) && Conserved(sink.wire, s)
  {
    NoStrandedBytes(Start(sink), before);
    assert sink.wire + [] == sink.wire;
    RunConserves(sink.wire, Start(sink), before);
  }

  lemma QuietIsDelivered(start: seq<Byte>, s: State)
    requires Covered(s) && Conserved(start, s) && !s.closed && Quiet(s)
    ensures s.batch == [] && (s.lost == 0 ==> s.sink.wire == start + EncodeAll(s.accepted))
  {
    assert s.sink.wire + [] == s.sink.wire;
  }

  /**
   Left alone, an open writer delivers: from every reachable state the internal steps end after at
   most `Budget` of them, and then the batch is empty and, if nothing was lost, the wire complete.
   */
  lemma BatchDrains(sink: Sink, before: seq<Step>, s: State, steps: seq<Step>, t: State)
    requires Run(Start(sink), before) == Some(s) && !s.closed
    requires forall i :: 0 <= i < |steps| ==> Internal(steps[i])
    requires Run(s, steps) == Some(t)
    ensures |steps| <= Budget(s) && t.accepted == s.accepted
    ensures Quiet(t) ==> t.batch == []
    ensures Quiet(t) && t.lost == 0 ==> t.sink.wire == sink.wire + EncodeAll(s.accepted)
  {
    Reached(sink, before, s);
    InternalRun(s, steps);
    RunConserves(sink.wire, s, steps);
    if Quiet(t) {
      QuietIsDelivered(sink.wire, t);
    }
  }

  // ----- What closing changes

  /** The steps that need no caller, with the end of the flusher of a closed writer. */
  predicate Unaided(step: Step) { Internal(step) || step.FlusherExit? }

  predicate AllUnaided(steps: seq<Step>) {
    forall i :: 0 <= i < |steps| ==> Unaided(steps[i])
  }

  predicate AtRest(s: State) { Quiet(s) && !Enabled(s, FlusherExit) }

  /** However the unaided steps are ordered, once none is left the batch is empty. */
  ghost predicate AlwaysDrains(s: State) {
    forall steps | AllUnaided(steps) && Run(s, steps).Some? && AtRest(Run(s, steps).value) ::
      Run(s, steps).value.batch == []
  }

  /** How many unaided steps can still happen. */
  function UnaidedBudget(s: State): nat {
    Budget(s) + if s.closed && !s.flusher.Gone? then 1 else 0
  }

  /** Every run of unaided steps comes to rest, whether or not the writer is closed. */
  lemma {:induction false} UnaidedEnds(s: State, steps: seq<Step>)
    requires AllUnaided(steps) && Run(s, steps).Some?
    ensures |steps| + UnaidedBudget(Run(s, steps).value) <= UnaidedBudget(s)
    ensures Run(s, steps).value.closed == s.closed
    decreases |steps|
  {
    if steps != [] {
      assert Unaided(steps[0]);
      UnaidedEnds(Next(s, steps[0]), steps[1..]);
    }
  }

  /** A closed writer whose batch is empty or about to be written by the flusher stays so. */
  lemma {:induction false} HoldingDrains(s: State, steps: seq<Step>)
    requires s.batch == [] || s.flusher.Holding?
    requires AllUnaided(steps) && Run(s, steps).Some?
    ensures var t := Run(s, steps).value; t.batch == [] || t.flusher.Holding?
    decreases |steps|
  {
    if steps != [] {
      assert Unaided(steps[0]);
      HoldingDrains(Next(s, steps[0]), steps[1..]);
    }
  }

  /** An open writer stays open and covered. */
  lemma {:induction false} OpenDrains(s: State, steps: seq<Step>)
    requires Covered(s) && !s.closed && AllUnaided(steps) && Run(s, steps).Some?
    ensures var t := Run(s, steps).value; Covered(t) && !t.closed
    decreases |steps|
  {
    if steps != [] {
      assert Unaided(steps[0]);
      OpenDrains(Next(s, steps[0]), steps[1..]);
    }
  }

  /** Once the flusher is gone nothing unaided writes the batch. */
  lemma {:induction false} GoneNeverDrains(s: State, steps: seq<Step>)
    requires s.flusher.Gone? && AllUnaided(steps) && Run(s, steps).Some?
    ensures Run(s, steps).value.batch == s.batch && Run(s, steps).value.flusher.Gone?
    decreases |steps|
  {
    if steps != [] {
      assert Unaided(steps[0]);
      GoneNeverDrains(Next(s, steps[0]), steps[1..]);
    }
  }

  // The steps left once the flusher is gone: the timer expires and the callbacks run.
  function WindDown(s: State): seq<Step>
    decreases s.armed, s.callbacks
  {
    if s.armed then [Expire] + WindDown(Next(s, Expire))
    else if s.callbacks > 0 then [RunCallback] + WindDown(Next(s, RunCallback))
    else []
  }

  lemma {:induction false} WindDownRests(s: State)
    requires s.flusher.Gone?
    ensures AllUnaided(WindDown(s)) && Run(s, WindDown(s)).Some? && AtRest(Run(s, WindDown(s)).value)
    decreases s.armed, s.callbacks
  {
    if s.armed || s.callbacks > 0 {
      var step := if s.armed then Expire else RunCallback;
      WindDownRests(Next(s, step));
      RunStep(s, step, WindDown(Next(s, step)));
    }
  }

  // A closed writer whose flusher does not hold a token may come to rest with its batch as it is.
  lemma MayStrand(s: State) returns (steps: seq<Step>)
    requires s.closed && !s.flusher.Holding?
    ensures AllUnaided(steps) && Run(s, steps).Some?
    ensures AtRest(Run(s, steps).value) && Run(s, steps).value.batch == s.batch
  {
    var gone := s.(flusher := Gone);
    WindDownRests(gone);
    GoneNeverDrains(gone, WindDown(gone));
    if s.flusher.Waiting? {
      steps := [FlusherExit] + WindDown(gone);
      RunStep(s, FlusherExit, WindDown(gone));
    } else {
      steps := WindDown(gone);
    }
  }

  /**
   The exact condition for delivery without a caller. From a reachable state every run of timer,
   callbacks and flusher that comes to rest leaves the batch empty if and only if the writer is open,
   or the flusher already holds a token, or there is nothing to write.
   */
  lemma DrainsExactly(sink: Sink, before: seq<Step>, s: State)
    requires Run(Start(sink), before) == Some(s)
    ensures AlwaysDrains(s) <==> !s.closed || s.flusher.Holding? || s.batch == []
  {
    Reached(sink, before, s);
    if !s.closed || s.flusher.Holding? || s.batch == [] {
      forall steps | AllUnaided(steps) && Run(s, steps).Some? && AtRest(Run(s, steps).value)
        ensures Run(s, steps).value.batch == []
      {
        if s.closed || s.batch == [] {
          HoldingDrains(s, steps);
        } else {
          OpenDrains(s, steps);
        }
      }
    } else {
      var steps := MayStrand(s);
      assert Run(s, steps).value.batch != [];
    }
  }

  /** The other case occurs: after closing the flusher goes, and the writer still accepts frames. */
  lemma StrandedAfterClose(sink: Sink, body: Body)
    ensures var closed := Run(Start(sink), [MarkClosed, StopTimer, Step.Flush, FlusherExit]);
      closed.Some? && closed.value.flusher.Gone? && Wrote(closed.value, body, false).batch == Encode(body)
  {
    var s := Start(sink);
    RunStep(s, MarkClosed, [StopTimer, Step.Flush, FlusherExit]);
    s := Next(s, MarkClosed);
    RunStep(s, StopTimer, [Step.Flush, FlusherExit]);
    s := Next(s, StopTimer);
    RunStep(s, Step.Flush, [FlusherExit]);
    RunStep(s, FlusherExit, []);
    assert [] + Encode(body) == Encode(body);
  }

  lemma RunStep(s: State, step: Step, rest: seq<Step>)
    requires Enabled(s, step)
    ensures Run(s, [step] + rest) == Run(Next(s, step), rest)
  {
    assert ([step] + rest)[1..] == rest;
  }
}
