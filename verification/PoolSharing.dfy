/**
 Several frame loops of clients and servers on one buffer pool. A loop borrows a buffer, fills it, does
 with the frame what its side does, copying what its consumers keep and decoding the rest in place, and
 returns the buffer; the others run between any two of these steps, and the garbage collector may take
 buffers from the pool.
 */
module PoolSharing {
  import opened Bits
  import opened Options
  import opened Frames
  import FrameReader

  type Buffer = nat

  datatype Stage = Idle | Filling(buf: Buffer) | Filled(buf: Buffer) | Used(buf: Buffer) | Stopped

  /** A loop with the frames its stream still holds and what it has passed on. */
  datatype Loop = Loop(side: FrameReader.Side, stage: Stage, input: seq<Body>, out: seq<FrameReader.Event>)

  // What a loop passes on for the bytes it finds in its buffer.
  function Passed(side: FrameReader.Side, bytes: seq<Byte>): seq<FrameReader.Event> {
    if Fits(bytes) then FrameReader.Handled(side, bytes) else []
  }

  /** The contents of all buffers made so far, the pool, and the loops. */
  datatype State = State(contents: seq<seq<Byte>>, free: multiset<Buffer>, loops: seq<Loop>)

  datatype Step =
    | Borrow(loop: nat, buf: Buffer)
    | Make(loop: nat)
    | FillPart(loop: nat, bytes: seq<Byte>)
    | Fill(loop: nat)
    | FillFails(loop: nat)
    | Use(loop: nat)
    | Return(loop: nat)
    | Collect(buf: Buffer)

  predicate Holds(l: Loop, b: Buffer) {
    (l.stage.Filling? || l.stage.Filled? || l.stage.Used?) && l.stage.buf == b
  }

  predicate WellFormed(s: State) {
    forall i :: 0 <= i < |s.loops| ==>
      var stage := s.loops[i].stage;
      stage.Filling? || stage.Filled? || stage.Used? ==> stage.buf < |s.contents| && s.loops[i].input != []
  }

  predicate Enabled(s: State, step: Step) {
    match step
    case Borrow(l, b) => l < |s.loops| && s.loops[l].stage.Idle? && s.loops[l].input != [] && b in s.free
    case Make(l) => l < |s.loops| && s.loops[l].stage.Idle? && s.loops[l].input != []
    case FillPart(l, _) => l < |s.loops| && s.loops[l].stage.Filling?
    case Fill(l) => l < |s.loops| && s.loops[l].stage.Filling?
    case FillFails(l) => l < |s.loops| && s.loops[l].stage.Filling?
    case Use(l) => l < |s.loops| && s.loops[l].stage.Filled?
    case Return(l) => l < |s.loops| && s.loops[l].stage.Used?
    case Collect(b) => b in s.free
  }

  function At(s: State, l: nat, stage: Stage): State
    requires l < |s.loops|
  {
    s.(loops := s.loops[l := s.loops[l].(stage := stage)])
  }

  function Next(s: State, step: Step): State
    requires WellFormed(s) && Enabled(s, step)
  {
    match step
    case Borrow(l, b) => At(s, l, Filling(b)).(free := s.free - multiset{b})
    case Make(l) => At(s, l, Filling(|s.contents|)).(contents := s.contents + [[]])
    case FillPart(l, bytes) => s.(contents := s.contents[s.loops[l].stage.buf := bytes])
    case Fill(l) =>
      var b := s.loops[l].stage.buf;
      At(s, l, Filled(b)).(contents := s.contents[b := s.loops[l].input[0]])
    case FillFails(l) => At(s, l, Stopped).(free := s.free + multiset{s.loops[l].stage.buf})
    case Use(l) =>
      var b := s.loops[l].stage.buf;
      var passed := Passed(s.loops[l].side, s.contents[b]);
      s.(loops := s.loops[l := s.loops[l].(stage := Used(b), out := s.loops[l].out + passed)])
    case Return(l) =>
      s.(loops := s.loops[l := s.loops[l].(stage := Idle, input := s.loops[l].input[1..])],
         free := s.free + multiset{s.loops[l].stage.buf})
    case Collect(b) => s.(free := s.free - multiset{b})
  }

  /** A buffer has one place: once in the pool, or with one loop. */
  ghost predicate Owned(s: State) {
    && WellFormed(s)
    && (forall b :: b in s.free ==> s.free[b] == 1 && b < |s.contents|)
    && (forall i, b :: 0 <= i < |s.loops| && Holds(s.loops[i], b) ==> b !in s.free)
    && (forall i, j, b :: 0 <= i < j < |s.loops| && Holds(s.loops[i], b) ==> !Holds(s.loops[j], b))
  }

  /** A filled buffer holds the frame its loop is reading. */
  ghost predicate Intact(s: State)
    requires WellFormed(s)
  {
    forall i :: 0 <= i < |s.loops| && s.loops[i].stage.Filled? ==>
      s.contents[s.loops[i].stage.buf] == s.loops[i].input[0]
  }

  /** What a loop passes on in all: what it has passed on, then what it will for the frames still to come. */
  function Given(l: Loop): seq<FrameReader.Event> {
    l.out + FrameReader.AllHandled(l.side, if l.stage.Used? && l.input != [] then l.input[1..] else l.input)
  }

  lemma AcquireOwned(s: State, l: nat, b: Buffer, made: bool)
    requires Owned(s) && Enabled(s, if made then Make(l) else Borrow(l, b)) && (made ==> b == |s.contents|)
    ensures Owned(Next(s, if made then Make(l) else Borrow(l, b)))
  {
    hide Passed;
    var t := Next(s, if made then Make(l) else Borrow(l, b));
    forall i, c | 0 <= i < |t.loops| && Holds(t.loops[i], c)
      ensures c !in t.free && forall j :: 0 <= j < |t.loops| && j != i ==> !Holds(t.loops[j], c)
    {
      if i != l {
        assert Holds(s.loops[i], c);
      }
    }
  }

  lemma ReleaseOwned(s: State, step: Step)
    requires Owned(s) && Enabled(s, step) && (step.FillFails? || step.Return?)
    ensures Owned(Next(s, step))
  {
    hide Passed;
    var t := Next(s, step);
    assert Holds(s.loops[step.loop], s.loops[step.loop].stage.buf);
    forall i, c | 0 <= i < |t.loops| && Holds(t.loops[i], c)
      ensures c !in t.free && forall j :: 0 <= j < |t.loops| && j != i ==> !Holds(t.loops[j], c)
    {
      assert Holds(s.loops[i], c);
    }
  }

  lemma StepOwned(s: State, step: Step)
    requires Owned(s) && Enabled(s, step)
    ensures Owned(Next(s, step))
  {
    hide Passed;
    match step
    case Borrow(l, b) => AcquireOwned(s, l, b, false);
    case Make(l) => AcquireOwned(s, l, |s.contents|, true);
    case FillFails(_) => ReleaseOwned(s, step);
    case Return(_) => ReleaseOwned(s, step);
    case FillPart(_, _) =>
    case Fill(_) => KeepOwned(s, step);
    case Use(_) => KeepOwned(s, step);
    case Collect(_) =>
  }

  lemma KeepOwned(s: State, step: Step)
    requires Owned(s) && Enabled(s, step) && (step.Fill? || step.Use?)
    ensures Owned(Next(s, step))
  {
    hide Passed;
    var t := Next(s, step);
    forall i, c | 0 <= i < |t.loops| && Holds(t.loops[i], c)
      ensures c !in t.free && forall j :: 0 <= j < |t.loops| && j != i ==> !Holds(t.loops[j], c)
    {
      assert Holds(s.loops[i], c);
    }
  }

  /** No step of one loop disturbs the frame another is reading. */
  lemma StepIntact(s: State, step: Step)
    requires Owned(s) && Intact(s) && Enabled(s, step)
    ensures WellFormed(Next(s, step)) && Intact(Next(s, step))
  {
    hide Passed;
    StepOwned(s, step);
    var t := Next(s, step);
    forall i | 0 <= i < |t.loops| && t.loops[i].stage.Filled?
      ensures t.contents[t.loops[i].stage.buf] == t.loops[i].input[0]
    {
      if step.FillPart? || step.Fill? {
        if i != step.loop {
          assert Holds(s.loops[i], s.loops[i].stage.buf);
        }
      }
    }
  }

  lemma StepGiven(s: State, step: Step, l: nat)
    requires Owned(s) && Intact(s) && Enabled(s, step) && l < |s.loops|
    ensures var t := Next(s, step); |t.loops| == |s.loops| && Given(t.loops[l]) == Given(s.loops[l])
  {
  }

  function Run(s: State, steps: seq<Step>): Option<State>
    decreases |steps|
  {
    if steps == [] then Some(s)
    else if WellFormed(s) && Enabled(s, steps[0]) then Run(Next(s, steps[0]), steps[1..])
    else None
  }

  /** The loops at the start, each with its side and its stream. */
  function Begin(inputs: seq<(FrameReader.Side, seq<Body>)>): State {
    State([], multiset{}, seq(|inputs|, i requires 0 <= i < |inputs| => Loop(inputs[i].0, Idle, inputs[i].1, [])))
  }

  lemma {:induction false} RunOwned(s: State, steps: seq<Step>)
    requires Owned(s) && Intact(s) && Run(s, steps).Some?
    ensures var t := Run(s, steps).value;
      && Owned(t) && Intact(t) && |t.loops| == |s.loops|
      && forall l :: 0 <= l < |s.loops| ==> Given(t.loops[l]) == Given(s.loops[l])
    decreases |steps|
  {
    if steps != [] {
      StepOwned(s, steps[0]);
      StepIntact(s, steps[0]);
      forall l | 0 <= l < |s.loops|
        ensures |Next(s, steps[0]).loops| == |s.loops| && Given(Next(s, steps[0]).loops[l]) == Given(s.loops[l])
      {
        StepGiven(s, steps[0], l);
      }
      if s.loops == [] {
        assert |Next(s, steps[0]).loops| == 0;
      }
      RunOwned(Next(s, steps[0]), steps[1..]);
    }
  }

  /**
   Over every run of any number of loops each buffer has one owner, and what a loop has passed on is
   a prefix of what its own stream's frames call for, whatever the other loops did with the buffers
   before and after.
   */
  lemma SharingIsInvisible(inputs: seq<(FrameReader.Side, seq<Body>)>, steps: seq<Step>, s: State)
    requires Run(Begin(inputs), steps) == Some(s)
    ensures Owned(s) && |s.loops| == |inputs|
    ensures forall l :: 0 <= l < |inputs| ==>
              && s.loops[l].out <= FrameReader.AllHandled(inputs[l].0, inputs[l].1)
              && (s.loops[l].input == [] ==> s.loops[l].out == FrameReader.AllHandled(inputs[l].0, inputs[l].1))
  {
    RunOwned(Begin(inputs), steps);
    forall l | 0 <= l < |inputs|
      ensures s.loops[l].out <= FrameReader.AllHandled(inputs[l].0, inputs[l].1)
      ensures s.loops[l].input == [] ==> s.loops[l].out == FrameReader.AllHandled(inputs[l].0, inputs[l].1)
    {
      assert Given(Begin(inputs).loops[l]) == FrameReader.AllHandled(inputs[l].0, inputs[l].1);
      assert Given(s.loops[l]) == Given(Begin(inputs).loops[l]);
    }
  }
}
