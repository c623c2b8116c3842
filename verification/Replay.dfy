/**
 The replay filter: two generations of Bloom filters, rotated by a timer. `CheckAndAdd` holds the
 lock twice, first for reading and, after a miss, again for writing; other calls and rotations may
 run between the two sections. The system below takes every locked section as one step and
 shows that each call still acts at one instant between its start and its return.
 */
module Replay {
  import opened Bloom
  import opened Options

  /** The data recorded in the current and, after the first rotation, the previous generation. */
  datatype Generations = Generations(current: set<Data>, previous: Option<set<Data>>)

  const EMPTY := Generations({}, None)

  ghost predicate Seen(shape: Shape, g: Generations, data: Data)
    requires shape.Valid()
  {
    Covers(shape, g.current, data) || (g.previous.Some? && Covers(shape, g.previous.value, data))
  }

  /** The filter after an uninterrupted check: data not seen before is recorded. */
  ghost function Checked(shape: Shape, g: Generations, data: Data): Generations
    requires shape.Valid()
  {
    if Seen(shape, g, data) then g else g.(current := g.current + {data})
  }

  function Rotated(g: Generations): Generations { Generations({}, Some(g.current)) }

  class ReplayFilter {
    const shape: Shape
    var current: BloomFilter
    var previous: BloomFilter?

    ghost function Footprint(): set<object>
      reads this
    {
      {this, current, current.bitset} + if previous == null then {} else {previous, previous.bitset}
    }

    ghost predicate Valid()
      reads this, Footprint()
    {
      && shape.Valid() && current.Valid() && current.shape == shape
      && (previous != null ==>
            && previous.Valid() && previous.shape == shape
            && previous != current && previous.bitset != current.bitset)
    }

    ghost function Abs(): Generations
      reads this, Footprint()
    {
      Generations(current.items, if previous == null then None else Some(previous.items))
    }

    constructor (shape: Shape)
      requires shape.Valid()
      ensures Valid() && fresh(Footprint()) && this.shape == shape && Abs() == EMPTY
    {
      this.shape := shape;
      current := new BloomFilter(shape);
      previous := null;
    }

    /** The membership test both locked sections make. */
    method Lookup(data: Data) returns (seen: bool)
      requires Valid()
      ensures seen == Seen(shape, Abs(), data)
    {
      seen := current.Contains(data);
      if seen {
        return;
      }
      if previous != null {
        seen := previous.Contains(data);
      }
    }

    /** The section under the write lock: the test is repeated before the data is recorded. */
    method RecheckAndAdd(data: Data) returns (seen: bool)
      requires Valid()
      modifies Footprint()
      ensures Valid() && Footprint() == old(Footprint())
      ensures seen == Seen(shape, old(Abs()), data)
      ensures Abs() == Checked(shape, old(Abs()), data)
    {
      seen := Lookup(data);
      if !seen {
        current.Add(data);
      }
    }

    /** A call that nothing interrupts. */
    method CheckAndAdd(data: Data) returns (seen: bool)
      requires Valid()
      modifies Footprint()
      ensures Valid() && Footprint() == old(Footprint())
      ensures seen == Seen(shape, old(Abs()), data)
      ensures Abs() == Checked(shape, old(Abs()), data)
    {
      seen := Lookup(data);
      if !seen {
        seen := RecheckAndAdd(data);
      }
    }

    method Rotate()
      requires Valid()
      modifies this
      ensures Valid() && Abs() == Rotated(old(Abs()))
      ensures fresh(Footprint() - old(Footprint()))
    {
      previous := current;
      current := new BloomFilter(shape);
    }
  }

  // ----- Interleaved calls

  /** Where a call is: before the read lock, between the locks after a miss, or answered. */
  datatype Stage = Started | Missed | Answered(seen: bool, at: nat)

  /** A call with the length of the log when it started and when it returned. */
  datatype Call = Call(data: Data, stage: Stage, started: nat, returned: Option<nat>)

  datatype Event = Check(call: nat, data: Data, seen: bool) | Rotation

  /** The filter, every call made so far, and the log of the instants at which calls take effect. */
  datatype System = System(g: Generations, calls: seq<Call>, log: seq<Event>)

  const START := System(EMPTY, [], [])

  datatype Step = Begin(data: Data) | ReadSection(call: nat) | WriteSection(call: nat) | Return(call: nat) | Rotate

  ghost predicate Enabled(s: System, step: Step) {
    match step
    case Begin(_) => true
    case ReadSection(c) => c < |s.calls| && s.calls[c].stage.Started?
    case WriteSection(c) => c < |s.calls| && s.calls[c].stage.Missed?
    case Return(c) => c < |s.calls| && s.calls[c].stage.Answered? && s.calls[c].returned.None?
    case Rotate => true
  }

  ghost function Answer(s: System, c: nat, seen: bool): System
    requires c < |s.calls|
  {
    s.(calls := s.calls[c := s.calls[c].(stage := Answered(seen, |s.log|))],
       log := s.log + [Check(c, s.calls[c].data, seen)])
  }

  ghost function Next(shape: Shape, s: System, step: Step): System
    requires shape.Valid() && Enabled(s, step)
  {
    match step
    case Begin(data) => s.(calls := s.calls + [Call(data, Started, |s.log|, None)])
    case ReadSection(c) =>
      if Seen(shape, s.g, s.calls[c].data) then Answer(s, c, true)
      else s.(calls := s.calls[c := s.calls[c].(stage := Missed)])
    case WriteSection(c) =>
      Answer(s, c, Seen(shape, s.g, s.calls[c].data)).(g := Checked(shape, s.g, s.calls[c].data))
    case Return(c) => s.(calls := s.calls[c := s.calls[c].(returned := Some(|s.log|))])
    case Rotate => s.(g := Rotated(s.g), log := s.log + [Rotation])
  }

  /** The state after the given steps, in any order in which each is enabled when it is taken. */
  ghost function Run(shape: Shape, s: System, steps: seq<Step>): Option<System>
    requires shape.Valid()
    decreases |steps|
  {
    if steps == [] then Some(s)
    else if Enabled(s, steps[0]) then Run(shape, Next(shape, s, steps[0]), steps[1..])
    else None
  }

  ghost predicate Reaches(shape: Shape, steps: seq<Step>, s: System)
    requires shape.Valid()
  {
    Run(shape, START, steps) == Some(s)
  }

  /** The effect of one logged event on the filter. */
  ghost function Applied(shape: Shape, g: Generations, e: Event): Generations
    requires shape.Valid()
  {
    match e
    case Check(_, data, _) => Checked(shape, g, data)
    case Rotation => Rotated(g)
  }

  /** The filter after the logged events, each taken as one uninterrupted operation. */
  ghost function Replayed(shape: Shape, g: Generations, log: seq<Event>): Generations
    requires shape.Valid()
    decreases |log|
  {
    if log == [] then g else Replayed(shape, Applied(shape, g, log[0]), log[1..])
  }

  /** Every logged answer is the one the uninterrupted operation gives at its place in the log. */
  ghost predicate Sequential(shape: Shape, g: Generations, log: seq<Event>)
    requires shape.Valid()
    decreases |log|
  {
    log != [] ==>
      && Faithful(shape, g, log[0])
      && Sequential(shape, Applied(shape, g, log[0]), log[1..])
  }

  ghost predicate Faithful(shape: Shape, g: Generations, e: Event)
    requires shape.Valid()
  {
    e.Check? ==> e.seen == Seen(shape, g, e.data)
  }

  /** Every answered call has one entry in the log, made while the call was running. */
  ghost predicate Attributed(s: System) {
    && (forall c :: 0 <= c < |s.calls| && s.calls[c].stage.Answered? ==>
          var at := s.calls[c].stage.at;
          && at < |s.log| && s.log[at] == Check(c, s.calls[c].data, s.calls[c].stage.seen)
          && s.calls[c].started <= at
          && (s.calls[c].returned.Some? ==> at < s.calls[c].returned.value <= |s.log|))
    && (forall c :: 0 <= c < |s.calls| && !s.calls[c].stage.Answered? ==>
          s.calls[c].started <= |s.log| && s.calls[c].returned.None?)
    && (forall i :: 0 <= i < |s.log| && s.log[i].Check? ==>
          && s.log[i].call < |s.calls|
          && s.calls[s.log[i].call].stage.Answered? && s.calls[s.log[i].call].stage.at == i)
  }

  ghost predicate Linearized(shape: Shape, s: System)
    requires shape.Valid()
  {
    s.g == Replayed(shape, EMPTY, s.log) && Sequential(shape, EMPTY, s.log) && Attributed(s)
  }

  lemma {:induction false} SequentialExtends(shape: Shape, g: Generations, log: seq<Event>, e: Event)
    requires shape.Valid() && Sequential(shape, g, log)
    requires Faithful(shape, Replayed(shape, g, log), e)
    ensures Sequential(shape, g, log + [e])
    ensures Replayed(shape, g, log + [e]) == Applied(shape, Replayed(shape, g, log), e)
    decreases |log|
  {
    if log == [] {
      assert log + [e] == [e];
    } else {
      assert (log + [e])[1..] == log[1..] + [e];
      SequentialExtends(shape, Applied(shape, g, log[0]), log[1..], e);
    }
  }

  lemma AnswerAttributed(s: System, c: nat, seen: bool)
    requires Attributed(s) && c < |s.calls| && !s.calls[c].stage.Answered?
    ensures Attributed(Answer(s, c, seen))
  {
    var t := Answer(s, c, seen);
    forall i | 0 <= i < |t.log| && t.log[i].Check?
      ensures t.log[i].call < |t.calls|
              && t.calls[t.log[i].call].stage.Answered? && t.calls[t.log[i].call].stage.at == i
    {
      if i < |s.log| {
        assert s.log[i] == t.log[i];
      }
    }
  }

  lemma UnansweredAttributed(s: System, step: Step)
    requires Attributed(s) && Enabled(s, step)
    ensures match step
      case Begin(data) => Attributed(s.(calls := s.calls + [Call(data, Started, |s.log|, None)]))
      case ReadSection(c) => Attributed(s.(calls := s.calls[c := s.calls[c].(stage := Missed)]))
      case WriteSection(_) => true
      case Return(c) => Attributed(s.(calls := s.calls[c := s.calls[c].(returned := Some(|s.log|))]))
      case Rotate => Attributed(s.(g := Rotated(s.g), log := s.log + [Rotation]))
  {
  }

  lemma StepLinearized(shape: Shape, s: System, step: Step)
    requires shape.Valid() && Linearized(shape, s) && Enabled(s, step)
    ensures Linearized(shape, Next(shape, s, step))
  {
    UnansweredAttributed(s, step);
    match step
    case Begin(_) =>
    case ReadSection(c) =>
      if Seen(shape, s.g, s.calls[c].data) {
        SequentialExtends(shape, EMPTY, s.log, Check(c, s.calls[c].data, true));
        AnswerAttributed(s, c, true);
      }
    case WriteSection(c) =>
      var seen := Seen(shape, s.g, s.calls[c].data);
      SequentialExtends(shape, EMPTY, s.log, Check(c, s.calls[c].data, seen));
      AnswerAttributed(s, c, seen);
    case Return(_) =>
    case Rotate =>
      SequentialExtends(shape, EMPTY, s.log, Rotation);
  }

  /**
   Linearizability. In every reachable state the log is a run of uninterrupted operations that
   leaves the filter as it is, and each answered call is in it once, between its start and its return.
   */
  lemma Linearizable(shape: Shape, steps: seq<Step>, s: System)
    requires shape.Valid() && Reaches(shape, steps, s)
    ensures Linearized(shape, s)
  {
    RunLinearized(shape, START, steps);
  }

  lemma {:induction false} RunLinearized(shape: Shape, s: System, steps: seq<Step>)
    requires shape.Valid() && Linearized(shape, s) && Run(shape, s, steps).Some?
    ensures Linearized(shape, Run(shape, s, steps).value)
    decreases |steps|
  {
    if steps != [] {
      StepLinearized(shape, s, steps[0]);
      RunLinearized(shape, Next(shape, s, steps[0]), steps[1..]);
    }
  }

  /** The order of the log respects real time: a call that returned before another began comes first. */
  lemma RealTimeOrder(shape: Shape, steps: seq<Step>, s: System, c: nat, d: nat)
    requires shape.Valid() && Reaches(shape, steps, s)
    requires c < |s.calls| && d < |s.calls|
    requires s.calls[c].returned.Some? && s.calls[c].returned.value <= s.calls[d].started
    requires s.calls[d].stage.Answered?
    ensures s.calls[c].stage.Answered? && s.calls[c].stage.at < s.calls[d].stage.at
  {
    Linearizable(shape, steps, s);
  }

  // ----- What the answers say

  /** The data accepted since the last rotation. */
  function Recent(log: seq<Event>): set<Data> {
    if log == [] then {}
    else
      match log[|log| - 1]
      case Rotation => {}
      case Check(_, data, seen) => Recent(log[..|log| - 1]) + if seen then {} else {data}
  }

  /** The data accepted between the last two rotations, or before the only one. */
  function Earlier(log: seq<Event>): Option<set<Data>> {
    if log == [] then None
    else if log[|log| - 1].Rotation? then Some(Recent(log[..|log| - 1]))
    else Earlier(log[..|log| - 1])
  }

  lemma {:induction false} ReplayedNext(shape: Shape, g: Generations, log: seq<Event>, e: Event)
    requires shape.Valid()
    ensures Replayed(shape, g, log + [e]) == Applied(shape, Replayed(shape, g, log), e)
    decreases |log|
  {
    if log == [] {
      assert (log + [e])[1..] == [];
    } else {
      assert (log + [e])[1..] == log[1..] + [e];
      ReplayedNext(shape, Applied(shape, g, log[0]), log[1..], e);
    }
  }

  lemma {:induction false} SequentialPrefix(shape: Shape, g: Generations, log: seq<Event>, n: nat)
    requires shape.Valid() && Sequential(shape, g, log) && n <= |log|
    ensures Sequential(shape, g, log[..n])
    decreases n
  {
    if n > 0 {
      assert log[..n][1..] == log[1..][..n - 1];
      SequentialPrefix(shape, Applied(shape, g, log[0]), log[1..], n - 1);
    }
  }

  /** The two generations hold the data accepted since the last rotation and between the last two. */
  lemma {:induction false} LogDescribes(shape: Shape, log: seq<Event>)
    requires shape.Valid() && Sequential(shape, EMPTY, log)
    ensures Replayed(shape, EMPTY, log) == Generations(Recent(log), Earlier(log))
    decreases |log|
  {
    if log != [] {
      var n := |log| - 1;
      SequentialPrefix(shape, EMPTY, log, n);
      SequentialSplit(shape, EMPTY, log, n);
      LogDescribes(shape, log[..n]);
      assert log == log[..n] + [log[n]];
      ReplayedNext(shape, EMPTY, log[..n], log[n]);
    }
  }

  /**
   Over every interleaving a call is rejected if and only if the positions of its data are covered by
   the data accepted since the last rotation before its instant, or by those between the last two.
   */
  lemma RejectedExactly(shape: Shape, steps: seq<Step>, s: System, c: nat)
    requires shape.Valid() && Reaches(shape, steps, s)
    requires c < |s.calls| && s.calls[c].stage.Answered?
    ensures var at := s.calls[c].stage.at;
      && at < |s.log|
      && var before := s.log[..at];
      s.calls[c].stage.seen <==>
        || Covers(shape, Recent(before), s.calls[c].data)
        || (Earlier(before).Some? && Covers(shape, Earlier(before).value, s.calls[c].data))
  {
    Linearizable(shape, steps, s);
    var at := s.calls[c].stage.at;
    SequentialSplit(shape, EMPTY, s.log, at);
    SequentialPrefix(shape, EMPTY, s.log, at);
    LogDescribes(shape, s.log[..at]);
  }

  function Rotations(log: seq<Event>): nat {
    if log == [] then 0 else Rotations(log[1..]) + if log[0].Rotation? then 1 else 0
  }

  /** The data is in the generation that `rotations` rotations leave it in. */
  ghost predicate Remembers(g: Generations, data: Data, rotations: nat) {
    && (rotations == 0 ==> data in g.current)
    && (rotations == 1 ==> g.previous.Some? && data in g.previous.value)
  }

  lemma AppliedRemembers(shape: Shape, g: Generations, e: Event, data: Data, rotations: nat)
    requires shape.Valid() && Remembers(g, data, rotations)
    ensures Remembers(Applied(shape, g, e), data, rotations + if e.Rotation? then 1 else 0)
  {
  }

  /** What a generation remembers, it remembers until the second rotation. */
  lemma {:induction false} ReplayedRemembers(shape: Shape, g: Generations, log: seq<Event>, data: Data, rotations: nat)
    requires shape.Valid() && Remembers(g, data, rotations)
    ensures Remembers(Replayed(shape, g, log), data, rotations + Rotations(log))
    decreases |log|
  {
    if log != [] {
      AppliedRemembers(shape, g, log[0], data, rotations);
      ReplayedRemembers(shape, Applied(shape, g, log[0]), log[1..], data,
                        rotations + if log[0].Rotation? then 1 else 0);
    }
  }

  /** A part of a sequential log is sequential from the filter the part before it leaves. */
  lemma {:induction false} SequentialSplit(shape: Shape, g: Generations, log: seq<Event>, i: nat)
    requires shape.Valid() && Sequential(shape, g, log) && i < |log|
    ensures Faithful(shape, Replayed(shape, g, log[..i]), log[i])
    ensures Sequential(shape, Applied(shape, Replayed(shape, g, log[..i]), log[i]), log[i + 1..])
    decreases |log|
  {
    if i > 0 {
      SequentialSplit(shape, Applied(shape, g, log[0]), log[1..], i - 1);
      assert log[..i][1..] == log[1..][..i - 1];
      assert log[1..][i..] == log[i + 1..];
    }
  }

  lemma RememberedIsSeen(shape: Shape, g: Generations, data: Data, rotations: nat)
    requires shape.Valid() && Remembers(g, data, rotations) && rotations < 2
    ensures Seen(shape, g, data)
  {
    CoversMember(shape, if rotations == 0 then g.current else g.previous.value, data);
  }

  /** In any sequential log, two acceptances of the same data have two rotations between them. */
  lemma TwoRotationsBetween(shape: Shape, g: Generations, log: seq<Event>, i: nat, j: nat)
    requires shape.Valid() && Sequential(shape, g, log) && i < j < |log|
    requires log[i].Check? && log[j].Check? && log[i].data == log[j].data
    requires !log[i].seen && !log[j].seen
    ensures Rotations(log[i + 1..j]) >= 2
  {
    SequentialSplit(shape, g, log, i);
    var accepted := Applied(shape, Replayed(shape, g, log[..i]), log[i]);
    var rest := log[i + 1..];
    SequentialSplit(shape, accepted, rest, j - i - 1);
    assert rest[..j - i - 1] == log[i + 1..j];
    ReplayedRemembers(shape, accepted, log[i + 1..j], log[i].data, 0);
    if Rotations(log[i + 1..j]) < 2 {
      RememberedIsSeen(shape, Replayed(shape, accepted, log[i + 1..j]), log[i].data, Rotations(log[i + 1..j]));
    }
  }

  /**
   The guarantee against replays, over every interleaving: if two calls with the same data were
   both accepted, at least two rotations separate the instants at which they took effect.
   */
  lemma NoReplayWithinTwoRotations(shape: Shape, steps: seq<Step>, s: System, c: nat, d: nat)
    requires shape.Valid() && Reaches(shape, steps, s)
    requires c < |s.calls| && d < |s.calls| && c != d && s.calls[c].data == s.calls[d].data
    requires s.calls[c].stage.Answered? && !s.calls[c].stage.seen
    requires s.calls[d].stage.Answered? && !s.calls[d].stage.seen
    ensures var i, j := s.calls[c].stage.at, s.calls[d].stage.at;
      i != j && i < |s.log| && j < |s.log|
      && Rotations(if i < j then s.log[i + 1..j] else s.log[j + 1..i]) >= 2
  {
    Linearizable(shape, steps, s);
    var i, j := s.calls[c].stage.at, s.calls[d].stage.at;
    if i < j {
      TwoRotationsBetween(shape, EMPTY, s.log, i, j);
    } else {
      assert s.log[i] != s.log[j];
      TwoRotationsBetween(shape, EMPTY, s.log, j, i);
    }
  }

  /** Two rotations with no check between them forget everything, whatever the filter held. */
  lemma TwoRotationsForget(shape: Shape, g: Generations, data: Data)
    requires shape.Valid()
    ensures Seen(shape, Rotated(Rotated(g)), data) <==> shape.k == 0
  {
    CoversNothing(shape, data);
  }

  /**
   A rejection records nothing: after an answer, whatever the filter held, one rotation forgets the
   data exactly when it was rejected because of the previous generation alone.
   */
  lemma RejectionDoesNotRefresh(shape: Shape, g: Generations, data: Data)
    requires shape.Valid() && shape.k >= 1
    ensures !Seen(shape, Rotated(Checked(shape, g, data)), data) <==>
            Seen(shape, g, data) && !Covers(shape, g.current, data)
    ensures Seen(shape, g, data) ==> Checked(shape, g, data) == g
  {
    CoversNothing(shape, data);
    CoversMember(shape, g.current + {data}, data);
  }
}
