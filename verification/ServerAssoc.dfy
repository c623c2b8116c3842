/**
 UDP associations of the server: a table from ids to sockets shared by the handlers of one session.
 A handler looks an id up, opens a socket without the lock, and looks again before inserting it; the
 loser of a race closes its own socket and uses the winner's.
 */
module ServerAssoc {
  import opened Bits
  import opened Options

  /** A socket is named by its number in the order of opening. */
  type Socket = nat

  class Table {
    var conns: map<Uint16, Socket>

    constructor ()
      ensures conns == map[]
    {
      conns := map[];
    }

    /** The section under the lock before a socket is opened. */
    method Lookup(id: Uint16) returns (conn: Option<Socket>)
      ensures conn.Some? <==> id in conns
      ensures conn.Some? ==> conns[id] == conn.value
    {
      conn := if id in conns then Some(conns[id]) else None;
    }

    /** The section under the lock after a socket has been opened: the socket to use. */
    method Insert(id: Uint16, udpConn: Socket) returns (used: Socket)
      modifies this
      ensures id in old(conns) ==> conns == old(conns) && used == old(conns)[id]
      ensures id !in old(conns) ==> conns == old(conns)[id := udpConn] && used == udpConn
    {
      if id in conns {
        return conns[id];
      }
      conns := conns[id := udpConn];
      return udpConn;
    }

    /** Returns the socket that the caller must close. */
    method Remove(id: Uint16) returns (conn: Option<Socket>)
      modifies this
      ensures conns == old(conns) - {id}
      ensures conn.Some? <==> id in old(conns)
      ensures conn.Some? ==> old(conns)[id] == conn.value
    {
      conn := if id in conns then Some(conns[id]) else None;
      conns := conns - {id};
    }

    /** At the end of the session: empties the table, closing every socket in it once. */
    method RemoveAll() returns (closed: seq<Socket>)
      requires Injective(conns)
      modifies this
      ensures conns == map[]
      ensures multiset(closed) == multiset(old(conns).Values)
    {
      closed := [];
      while conns != map[]
        invariant Injective(conns)
        invariant multiset(closed) + multiset(conns.Values) == multiset(old(conns).Values)
        decreases |conns|
      {
        var id :| id in conns;
        RemoveOne(conns, id);
        closed := closed + [conns[id]];
        conns := conns - {id};
      }
    }
  }

  ghost predicate Injective(conns: map<Uint16, Socket>) {
    forall i, j :: i in conns && j in conns && i != j ==> conns[i] != conns[j]
  }

  lemma RemoveOne(conns: map<Uint16, Socket>, id: Uint16)
    requires Injective(conns) && id in conns
    ensures multiset(conns.Values) == multiset{conns[id]} + multiset((conns - {id}).Values)
  {
    var rest := (conns - {id}).Values;
    assert conns.Values == rest + {conns[id]} by {
      forall v | v in conns.Values ensures v in rest + {conns[id]} {
        var i :| i in conns && conns[i] == v;
        assert i != id ==> i in conns - {id};
      }
    }
    assert conns[id] !in rest;
  }

  // ----- Interleaved handlers

  /** A handler on its way to a socket. `Starting` has inserted its socket and not started the relay. */
  datatype Stage =
    | Looking
    | Missed
    | Holding(socket: Socket)
    | Losing(socket: Socket, winner: Socket)
    | Starting(socket: Socket)
    | Done(socket: Socket)
    | Failed

  datatype Handler = Handler(id: Uint16, stage: Stage)

  /** A socket with the handler that opened it, the relays started on it, and the times it was closed. */
  datatype Info = Info(id: Uint16, maker: nat, inserted: bool, relays: nat, closes: nat)

  datatype State = State(
    conns: map<Uint16, Socket>, handlers: seq<Handler>, sockets: seq<Info>, closing: multiset<Socket>)

  const START := State(map[], [], [], multiset{})

  datatype Step =
    | Begin(id: Uint16)
    | Look(h: nat)
    | Listen(h: nat, ok: bool)
    | Insert(h: nat)
    | StartRelay(h: nat)
    | CloseLoser(h: nat)
    | Close(id: Uint16)
    | CloseRemoved(socket: Socket)
    | CloseAll

  predicate Enabled(s: State, step: Step) {
    match step
    case Begin(_) => true
    case Look(h) => h < |s.handlers| && s.handlers[h].stage.Looking?
    case Listen(h, _) => h < |s.handlers| && s.handlers[h].stage.Missed?
    case Insert(h) => h < |s.handlers| && s.handlers[h].stage.Holding? && s.handlers[h].stage.socket < |s.sockets|
    case StartRelay(h) => h < |s.handlers| && s.handlers[h].stage.Starting? && s.handlers[h].stage.socket < |s.sockets|
    case CloseLoser(h) => h < |s.handlers| && s.handlers[h].stage.Losing? && s.handlers[h].stage.socket < |s.sockets|
    case Close(_) => true
    case CloseRemoved(n) => n in s.closing && n < |s.sockets|
    case CloseAll => true
  }

  function To(s: State, h: nat, stage: Stage): State
    requires h < |s.handlers|
  {
    s.(handlers := s.handlers[h := s.handlers[h].(stage := stage)])
  }

  function InsertStep(s: State, h: nat): State
    requires Enabled(s, Insert(h))
  {
    var (id, n) := (s.handlers[h].id, s.handlers[h].stage.socket);
    if id in s.conns then To(s, h, Losing(n, s.conns[id]))
    else
      To(s, h, Starting(n)).(conns := s.conns[id := n],
                             sockets := s.sockets[n := s.sockets[n].(inserted := true)])
  }

  function CloseSocket(s: State, n: Socket): State
    requires n < |s.sockets|
  {
    s.(sockets := s.sockets[n := s.sockets[n].(closes := s.sockets[n].closes + 1)])
  }

  function CloseAllStep(s: State): State {
    s.(conns := map[],
       sockets := seq(|s.sockets|, n requires 0 <= n < |s.sockets| =>
         if n in s.conns.Values then s.sockets[n].(closes := s.sockets[n].closes + 1) else s.sockets[n]))
  }

  function Next(s: State, step: Step): State
    requires Enabled(s, step)
  {
    match step
    case Begin(id) => s.(handlers := s.handlers + [Handler(id, Looking)])
    case Look(h) =>
      var id := s.handlers[h].id;
      if id in s.conns then To(s, h, Done(s.conns[id])) else To(s, h, Missed)
    case Listen(h, ok) =>
      if ok then To(s, h, Holding(|s.sockets|)).(sockets := s.sockets + [Info(s.handlers[h].id, h, false, 0, 0)])
      else To(s, h, Failed)
    case Insert(h) => InsertStep(s, h)
    case StartRelay(h) =>
      var n := s.handlers[h].stage.socket;
      To(s, h, Done(n)).(sockets := s.sockets[n := s.sockets[n].(relays := s.sockets[n].relays + 1)])
    case CloseLoser(h) => CloseSocket(To(s, h, Done(s.handlers[h].stage.winner)), s.handlers[h].stage.socket)
    case Close(id) =>
      s.(conns := s.conns - {id}, closing := if id in s.conns then s.closing + multiset{s.conns[id]} else s.closing)
    case CloseRemoved(n) => CloseSocket(s, n).(closing := s.closing - multiset{n})
    case CloseAll => CloseAllStep(s)
  }

  function Run(s: State, steps: seq<Step>): Option<State>
    decreases |steps|
  {
    if steps == [] then Some(s)
    else if Enabled(s, steps[0]) then Run(Next(s, steps[0]), steps[1..])
    else None
  }

  // ----- Every socket has one place

  predicate InTable(s: State, n: Socket)
    requires n < |s.sockets|
  {
    s.sockets[n].id in s.conns && s.conns[s.sockets[n].id] == n
  }

  /** The handler that opened the socket still holds it, on its way in or as the loser of a race. */
  predicate Held(s: State, n: Socket)
    requires n < |s.sockets|
  {
    s.sockets[n].maker < |s.handlers| &&
    var stage := s.handlers[s.sockets[n].maker].stage;
    (stage.Holding? || stage.Losing?) && stage.socket == n
  }

  predicate StartingRelay(s: State, n: Socket)
    requires n < |s.sockets|
  {
    s.sockets[n].maker < |s.handlers| && s.handlers[s.sockets[n].maker].stage == Starting(n)
  }

  function Places(s: State, n: Socket): nat
    requires n < |s.sockets|
  {
    (if Held(s, n) then 1 else 0) + (if InTable(s, n) then 1 else 0) + s.closing[n] + s.sockets[n].closes
  }

  function Relays(s: State, n: Socket): nat
    requires n < |s.sockets|
  {
    s.sockets[n].relays + if StartingRelay(s, n) then 1 else 0
  }

  /** Held, in the table, removed, or closed: one of these. Relays: one, once inserted. */
  ghost predicate Accounted(s: State, n: Socket)
    requires n < |s.sockets|
  {
    && s.sockets[n].maker < |s.handlers|
    && Places(s, n) == 1
    && Relays(s, n) == (if s.sockets[n].inserted then 1 else 0)
    && (Held(s, n) ==> !s.sockets[n].inserted)
    && (InTable(s, n) ==> s.sockets[n].inserted)
  }

  /** Handlers and table refer to sockets that exist, handlers to the ones they opened. */
  ghost predicate Linked(s: State) {
    && (forall h :: 0 <= h < |s.handlers| ==>
          var stage := s.handlers[h].stage;
          stage.Holding? || stage.Losing? || stage.Starting? ==>
            && stage.socket < |s.sockets| && s.sockets[stage.socket].maker == h
            && s.sockets[stage.socket].id == s.handlers[h].id)
    && (forall id :: id in s.conns ==> s.conns[id] < |s.sockets| && s.sockets[s.conns[id]].id == id)
    && (forall n :: n in s.closing ==> n < |s.sockets|)
  }

  ghost predicate Sound(s: State) {
    Linked(s) && forall n :: 0 <= n < |s.sockets| ==> Accounted(s, n)
  }

  lemma StepLinked(s: State, step: Step)
    requires Linked(s) && Enabled(s, step)
    ensures Linked(Next(s, step))
  {
    match step
    case Listen(h, ok) => ListenLinked(s, h, ok);
    case Insert(h) => InsertLinked(s, h);
    case CloseAll => CloseAllLinked(s);
    case StartRelay(h) => SettleLinked(s, step, h);
    case CloseLoser(h) => SettleLinked(s, step, h);
    case Look(h) => LookLinked(s, h);
    case CloseRemoved(n) => CloseLinked(s, n);
    case _ =>
  }

  lemma LookLinked(s: State, h: nat)
    requires Linked(s) && Enabled(s, Look(h))
    ensures Linked(Next(s, Look(h)))
  {
  }

  lemma CloseLinked(s: State, n: Socket)
    requires Linked(s) && Enabled(s, CloseRemoved(n))
    ensures Linked(Next(s, CloseRemoved(n)))
  {
  }

  lemma SettleLinked(s: State, step: Step, h: nat)
    requires Linked(s) && Enabled(s, step) && (step == StartRelay(h) || step == CloseLoser(h))
    ensures Linked(Next(s, step))
  {
  }

  lemma ListenLinked(s: State, h: nat, ok: bool)
    requires Linked(s) && Enabled(s, Listen(h, ok))
    ensures Linked(Next(s, Listen(h, ok)))
  {
  }

  /** The step that inserts keeps the first socket of an id, and the loser learns of it, as the method does. */
  lemma InsertKeepsFirst(s: State, h: nat)
    requires Enabled(s, Insert(h))
    ensures var (id, n, t) := (s.handlers[h].id, s.handlers[h].stage.socket, Next(s, Insert(h)));
      && (id in s.conns ==> t.conns == s.conns && t.handlers[h].stage == Losing(n, s.conns[id]))
      && (id !in s.conns ==> t.conns == s.conns[id := n] && t.handlers[h].stage == Starting(n))
  {
  }

  /** A handler that finds a socket for its id uses it and opens none. */
  lemma LookReuses(s: State, h: nat)
    requires Enabled(s, Look(h))
    ensures var (id, t) := (s.handlers[h].id, Next(s, Look(h)));
      && t.conns == s.conns && t.sockets == s.sockets
      && t.handlers[h].stage == if id in s.conns then Done(s.conns[id]) else Missed
  {
  }

  lemma InsertLinked(s: State, h: nat)
    requires Linked(s) && Enabled(s, Insert(h))
    ensures Linked(InsertStep(s, h))
  {
  }

  lemma CloseAllLinked(s: State)
    requires Linked(s)
    ensures Linked(CloseAllStep(s))
  {
  }

  lemma ListenAccounted(s: State, h: nat, ok: bool, n: Socket)
    requires Sound(s) && Enabled(s, Listen(h, ok)) && n < |Next(s, Listen(h, ok)).sockets|
    ensures Accounted(Next(s, Listen(h, ok)), n)
  {
    if n < |s.sockets| {
      assert Accounted(s, n);
    } else {
      assert n !in s.closing;
    }
  }

  lemma InsertAccounted(s: State, h: nat, n: Socket)
    requires Sound(s) && Enabled(s, Insert(h)) && n < |s.sockets|
    ensures Accounted(InsertStep(s, h), n)
  {
    assert Accounted(s, n);
    assert Held(s, s.handlers[h].stage.socket) && Accounted(s, s.handlers[h].stage.socket);
  }

  lemma RelayAccounted(s: State, h: nat, n: Socket)
    requires Sound(s) && Enabled(s, StartRelay(h)) && n < |s.sockets|
    ensures Accounted(Next(s, StartRelay(h)), n)
  {
    assert Accounted(s, n);
  }

  lemma LoserAccounted(s: State, h: nat, n: Socket)
    requires Sound(s) && Enabled(s, CloseLoser(h)) && n < |s.sockets|
    ensures Accounted(Next(s, CloseLoser(h)), n)
  {
    assert Accounted(s, n);
  }

  lemma CloseAccounted(s: State, step: Step, n: Socket)
    requires Sound(s) && Enabled(s, step) && n < |s.sockets|
    requires step.Close? || step.CloseRemoved? || step.CloseAll?
    ensures Accounted(Next(s, step), n)
  {
    assert Accounted(s, n);
    if step.CloseAll? {
      assert n in s.conns.Values <==> InTable(s, n);
    }
  }

  lemma StepAccounted(s: State, step: Step, n: Socket)
    requires Sound(s) && Enabled(s, step) && n < |Next(s, step).sockets|
    ensures Accounted(Next(s, step), n)
  {
    match step
    case Begin(_) => assert Accounted(s, n);
    case Look(_) => assert Accounted(s, n);
    case Listen(h, ok) => ListenAccounted(s, h, ok, n);
    case Insert(h) => InsertAccounted(s, h, n);
    case StartRelay(h) => RelayAccounted(s, h, n);
    case CloseLoser(h) => LoserAccounted(s, h, n);
    case _ => CloseAccounted(s, step, n);
  }

  lemma StepSound(s: State, step: Step)
    requires Sound(s) && Enabled(s, step)
    ensures Sound(Next(s, step))
  {
    StepLinked(s, step);
    forall n | 0 <= n < |Next(s, step).sockets| ensures Accounted(Next(s, step), n) {
      StepAccounted(s, step, n);
    }
  }

  lemma {:induction false} RunSound(s: State, steps: seq<Step>)
    requires Sound(s) && Run(s, steps).Some?
    ensures Sound(Run(s, steps).value)
    decreases |steps|
  {
    if steps != [] {
      StepSound(s, steps[0]);
      RunSound(Next(s, steps[0]), steps[1..]);
    }
  }

  /**
   Over every interleaving of handlers, closes and the end of the session: every socket opened is
   held by its creator, in the table, removed and about to be closed, or closed, and only one of
   these; the table holds no closed socket; and relays run once on inserted sockets only, so the
   losers of races are closed without one.
   */
  lemma EverySocketHasOnePlace(steps: seq<Step>, s: State)
    requires Run(START, steps) == Some(s)
    ensures forall n :: 0 <= n < |s.sockets| ==> Places(s, n) == 1 && s.sockets[n].closes <= 1
    ensures forall n :: 0 <= n < |s.sockets| ==> s.sockets[n].relays <= (if s.sockets[n].inserted then 1 else 0)
    ensures forall id :: id in s.conns ==> s.conns[id] < |s.sockets| && s.sockets[s.conns[id]].closes == 0
  {
    RunSound(START, steps);
    forall n | 0 <= n < |s.sockets|
      ensures Places(s, n) == 1 && s.sockets[n].relays <= (if s.sockets[n].inserted then 1 else 0)
    {
      assert Accounted(s, n);
    }
    forall id | id in s.conns ensures s.sockets[s.conns[id]].closes == 0 {
      assert Accounted(s, s.conns[id]) && InTable(s, s.conns[id]);
    }
  }

  /** No socket stands in a reachable table under two ids, so emptying it closes each socket once. */
  lemma TableIsInjective(steps: seq<Step>, s: State)
    requires Run(START, steps) == Some(s)
    ensures Injective(s.conns)
  {
    RunSound(START, steps);
    forall i, j | i in s.conns && j in s.conns && i != j ensures s.conns[i] != s.conns[j] {
      assert s.sockets[s.conns[i]].id == i && s.sockets[s.conns[j]].id == j;
    }
  }

  /**
   What a lookup finds in a reachable table was opened for that id, is open, has been inserted by its
   creator, and is neither about to be closed nor in the table for any other id.
   */
  lemma FoundIsOpen(steps: seq<Step>, s: State, id: Uint16, n: Socket)
    requires Run(START, steps) == Some(s) && id in s.conns && s.conns[id] == n
    ensures n < |s.sockets| && s.sockets[n].id == id
    ensures s.sockets[n].closes == 0 && n !in s.closing && s.sockets[n].inserted && !Held(s, n)
    ensures forall other :: other in s.conns && other != id ==> s.conns[other] != n
  {
    RunSound(START, steps);
    TableIsInjective(steps, s);
    assert Accounted(s, n) && InTable(s, n);
  }

  /** In every reachable state a socket has been closed exactly if it is not held, in the table or removed. */
  lemma ClosedExactly(steps: seq<Step>, s: State, n: Socket)
    requires Run(START, steps) == Some(s) && n < |s.sockets|
    ensures s.sockets[n].closes == 1 <==> !Held(s, n) && !InTable(s, n) && n !in s.closing
    ensures s.sockets[n].closes <= 1
  {
    RunSound(START, steps);
    assert Accounted(s, n);
  }

  /**
   In every reachable state all sockets have been closed if and only if the table is empty, no close is
   under way and no handler holds a socket. So what a session can leave open at its end is what a
   handler still holds, or inserts after the table has been emptied.
   */
  lemma NothingLeaks(steps: seq<Step>, s: State)
    requires Run(START, steps) == Some(s)
    ensures (forall n :: 0 <= n < |s.sockets| ==> s.sockets[n].closes == 1) <==>
              && s.conns == map[] && s.closing == multiset{}
              && forall h :: 0 <= h < |s.handlers| ==> !s.handlers[h].stage.Holding? && !s.handlers[h].stage.Losing?
  {
    RunSound(START, steps);
    forall h | 0 <= h < |s.handlers| && (s.handlers[h].stage.Holding? || s.handlers[h].stage.Losing?)
      ensures s.handlers[h].stage.socket < |s.sockets| && s.sockets[s.handlers[h].stage.socket].closes == 0
    {
      HolderHasSocket(s, h);
    }
    forall id | id in s.conns ensures s.conns[id] < |s.sockets| && s.sockets[s.conns[id]].closes == 0 {
      assert Accounted(s, s.conns[id]) && InTable(s, s.conns[id]);
    }
    forall n | n in s.closing ensures n < |s.sockets| && s.sockets[n].closes == 0 {
      assert Accounted(s, n);
    }
    forall n | 0 <= n < |s.sockets|
      ensures s.sockets[n].closes == 1 || Held(s, n) || InTable(s, n) || n in s.closing
    {
      assert Accounted(s, n);
    }
    hide Sound, Run, Accounted;
  }

  // A handler that holds a socket is the one that opened it, and the socket is open.
  lemma HolderHasSocket(s: State, h: nat)
    requires Sound(s) && h < |s.handlers| && (s.handlers[h].stage.Holding? || s.handlers[h].stage.Losing?)
    ensures var n := s.handlers[h].stage.socket; n < |s.sockets| && Held(s, n) && s.sockets[n].closes == 0
  {
    assert Accounted(s, s.handlers[h].stage.socket);
  }

  // ----- One socket for an id until it is closed

  /** The socket a handler has settled on. */
  function Choice(stage: Stage): Option<Socket> {
    match stage
    case Losing(_, winner) => Some(winner)
    case Starting(n) => Some(n)
    case Done(n) => Some(n)
    case _ => None
  }

  /** Every handler of `id` outside `earlier` that has settled has settled on the socket in the table. */
  ghost predicate Agreed(s: State, id: Uint16, earlier: set<nat>) {
    forall h :: 0 <= h < |s.handlers| && h !in earlier && s.handlers[h].id == id ==>
      var choice := Choice(s.handlers[h].stage);
      choice.Some? ==> id in s.conns && s.conns[id] == choice.value
  }

  predicate Closes(step: Step, id: Uint16) { step == Close(id) || step.CloseAll? }

  lemma StepAgreed(s: State, step: Step, id: Uint16, earlier: set<nat>)
    requires Agreed(s, id, earlier) && Enabled(s, step) && !Closes(step, id)
    requires forall h :: h in earlier ==> h < |s.handlers| && Choice(s.handlers[h].stage).Some?
    ensures Agreed(Next(s, step), id, earlier)
    ensures forall h :: h in earlier ==> h < |Next(s, step).handlers| && Choice(Next(s, step).handlers[h].stage).Some?
  {
    match step
    case Insert(h) => InsertAgreed(s, h, id, earlier);
    case _ =>
  }

  lemma InsertAgreed(s: State, h: nat, id: Uint16, earlier: set<nat>)
    requires Agreed(s, id, earlier) && Enabled(s, Insert(h))
    requires forall i :: i in earlier ==> i < |s.handlers| && Choice(s.handlers[i].stage).Some?
    ensures Agreed(InsertStep(s, h), id, earlier)
    ensures forall i :: i in earlier ==> Choice(InsertStep(s, h).handlers[i].stage).Some?
  {
  }

  lemma {:induction false} RunAgreed(s: State, steps: seq<Step>, id: Uint16, earlier: set<nat>)
    requires Agreed(s, id, earlier) && Run(s, steps).Some?
    requires forall i :: 0 <= i < |steps| ==> !Closes(steps[i], id)
    requires forall h :: h in earlier ==> h < |s.handlers| && Choice(s.handlers[h].stage).Some?
    ensures Agreed(Run(s, steps).value, id, earlier)
    decreases |steps|
  {
    if steps != [] {
      StepAgreed(s, steps[0], id, earlier);
      RunAgreed(Next(s, steps[0]), steps[1..], id, earlier);
    }
  }

  /** All calls for one id that settle without a close in between return the same socket. */
  lemma SameSocket(s: State, steps: seq<Step>, t: State, id: Uint16, g: nat, h: nat)
    requires Run(s, steps) == Some(t) && forall i :: 0 <= i < |steps| ==> !Closes(steps[i], id)
    requires g < |t.handlers| && h < |t.handlers| && t.handlers[g].id == id && t.handlers[h].id == id
    requires g < |s.handlers| ==> Choice(s.handlers[g].stage).None?
    requires h < |s.handlers| ==> Choice(s.handlers[h].stage).None?
    requires t.handlers[g].stage.Done? && t.handlers[h].stage.Done?
    ensures t.handlers[g].stage.socket == t.handlers[h].stage.socket
  {
    var earlier := set i | 0 <= i < |s.handlers| && Choice(s.handlers[i].stage).Some?;
    RunAgreed(s, steps, id, earlier);
  }
}
