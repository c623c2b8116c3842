/**
 UDP associations of the client. A lock protects a map from 16-bit ids to the channels of their
 receivers; channels are closed and payloads sent outside the lock. A frame loop is started with the
 first association and ends, with everything registered, when the connection fails; resets may
 happen at any time, also while an old loop still waits for its connection.
 */
module UdpAssoc {
  import opened Bits
  import opened Options
  import Address
  import FrameReader

  const IDS: nat := 65535
  const QUEUE_SIZE: nat := 64
  const INBOX_SIZE: nat := 128

  /** A channel is named by the number of the association it was made for. */
  type Channel = nat

  datatype Payload = Payload(id: Uint16, data: seq<Byte>)

  // ----- The locked sections

  /** What the lock protects. */
  datatype Shared = Shared(nextId: Uint16, handlers: map<Uint16, Channel>, inbox: nat, active: bool, connected: bool)

  /** The counter after issuing an id: 16 bits, skipping 0. */
  function Advanced(nextId: Uint16): Uint16 {
    var n := (nextId + 1) % 0x1_0000;
    if n == 0 then 1 else n
  }

  function Opened(sh: Shared, ch: Channel): Shared {
    var id := Advanced(sh.nextId);
    sh.(nextId := id, handlers := sh.handlers[id := ch], active := true)
  }

  function Unregistered(sh: Shared, id: Uint16): Shared { sh.(handlers := sh.handlers - {id}) }

  function Dropped(sh: Shared, inbox: nat): Shared {
    sh.(handlers := map[], inbox := inbox, active := false, connected := false)
  }

  /** The frame that tells the server of the end of an association. */
  function CloseFrame(id: Uint16): seq<Byte> { [FrameReader.FRAME_UDP_CLOSE] + Address.Big(id) }

  /** Either side decodes it to the same id. */
  lemma CloseFrameIsUnderstood(side: FrameReader.Side, id: Uint16)
    ensures FrameReader.Handled(side, CloseFrame(id)) == [FrameReader.Event(FrameReader.Closing(id), [])]
  {
    FrameReader.ClosingIsHandled(side, id, CloseFrame(id));
  }

  class Client {
    var nextUDPAssocID: Uint16
    var udpHandlers: map<Uint16, Channel>
    var frameInbox: nat
    var frameLoopActive: bool
    // A writer and a reader, which are set and cleared together.
    var hasChannel: bool

    ghost function Abs(): Shared
      reads this
    {
      Shared(nextUDPAssocID, udpHandlers, frameInbox, frameLoopActive, hasChannel)
    }

    constructor (inbox: nat)
      ensures Abs() == Shared(0, map[], inbox, false, false)
    {
      nextUDPAssocID, udpHandlers, frameInbox, frameLoopActive, hasChannel := 0, map[], inbox, false, false;
    }

    method OpenUDPAssociation(incoming: Channel) returns (assocID: Uint16, shouldStartLoop: bool)
      modifies this
      ensures Abs() == Opened(old(Abs()), incoming)
      ensures assocID == nextUDPAssocID != 0 && shouldStartLoop == !old(frameLoopActive)
      ensures udpHandlers == old(udpHandlers)[assocID := incoming] && frameLoopActive
      ensures hasChannel == old(hasChannel) && frameInbox == old(frameInbox)
    {
      nextUDPAssocID := (nextUDPAssocID + 1) % 0x1_0000;
      if nextUDPAssocID == 0 {
        nextUDPAssocID := nextUDPAssocID + 1;
      }
      assocID := nextUDPAssocID;
      udpHandlers := udpHandlers[assocID := incoming];
      shouldStartLoop := !frameLoopActive;
      if shouldStartLoop {
        frameLoopActive := true;
      }
    }

    /** Returns the channel that the caller must close, and the frame to send before that, if any. */
    method UnregisterUDPAssociation(assocID: Uint16, sendClose: bool)
      returns (ch: Option<Channel>, frame: Option<seq<Byte>>)
      modifies this
      ensures Abs() == Unregistered(old(Abs()), assocID)
      ensures udpHandlers == old(udpHandlers) - {assocID}
      ensures ch == if assocID in old(udpHandlers) then Some(old(udpHandlers)[assocID]) else None
      ensures frame == if sendClose && hasChannel then Some(CloseFrame(assocID)) else None
    {
      ch := if assocID in udpHandlers then Some(udpHandlers[assocID]) else None;
      udpHandlers := udpHandlers - {assocID};
      frame := None;
      if sendClose && hasChannel {
        var body := [FrameReader.FRAME_UDP_CLOSE, assocID / 256, assocID % 256];
        assert body == CloseFrame(assocID);
        frame := Some(body);
      }
    }

    /** Swaps everything out; the caller must close what is returned. */
    method DropPersistentChannel(newInbox: nat) returns (handlers: map<Uint16, Channel>, inbox: nat)
      modifies this
      ensures Abs() == Dropped(old(Abs()), newInbox)
      ensures handlers == old(udpHandlers) && inbox == old(frameInbox)
      ensures udpHandlers == map[] && frameInbox == newInbox && !frameLoopActive && !hasChannel
      ensures nextUDPAssocID == old(nextUDPAssocID)
    {
      handlers, inbox := udpHandlers, frameInbox;
      hasChannel := false;
      frameLoopActive := false;
      udpHandlers := map[];
      frameInbox := newInbox;
    }
  }

  // ----- All steps

  /** A channel with what it holds, what was received from it, and every payload offered to it. */
  datatype Chan = Chan(id: Uint16, queue: seq<Payload>, taken: seq<Payload>, offered: seq<Offer>, closes: nat)

  datatype Offer = Offer(payload: Payload, kept: bool)

  /** An inbox with the frames in it, the frames its reader has taken out, and the times it was closed. */
  datatype Inbox = Inbox(frames: seq<seq<Byte>>, taken: seq<seq<Byte>>, closes: nat)

  datatype Loop =
    | Top
    | Reading
    | Sending(ch: Channel, payload: Payload)
    | Enqueuing(inbox: nat, frame: seq<Byte>)
    | Dropping
    | Exited

  datatype Frame = Udp(payload: Payload) | UdpClose(id: Uint16) | Malformed | Other(body: seq<Byte>)

  /** All channels and inboxes ever made, the frame loops in the order of their start, and the closes under way. */
  datatype State = State(
    sh: Shared, chans: seq<Chan>, inboxes: seq<Inbox>, loops: seq<Loop>,
    closing: multiset<Channel>, closingInboxes: multiset<nat>)

  const START := State(Shared(0, map[], 0, false, false), [], [Inbox([], [], 0)], [], multiset{}, multiset{})

  datatype Step =
    | Connect
    | Open
    | Unregister(id: Uint16)
    | Drop
    | CloseChannel(ch: Channel)
    | CloseInbox(inbox: nat)
    | Receive(ch: Channel)
    | TakeFrame(inbox: nat)
    | LoopTop(loop: nat)
    | LoopRead(loop: nat, frame: Option<Frame>)
    | LoopSend(loop: nat)
    | LoopEnqueue(loop: nat)
    | LoopDrop(loop: nat)

  predicate Enabled(s: State, step: Step) {
    match step
    case Connect => true
    case Open => true
    case Unregister(_) => true
    case Drop => true
    case CloseChannel(ch) => ch in s.closing && ch < |s.chans|
    case CloseInbox(i) => i in s.closingInboxes && i < |s.inboxes|
    case Receive(ch) => ch < |s.chans| && s.chans[ch].queue != []
    case TakeFrame(i) => i < |s.inboxes| && s.inboxes[i].frames != []
    case LoopTop(l) => l < |s.loops| && s.loops[l].Top?
    case LoopRead(l, _) => l < |s.loops| && s.loops[l].Reading?
    case LoopSend(l) => l < |s.loops| && s.loops[l].Sending? && s.loops[l].ch < |s.chans|
    case LoopEnqueue(l) => l < |s.loops| && s.loops[l].Enqueuing? && s.loops[l].inbox < |s.inboxes|
    case LoopDrop(l) => l < |s.loops| && s.loops[l].Dropping?
  }

  function OpenStep(s: State): State {
    s.(sh := Opened(s.sh, |s.chans|),
       chans := s.chans + [Chan(Advanced(s.sh.nextId), [], [], [], 0)],
       loops := if s.sh.active then s.loops else s.loops + [Top])
  }

  function UnregisterStep(s: State, id: Uint16): State {
    s.(sh := Unregistered(s.sh, id),
       closing := if id in s.sh.handlers then s.closing + multiset{s.sh.handlers[id]} else s.closing)
  }

  function DropStep(s: State): State {
    s.(sh := Dropped(s.sh, |s.inboxes|), inboxes := s.inboxes + [Inbox([], [], 0)],
       closing := s.closing + multiset(s.sh.handlers.Values),
       closingInboxes := s.closingInboxes + multiset{s.sh.inbox})
  }

  function AtLoop(s: State, l: nat, stage: Loop): State
    requires l < |s.loops|
  {
    s.(loops := s.loops[l := stage])
  }

  /** Sending to a closed channel panics and is recovered; sending to a full one is given up. */
  function Sent(c: Chan, p: Payload): Chan {
    var kept := c.closes == 0 && |c.queue| < QUEUE_SIZE;
    c.(queue := if kept then c.queue + [p] else c.queue, offered := c.offered + [Offer(p, kept)])
  }

  function ReadStep(s: State, l: nat, frame: Option<Frame>): State
    requires l < |s.loops|
  {
    match frame
    case None => AtLoop(s, l, Dropping)
    case Some(Udp(p)) =>
      if p.id in s.sh.handlers then AtLoop(s, l, Sending(s.sh.handlers[p.id], p)) else AtLoop(s, l, Top)
    case Some(UdpClose(id)) => AtLoop(UnregisterStep(s, id), l, Top)
    case Some(Malformed) => AtLoop(s, l, Top)
    case Some(Other(body)) => AtLoop(s, l, Enqueuing(s.sh.inbox, body))
  }

  function Next(s: State, step: Step): State
    requires Enabled(s, step)
  {
    match step
    case Connect => s.(sh := s.sh.(connected := true))
    case Open => OpenStep(s)
    case Unregister(id) => UnregisterStep(s, id)
    case Drop => DropStep(s)
    case CloseChannel(ch) =>
      s.(chans := s.chans[ch := s.chans[ch].(closes := s.chans[ch].closes + 1)], closing := s.closing - multiset{ch})
    case CloseInbox(i) =>
      s.(inboxes := s.inboxes[i := s.inboxes[i].(closes := s.inboxes[i].closes + 1)],
         closingInboxes := s.closingInboxes - multiset{i})
    case Receive(ch) =>
      var c := s.chans[ch];
      s.(chans := s.chans[ch := c.(queue := c.queue[1..], taken := c.taken + [c.queue[0]])])
    case TakeFrame(i) =>
      var box := s.inboxes[i];
      s.(inboxes := s.inboxes[i := box.(frames := box.frames[1..], taken := box.taken + [box.frames[0]])])
    case LoopTop(l) => AtLoop(s, l, if s.sh.connected then Reading else Dropping)
    case LoopRead(l, frame) => ReadStep(s, l, frame)
    case LoopSend(l) =>
      var Sending(ch, p) := s.loops[l];
      AtLoop(s, l, Top).(chans := s.chans[ch := Sent(s.chans[ch], p)])
    case LoopEnqueue(l) =>
      var Enqueuing(i, body) := s.loops[l];
      var box := s.inboxes[i];
      AtLoop(s, l, Top).(inboxes := s.inboxes[i := box.(frames :=
        if box.closes == 0 && |box.frames| < INBOX_SIZE then box.frames + [body] else box.frames)])
    case LoopDrop(l) => AtLoop(DropStep(s), l, Exited)
  }

  function Run(s: State, steps: seq<Step>): Option<State>
    decreases |steps|
  {
    if steps == [] then Some(s)
    else if Enabled(s, steps[0]) then Run(Next(s, steps[0]), steps[1..])
    else None
  }

  // ----- Ids

  /** The id of the association opened as number `n`, counting from 0. */
  function Id(n: nat): Uint16 { n % IDS + 1 }

  lemma SameId(m: nat, n: nat)
    requires m < n
    ensures Id(m) == Id(n) <==> (n - m) % IDS == 0
    ensures Id(m) == Id(n) ==> m + IDS <= n
  {
  }

  lemma AdvancedId(n: nat)
    ensures Advanced(if n == 0 then 0 else Id(n - 1)) == Id(n) != 0
  {
  }

  /**
   The counter and every channel carry the id of their number, and a registered channel is the
   latest one opened with its id.
   */
  ghost predicate Numbered(s: State) {
    && s.sh.nextId == (if s.chans == [] then 0 else Id(|s.chans| - 1))
    && (forall n :: 0 <= n < |s.chans| ==> s.chans[n].id == Id(n))
    && (forall id :: id in s.sh.handlers ==>
          s.sh.handlers[id] < |s.chans| && Id(s.sh.handlers[id]) == id && |s.chans| <= s.sh.handlers[id] + IDS)
  }

  lemma StepNumbered(s: State, step: Step)
    requires Numbered(s) && Enabled(s, step)
    ensures Numbered(Next(s, step))
  {
    if step.Open? {
      OpenNumbered(s);
    } else {
      KeepsIds(s, step);
      KeepsHandlers(s, step);
      hide Next, Enabled;
      StillNumbered(s, Next(s, step));
    }
  }

  // Channels are only ever added, and keep their ids.
  lemma KeepsIds(s: State, step: Step)
    requires Enabled(s, step)
    ensures var t := Next(s, step).chans;
      && (if step.Open? then |t| == |s.chans| + 1 else |t| == |s.chans|)
      && forall n :: 0 <= n < |s.chans| ==> t[n].id == s.chans[n].id
  {
    hide Advanced, Opened, Unregistered, Dropped;
  }

  // Only opening registers a handler.
  lemma KeepsHandlers(s: State, step: Step)
    requires Enabled(s, step) && !step.Open?
    ensures var t := Next(s, step).sh;
      && t.nextId == s.sh.nextId
      && forall id :: id in t.handlers ==> id in s.sh.handlers && t.handlers[id] == s.sh.handlers[id]
  {
    hide Sent;
  }

  lemma StillNumbered(s: State, t: State)
    requires Numbered(s) && t.sh.nextId == s.sh.nextId && |t.chans| == |s.chans|
    requires forall id :: id in t.sh.handlers ==> id in s.sh.handlers && t.sh.handlers[id] == s.sh.handlers[id]
    requires forall n :: 0 <= n < |s.chans| ==> t.chans[n].id == s.chans[n].id
    ensures Numbered(t)
  {
  }

  lemma OpenNumbered(s: State)
    requires Numbered(s)
    ensures Numbered(OpenStep(s))
  {
    var t := OpenStep(s);
    AdvancedId(|s.chans|);
    hide Advanced, Id;
    forall id | id in t.sh.handlers
      ensures t.sh.handlers[id] < |t.chans| && Id(t.sh.handlers[id]) == id && |t.chans| <= t.sh.handlers[id] + IDS
    {
      if id != t.sh.nextId {
        SameId(s.sh.handlers[id], |s.chans|);
      }
    }
  }

  // ----- Channels and inboxes are closed at most once

  predicate Registered(s: State, n: Channel) {
    Id(n) in s.sh.handlers && s.sh.handlers[Id(n)] == n
  }

  /** A channel is registered, about to be closed, or closed. */
  function Places(s: State, n: Channel): nat
    requires n < |s.chans|
  {
    (if Registered(s, n) then 1 else 0) + s.closing[n] + s.chans[n].closes
  }

  /**
   Each channel has one of these places, once. Only a channel that the association opened 65535 later
   has overtaken in the map has none.
   */
  ghost predicate Placed(s: State) {
    && (forall n :: 0 <= n < |s.chans| ==> Places(s, n) <= 1 && (Places(s, n) == 0 ==> n + IDS < |s.chans|))
    && (forall n :: n in s.closing ==> n < |s.chans|)
  }

  /** Opening the association 65535 later takes the place of a channel that is still registered. */
  predicate Overtakes(s: State, step: Step, n: Channel) {
    step.Open? && |s.chans| == n + IDS && Registered(s, n)
  }

  ghost predicate KeepPlaces(s: State, t: State) {
    |t.chans| == |s.chans| && forall n :: 0 <= n < |s.chans| ==> Places(t, n) == Places(s, n)
  }

  ghost predicate InboxesPlaced(s: State) {
    && s.sh.inbox < |s.inboxes|
    && (forall i :: 0 <= i < |s.inboxes| ==>
          (if i == s.sh.inbox then 1 else 0) + s.closingInboxes[i] + s.inboxes[i].closes == 1)
    && (forall i :: i in s.closingInboxes ==> i < |s.inboxes|)
  }

  lemma UnregisterPlaced(s: State, id: Uint16)
    requires Numbered(s) && Placed(s)
    ensures Placed(UnregisterStep(s, id)) && KeepPlaces(s, UnregisterStep(s, id))
  {
    var t := UnregisterStep(s, id);
    forall n | 0 <= n < |t.chans| ensures Places(t, n) == Places(s, n) {
    }
  }

  lemma DropPlaced(s: State)
    requires Numbered(s) && Placed(s)
    ensures Placed(DropStep(s)) && KeepPlaces(s, DropStep(s))
  {
    var t := DropStep(s);
    forall n | 0 <= n < |t.chans| ensures Places(t, n) == Places(s, n) {
      assert n in s.sh.handlers.Values <==> Registered(s, n);
    }
  }

  lemma OpenPlaced(s: State)
    requires Numbered(s) && Placed(s)
    ensures Placed(OpenStep(s)) && Places(OpenStep(s), |s.chans|) == 1
    ensures forall n :: 0 <= n < |s.chans| ==>
              Places(OpenStep(s), n) + (if Overtakes(s, Open, n) then 1 else 0) == Places(s, n)
  {
    AdvancedId(|s.chans|);
    assert |s.chans| !in s.closing && Places(OpenStep(s), |s.chans|) == 1;
    hide Advanced, Opened, Id, Numbered;
    forall n | 0 <= n < |s.chans|
      ensures Places(OpenStep(s), n) + (if Overtakes(s, Open, n) then 1 else 0) == Places(s, n)
      ensures Overtakes(s, Open, n) ==> n + IDS == |s.chans|
    {
      OpenPlace(s, n);
    }
    hide Places, Overtakes;
  }

  lemma OpenPlace(s: State, n: Channel)
    requires Numbered(s) && n < |s.chans|
    ensures Places(OpenStep(s), n) + (if Overtakes(s, Open, n) then 1 else 0) == Places(s, n)
  {
    AdvancedId(|s.chans|);
    SameId(n, |s.chans|);
    hide Advanced, Id;
  }

  lemma StepPlaced(s: State, step: Step)
    requires Numbered(s) && Placed(s) && Enabled(s, step)
    ensures Placed(Next(s, step)) && (!step.Open? ==> KeepPlaces(s, Next(s, step)))
  {
    match step
    case Open => OpenPlaced(s);
    case Unregister(id) => UnregisterPlaced(s, id);
    case Drop => DropPlaced(s);
    case LoopRead(l, frame) =>
      if frame.Some? && frame.value.UdpClose? {
        UnregisterPlaced(s, frame.value.id);
        SamePlaces(UnregisterStep(s, frame.value.id), Next(s, step));
      } else {
        SamePlaces(s, Next(s, step));
      }
    case LoopDrop(_) =>
      DropPlaced(s);
      SamePlaces(DropStep(s), Next(s, step));
    case CloseChannel(ch) => ClosePlaced(s, ch);
    case _ => SamePlaces(s, Next(s, step));
  }

  lemma SamePlaces(s: State, t: State)
    requires Placed(s) && t.sh.handlers == s.sh.handlers && t.closing == s.closing && |t.chans| == |s.chans|
    requires forall n :: 0 <= n < |s.chans| ==> t.chans[n].closes == s.chans[n].closes
    ensures Placed(t) && KeepPlaces(s, t)
  {
    forall n | 0 <= n < |t.chans| ensures Places(t, n) == Places(s, n) {
    }
  }

  lemma ClosePlaced(s: State, ch: Channel)
    requires Placed(s) && Enabled(s, CloseChannel(ch))
    ensures Placed(Next(s, CloseChannel(ch))) && KeepPlaces(s, Next(s, CloseChannel(ch)))
  {
    var t := Next(s, CloseChannel(ch));
    forall n | 0 <= n < |t.chans| ensures Places(t, n) == Places(s, n) {
    }
  }

  lemma StepInboxesPlaced(s: State, step: Step)
    requires InboxesPlaced(s) && Enabled(s, step)
    ensures InboxesPlaced(Next(s, step))
  {
    match step
    case Drop => DropInboxesPlaced(s);
    case LoopDrop(_) => DropInboxesPlaced(s);
    case CloseInbox(i) => CloseInboxPlaced(s, i);
    case _ =>
      KeepsInboxes(s, step);
      hide Next, Enabled;
      StillInboxesPlaced(s, Next(s, step));
  }

  lemma KeepsInboxes(s: State, step: Step)
    requires Enabled(s, step) && !step.Drop? && !step.LoopDrop? && !step.CloseInbox?
    ensures var t := Next(s, step);
      && t.sh.inbox == s.sh.inbox && t.closingInboxes == s.closingInboxes && |t.inboxes| == |s.inboxes|
      && forall i :: 0 <= i < |s.inboxes| ==> t.inboxes[i].closes == s.inboxes[i].closes
  {
    hide Sent, Advanced;
  }

  lemma StillInboxesPlaced(s: State, t: State)
    requires InboxesPlaced(s) && t.sh.inbox == s.sh.inbox && t.closingInboxes == s.closingInboxes
    requires |t.inboxes| == |s.inboxes|
    requires forall i :: 0 <= i < |s.inboxes| ==> t.inboxes[i].closes == s.inboxes[i].closes
    ensures InboxesPlaced(t)
  {
  }

  lemma CloseInboxPlaced(s: State, i: nat)
    requires InboxesPlaced(s) && Enabled(s, CloseInbox(i))
    ensures InboxesPlaced(Next(s, CloseInbox(i)))
  {
  }

  lemma DropInboxesPlaced(s: State)
    requires InboxesPlaced(s)
    ensures InboxesPlaced(DropStep(s))
  {
    assert |s.inboxes| !in s.closingInboxes;
  }

  // ----- The frame loop runs while anything is registered

  ghost predicate Attended(s: State) {
    && (s.sh.handlers != map[] ==> s.sh.active)
    && (s.sh.active ==> s.loops != [] && !s.loops[|s.loops| - 1].Exited?)
  }

  lemma StepAttended(s: State, step: Step)
    requires Attended(s) && Enabled(s, step)
    ensures Attended(Next(s, step))
  {
    match step
    case Open => assert OpenStep(s).sh.active;
    case Drop =>
    case LoopDrop(_) =>
    case LoopRead(l, frame) => ReadAttended(s, l, frame);
    case _ =>
  }

  lemma ReadAttended(s: State, l: nat, frame: Option<Frame>)
    requires Attended(s) && l < |s.loops|
    ensures Attended(ReadStep(s, l, frame))
  {
  }

  // ----- Delivery

  /** The payloads that were queued, in the order they were offered. */
  function Kept(offered: seq<Offer>): seq<Payload> {
    if offered == [] then []
    else
      var last := offered[|offered| - 1];
      Kept(offered[..|offered| - 1]) + if last.kept then [last.payload] else []
  }

  /** What was received and what is queued are the kept payloads, each with the channel's own id. */
  ghost predicate InOrder(c: Chan) {
    && |c.queue| <= QUEUE_SIZE
    && c.taken + c.queue == Kept(c.offered)
    && forall i :: 0 <= i < |c.offered| ==> c.offered[i].payload.id == c.id
  }

  ghost predicate AllInOrder(chans: seq<Chan>) {
    forall n :: 0 <= n < |chans| ==> InOrder(chans[n])
  }

  // A loop about to send holds a payload with the id of the channel it sends to.
  ghost predicate Aimed(loops: seq<Loop>, chans: seq<Chan>) {
    forall l :: 0 <= l < |loops| && loops[l].Sending? ==>
      loops[l].ch < |chans| && chans[loops[l].ch].id == loops[l].payload.id
  }

  ghost predicate Bounded(inboxes: seq<Inbox>) {
    forall i :: 0 <= i < |inboxes| ==> |inboxes[i].frames| <= INBOX_SIZE
  }

  ghost predicate Delivering(s: State) {
    AllInOrder(s.chans) && Aimed(s.loops, s.chans) && Bounded(s.inboxes)
  }

  lemma SentInOrder(c: Chan, p: Payload)
    requires InOrder(c) && p.id == c.id
    ensures InOrder(Sent(c, p))
  {
    var d := Sent(c, p);
    assert d.offered[..|c.offered|] == c.offered;
  }

  /** Dispatching keeps order, ownership and both queue bounds. */
  lemma StepDelivering(s: State, step: Step)
    requires Numbered(s) && Delivering(s) && Enabled(s, step)
    ensures Delivering(Next(s, step))
  {
    hide Next, Enabled, AllInOrder, Aimed, Bounded;
    StepInOrder(s, step);
    StepAimed(s, step);
    StepBounded(s, step);
  }

  lemma StepInOrder(s: State, step: Step)
    requires AllInOrder(s.chans) && Aimed(s.loops, s.chans) && Enabled(s, step)
    ensures AllInOrder(Next(s, step).chans)
  {
    match step
    case LoopSend(l) => SentInOrder(s.chans[s.loops[l].ch], s.loops[l].payload);
    case Open => assert InOrder(Chan(Advanced(s.sh.nextId), [], [], [], 0));
    case Receive(ch) =>
      assert InOrder(s.chans[ch]) && InOrder(Next(s, step).chans[ch]);
    case CloseChannel(ch) =>
      assert InOrder(s.chans[ch]) && InOrder(Next(s, step).chans[ch]);
    case LoopRead(l, frame) => assert ReadStep(s, l, frame).chans == s.chans;
    case _ => assert Next(s, step).chans == s.chans;
  }

  lemma StepAimed(s: State, step: Step)
    requires Numbered(s) && Aimed(s.loops, s.chans) && Enabled(s, step)
    ensures Aimed(Next(s, step).loops, Next(s, step).chans)
  {
    if step.LoopRead? {
      ReadAimed(s, step.loop, step.frame);
    } else {
      KeepsIds(s, step);
      NoNewAim(s, step);
      hide Next, Enabled, Numbered;
    }
  }

  // Only reading makes a loop ready to send.
  lemma NoNewAim(s: State, step: Step)
    requires Enabled(s, step) && !step.LoopRead?
    ensures var t := Next(s, step).loops;
      forall l :: 0 <= l < |t| && t[l].Sending? ==> l < |s.loops| && t[l] == s.loops[l]
  {
    hide Sent, Advanced;
  }

  lemma ReadAimed(s: State, l: nat, frame: Option<Frame>)
    requires Numbered(s) && Aimed(s.loops, s.chans) && l < |s.loops|
    ensures Aimed(ReadStep(s, l, frame).loops, s.chans) && ReadStep(s, l, frame).chans == s.chans
  {
  }

  lemma StepBounded(s: State, step: Step)
    requires Bounded(s.inboxes) && Enabled(s, step)
    ensures Bounded(Next(s, step).inboxes)
  {
    hide Next, Enabled;
    match step
    case LoopEnqueue(l) =>
      AimedEnqueue(s, l);
      EnqueueAppends(s, l);
      hide Bounded;
      EnqueueBounded(s, l, Next(s, step));
    case TakeFrame(_) => BoxStepBounded(s, step);
    case Drop => BoxStepBounded(s, step);
    case LoopDrop(_) => BoxStepBounded(s, step);
    case CloseInbox(_) => BoxStepBounded(s, step);
    case _ => KeepsBoxes(s, step);
  }

  lemma EnqueueBounded(s: State, l: nat, t: State)
    requires Bounded(s.inboxes) && l < |s.loops| && s.loops[l].Enqueuing?
    requires s.loops[l].inbox < |s.inboxes| == |t.inboxes|
    requires |t.inboxes[s.loops[l].inbox].frames|
          == |s.inboxes[s.loops[l].inbox].frames| + if BoxHasRoom(s, s.loops[l].inbox) then 1 else 0
    requires forall b :: 0 <= b < |s.inboxes| && b != s.loops[l].inbox ==> t.inboxes[b] == s.inboxes[b]
    ensures Bounded(t.inboxes)
  {
  }

  lemma BoxStepBounded(s: State, step: Step)
    requires Bounded(s.inboxes) && Enabled(s, step)
    requires step.TakeFrame? || step.Drop? || step.LoopDrop? || step.CloseInbox?
    ensures Bounded(Next(s, step).inboxes)
  {
  }

  // ----- Every run

  ghost predicate Sound(s: State) {
    Numbered(s) && Placed(s) && InboxesPlaced(s) && Attended(s) && Delivering(s)
  }

  lemma StepSound(s: State, step: Step)
    requires Sound(s) && Enabled(s, step)
    ensures Sound(Next(s, step))
  {
    StepNumbered(s, step);
    StepPlaced(s, step);
    StepInboxesPlaced(s, step);
    StepAttended(s, step);
    StepDelivering(s, step);
  }

  lemma {:induction false} RunSound(s: State, steps: seq<Step>)
    requires Sound(s) && Run(s, steps).Some?
    ensures Sound(Run(s, steps).value)
    decreases |steps|
  {
    if steps != [] {
      StepSound(s, steps[0]);
      RunSound(Next(s, steps[0]), steps[1..]);
    }
  }

  /**
   Over every run, with any number of closes, drops, resets and loops: no channel and no inbox is
   closed twice; while an association is registered its frame loop has not exited; and every channel
   delivers, in order, payloads of its own association, at most 64 of them queued.
   */
  lemma Lifecycle(steps: seq<Step>, s: State)
    requires Run(START, steps) == Some(s)
    ensures forall n :: 0 <= n < |s.chans| ==> s.chans[n].closes <= 1 && InOrder(s.chans[n])
    ensures forall i :: 0 <= i < |s.inboxes| ==> s.inboxes[i].closes <= 1
    ensures s.sh.handlers != map[] ==> s.sh.active
    ensures s.sh.active ==> s.loops != [] && !s.loops[|s.loops| - 1].Exited?
  {
    RunSound(START, steps);
    forall n | 0 <= n < |s.chans| ensures s.chans[n].closes <= 1 {
      assert Places(s, n) <= 1;
    }
  }

  /** The ids issued are 1 to 65535 in turn; two associations share one exactly every 65535 opens. */
  lemma IdsIssued(steps: seq<Step>, s: State, m: nat, n: nat)
    requires Run(START, steps) == Some(s) && m <= n < |s.chans|
    ensures s.chans[n].id == n % 65535 + 1 != 0
    ensures s.chans[m].id == s.chans[n].id <==> (n - m) % 65535 == 0
  {
    hide Placed, InboxesPlaced, Attended, Delivering, Run, Numbered;
    RunSound(START, steps);
    NumberedIds(s, m, n);
  }

  lemma NumberedIds(s: State, m: nat, n: nat)
    requires Numbered(s) && m <= n < |s.chans|
    ensures s.chans[n].id == n % IDS + 1 != 0
    ensures s.chans[m].id == s.chans[n].id <==> (n - m) % IDS == 0
  {
    if m < n {
      SameId(m, n);
      hide Id;
    }
  }

  /**
   Closing the association opened as number `k`, even long after a reset dropped it, when some handler
   stands under its id: it removes its own handler exactly while fewer than 65535 associations have
   been opened after it, and a stranger's from then on.
   */
  lemma CloseIsOwn(steps: seq<Step>, s: State, k: nat)
    requires Run(START, steps) == Some(s) && k < |s.chans| && Id(k) in s.sh.handlers
    ensures s.sh.handlers[Id(k)] == k <==> |s.chans| <= k + IDS
    ensures var removed := s.sh.handlers[Id(k)];
            && UnregisterStep(s, Id(k)).closing == s.closing + multiset{removed}
            && (|s.chans| > k + IDS ==> k < removed && (removed - k) % IDS == 0)
  {
    RunSound(START, steps);
    hide Placed, InboxesPlaced, Attended, Delivering, Run;
    OwnHandler(s, k);
  }

  lemma OwnHandler(s: State, k: nat)
    requires Numbered(s) && k < |s.chans| && Id(k) in s.sh.handlers
    ensures s.sh.handlers[Id(k)] == k <==> |s.chans| <= k + IDS
    ensures var removed := s.sh.handlers[Id(k)];
            && UnregisterStep(s, Id(k)).closing == s.closing + multiset{removed}
            && (|s.chans| > k + IDS ==> k < removed && (removed - k) % IDS == 0)
  {
    var n := s.sh.handlers[Id(k)];
    if n < k {
      SameId(n, k);
    } else if k < n {
      SameId(k, n);
    }
  }

  // ----- What arrives

  /** The payload that the step tries to put into the channel. */
  function Offering(s: State, step: Step, n: Channel): seq<Payload> {
    if step.LoopSend? && step.loop < |s.loops| && s.loops[step.loop].Sending? && s.loops[step.loop].ch == n then
      [s.loops[step.loop].payload]
    else []
  }

  /** The channel can take a payload: it is open and holds fewer than 64. */
  predicate HasRoom(s: State, n: Channel) {
    n < |s.chans| && s.chans[n].closes == 0 && |s.chans[n].queue| < 64
  }

  /** In a run, what is offered to the channel at moments at which it has room, in order. */
  function Arrivals(s: State, steps: seq<Step>, n: Channel): seq<Payload>
    decreases |steps|
  {
    if steps == [] || !Enabled(s, steps[0]) then []
    else (if HasRoom(s, n) then Offering(s, steps[0], n) else []) + Arrivals(Next(s, steps[0]), steps[1..], n)
  }

  /** In a run, everything that is offered to the channel. */
  function Offerings(s: State, steps: seq<Step>, n: Channel): seq<Payload>
    decreases |steps|
  {
    if steps == [] || !Enabled(s, steps[0]) then []
    else Offering(s, steps[0], n) + Offerings(Next(s, steps[0]), steps[1..], n)
  }

  /** Whenever something is offered to the channel, it has room. */
  predicate AlwaysRoom(s: State, steps: seq<Step>, n: Channel)
    decreases |steps|
  {
    steps != [] && Enabled(s, steps[0]) ==>
      && (Offering(s, steps[0], n) != [] ==> HasRoom(s, n))
      && AlwaysRoom(Next(s, steps[0]), steps[1..], n)
  }

  // What its receiver has got from the channel and what still waits in it.
  function Holdings(s: State, n: Channel): seq<Payload> {
    if n < |s.chans| then s.chans[n].taken + s.chans[n].queue else []
  }

  lemma StepHoldings(s: State, step: Step, n: Channel)
    requires Enabled(s, step)
    ensures Holdings(Next(s, step), n) == Holdings(s, n) + if HasRoom(s, n) then Offering(s, step, n) else []
  {
    hide Next, Enabled, HasRoom;
    match step
    case LoopSend(l) => SendHoldings(s, l, n);
    case Receive(ch) => ReceiveHoldings(s, ch, n);
    case Open => OpenHoldings(s, n);
    case CloseChannel(ch) => CloseHoldings(s, ch, n);
    case _ => KeepsChans(s, step);
  }

  lemma KeepsChans(s: State, step: Step)
    requires Enabled(s, step)
    requires !step.LoopSend? && !step.Receive? && !step.Open? && !step.CloseChannel?
    ensures Next(s, step).chans == s.chans
  {
    hide Unregistered, Dropped;
  }

  lemma OpenHoldings(s: State, n: Channel)
    requires Enabled(s, Open)
    ensures Holdings(Next(s, Open), n) == Holdings(s, n)
  {
    hide Opened, Advanced;
  }

  lemma CloseHoldings(s: State, ch: Channel, n: Channel)
    requires Enabled(s, CloseChannel(ch))
    ensures Holdings(Next(s, CloseChannel(ch)), n) == Holdings(s, n)
  {
  }

  lemma SendHoldings(s: State, l: nat, n: Channel)
    requires Enabled(s, LoopSend(l))
    ensures Holdings(Next(s, LoopSend(l)), n)
         == Holdings(s, n) + if HasRoom(s, n) then Offering(s, LoopSend(l), n) else []
  {
    SendQueues(s, l);
    AimedSend(s, l);
    hide Next, Enabled;
  }

  /** Sending appends the payload to the queue of an open channel that is not full, and does no more. */
  lemma SendQueues(s: State, l: nat)
    requires Enabled(s, LoopSend(l))
    ensures var (n, t) := (s.loops[l].ch, Next(s, LoopSend(l)));
      && n < |s.chans| == |t.chans|
      && t.chans[n].queue == s.chans[n].queue + (if HasRoom(s, n) then [s.loops[l].payload] else [])
      && t.chans[n].taken == s.chans[n].taken && t.chans[n].closes == s.chans[n].closes
      && forall m :: 0 <= m < |s.chans| && m != n ==> t.chans[m] == s.chans[m]
  {
  }

  lemma ReceiveHoldings(s: State, ch: Channel, n: Channel)
    requires Enabled(s, Receive(ch))
    ensures Holdings(Next(s, Receive(ch)), n) == Holdings(s, n)
  {
    var c := s.chans[ch];
    assert c.taken + [c.queue[0]] + c.queue[1..] == c.taken + c.queue;
  }

  lemma {:induction false} RunHoldings(s: State, steps: seq<Step>, n: Channel)
    requires Run(s, steps).Some?
    ensures Holdings(Run(s, steps).value, n) == Holdings(s, n) + Arrivals(s, steps, n)
    decreases |steps|
  {
    hide Holdings, HasRoom, Offering, Next, Enabled;
    if steps != [] {
      StepHoldings(s, steps[0], n);
      RunHoldings(Next(s, steps[0]), steps[1..], n);
    }
  }

  /** In every run a channel has delivered or still holds exactly what was offered to it while it had room, in order. */
  lemma Delivered(steps: seq<Step>, s: State, n: Channel)
    requires Run(START, steps) == Some(s) && n < |s.chans|
    ensures s.chans[n].taken + s.chans[n].queue == Arrivals(START, steps, n)
  {
    RunHoldings(START, steps, n);
  }

  lemma {:induction false} RoomyArrivals(s: State, steps: seq<Step>, n: Channel)
    requires AlwaysRoom(s, steps, n)
    ensures Arrivals(s, steps, n) == Offerings(s, steps, n)
    decreases |steps|
  {
    hide HasRoom, Offering, Next, Enabled;
    if steps != [] && Enabled(s, steps[0]) {
      RoomyArrivals(Next(s, steps[0]), steps[1..], n);
    }
  }

  /** A channel that is open and not full whenever something is offered to it loses nothing. */
  lemma NothingDropped(steps: seq<Step>, s: State, n: Channel)
    requires Run(START, steps) == Some(s) && n < |s.chans| && AlwaysRoom(START, steps, n)
    ensures s.chans[n].taken + s.chans[n].queue == Offerings(START, steps, n)
  {
    Delivered(steps, s, n);
    RoomyArrivals(START, steps, n);
  }

  /** What a loop does next with what it has read. */
  lemma ReadIsForwarded(s: State, l: nat, frame: Option<Frame>)
    requires Enabled(s, LoopRead(l, frame))
    ensures var t := Next(s, LoopRead(l, frame));
      && t.chans == s.chans && t.inboxes == s.inboxes && |t.loops| == |s.loops|
      && match frame
         case None => t.loops[l] == Dropping && t.sh == s.sh
         case Some(Udp(p)) =>
           && t.sh == s.sh
           && t.loops[l] == if p.id in s.sh.handlers then Sending(s.sh.handlers[p.id], p) else Top
         case Some(UdpClose(id)) => t.loops[l] == Top && t.sh == s.sh.(handlers := s.sh.handlers - {id})
         case Some(Malformed) => t.loops[l] == Top && t.sh == s.sh
         case Some(Other(body)) => t.loops[l] == Enqueuing(s.sh.inbox, body) && t.sh == s.sh
  {
  }

  /**
   In every reachable state a datagram that is read for a registered id and sent on goes to the end of
   the queue of that id's channel, which is open, unless 64 payloads wait there already.
   */
  lemma DatagramArrives(steps: seq<Step>, s: State, l: nat, p: Payload, t: State)
    requires Run(START, steps) == Some(s) && p.id in s.sh.handlers
    requires Run(s, [LoopRead(l, Some(Udp(p))), LoopSend(l)]) == Some(t)
    ensures var n := s.sh.handlers[p.id];
      && n < |s.chans| == |t.chans| && s.chans[n].id == p.id && s.chans[n].closes == 0
      && t.chans[n].queue == s.chans[n].queue + if |s.chans[n].queue| < 64 then [p] else []
  {
    RegisteredIsOpen(steps, s, p.id);
    TwoSteps(s, LoopRead(l, Some(Udp(p))), LoopSend(l));
    ReadIsForwarded(s, l, Some(Udp(p)));
    var u := Next(s, LoopRead(l, Some(Udp(p))));
    hide Next, Run;
    AimedSend(u, l);
    SendQueues(u, l);
  }

  // Only a loop that is sending can send.
  lemma AimedSend(s: State, l: nat)
    requires Enabled(s, LoopSend(l))
    ensures l < |s.loops| && s.loops[l].Sending? && s.loops[l].ch < |s.chans|
  {
  }

  /** A registered channel is open, and registered under its own id. */
  lemma RegisteredIsOpen(steps: seq<Step>, s: State, id: Uint16)
    requires Run(START, steps) == Some(s) && id in s.sh.handlers
    ensures var n := s.sh.handlers[id]; n < |s.chans| && s.chans[n].id == id && s.chans[n].closes == 0
  {
    RunSound(START, steps);
    var n := s.sh.handlers[id];
    assert Places(s, n) <= 1 && Registered(s, n);
  }

  lemma TwoSteps(s: State, a: Step, b: Step)
    requires Run(s, [a, b]).Some?
    ensures Enabled(s, a) && Enabled(Next(s, a), b) && Run(s, [a, b]) == Some(Next(Next(s, a), b))
  {
    assert [a, b][1..] == [b] && [b][1..] == [];
    assert Run(s, [a, b]) == Run(Next(s, a), [b]);
    assert Run(Next(s, a), [b]) == Run(Next(Next(s, a), b), []);
  }

  // The same for the inbox, which holds 128 frames.

  function BoxOffering(s: State, step: Step, i: nat): seq<seq<Byte>> {
    if step.LoopEnqueue? && step.loop < |s.loops| && s.loops[step.loop].Enqueuing? && s.loops[step.loop].inbox == i then
      [s.loops[step.loop].frame]
    else []
  }

  predicate BoxHasRoom(s: State, i: nat) {
    i < |s.inboxes| && s.inboxes[i].closes == 0 && |s.inboxes[i].frames| < 128
  }

  function BoxArrivals(s: State, steps: seq<Step>, i: nat): seq<seq<Byte>>
    decreases |steps|
  {
    if steps == [] || !Enabled(s, steps[0]) then []
    else
      (if BoxHasRoom(s, i) then BoxOffering(s, steps[0], i) else [])
      + BoxArrivals(Next(s, steps[0]), steps[1..], i)
  }

  function BoxHoldings(s: State, i: nat): seq<seq<Byte>> {
    if i < |s.inboxes| then s.inboxes[i].taken + s.inboxes[i].frames else []
  }

  lemma StepBoxHoldings(s: State, step: Step, i: nat)
    requires Enabled(s, step)
    ensures BoxHoldings(Next(s, step), i)
         == BoxHoldings(s, i) + if BoxHasRoom(s, i) then BoxOffering(s, step, i) else []
  {
    hide Next, Enabled, BoxHasRoom;
    match step
    case LoopEnqueue(l) => EnqueueHoldings(s, l, i);
    case TakeFrame(b) => TakeHoldings(s, b, i);
    case Drop => DropBoxHoldings(s, step, i);
    case LoopDrop(_) => DropBoxHoldings(s, step, i);
    case CloseInbox(b) => CloseBoxHoldings(s, b, i);
    case _ => KeepsBoxes(s, step);
  }

  lemma KeepsBoxes(s: State, step: Step)
    requires Enabled(s, step)
    requires !step.LoopEnqueue? && !step.TakeFrame? && !step.Drop? && !step.LoopDrop? && !step.CloseInbox?
    ensures Next(s, step).inboxes == s.inboxes
  {
    hide Unregistered, Opened, Sent;
  }

  lemma DropBoxHoldings(s: State, step: Step, i: nat)
    requires Enabled(s, step) && (step.Drop? || step.LoopDrop?)
    ensures BoxHoldings(Next(s, step), i) == BoxHoldings(s, i)
  {
    hide Dropped;
  }

  lemma CloseBoxHoldings(s: State, b: nat, i: nat)
    requires Enabled(s, CloseInbox(b))
    ensures BoxHoldings(Next(s, CloseInbox(b)), i) == BoxHoldings(s, i)
  {
  }

  lemma EnqueueHoldings(s: State, l: nat, i: nat)
    requires Enabled(s, LoopEnqueue(l))
    ensures BoxHoldings(Next(s, LoopEnqueue(l)), i)
         == BoxHoldings(s, i) + if BoxHasRoom(s, i) then BoxOffering(s, LoopEnqueue(l), i) else []
  {
    EnqueueAppends(s, l);
    AimedEnqueue(s, l);
    hide Next, Enabled;
  }

  lemma AimedEnqueue(s: State, l: nat)
    requires Enabled(s, LoopEnqueue(l))
    ensures l < |s.loops| && s.loops[l].Enqueuing? && s.loops[l].inbox < |s.inboxes|
  {
  }

  /** Enqueuing appends the frame to an open inbox that is not full, and does no more. */
  lemma EnqueueAppends(s: State, l: nat)
    requires Enabled(s, LoopEnqueue(l))
    ensures var (i, t) := (s.loops[l].inbox, Next(s, LoopEnqueue(l)));
      && i < |s.inboxes| == |t.inboxes|
      && t.inboxes[i].frames == s.inboxes[i].frames + (if BoxHasRoom(s, i) then [s.loops[l].frame] else [])
      && t.inboxes[i].taken == s.inboxes[i].taken && t.inboxes[i].closes == s.inboxes[i].closes
      && forall b :: 0 <= b < |s.inboxes| && b != i ==> t.inboxes[b] == s.inboxes[b]
  {
  }

  lemma TakeHoldings(s: State, b: nat, i: nat)
    requires Enabled(s, TakeFrame(b))
    ensures BoxHoldings(Next(s, TakeFrame(b)), i) == BoxHoldings(s, i)
  {
    var box := s.inboxes[b];
    assert box.taken + [box.frames[0]] + box.frames[1..] == box.taken + box.frames;
  }

  lemma {:induction false} RunBoxHoldings(s: State, steps: seq<Step>, i: nat)
    requires Run(s, steps).Some?
    ensures BoxHoldings(Run(s, steps).value, i) == BoxHoldings(s, i) + BoxArrivals(s, steps, i)
    decreases |steps|
  {
    hide BoxHoldings, BoxHasRoom, BoxOffering, Next, Enabled;
    if steps != [] {
      StepBoxHoldings(s, steps[0], i);
      RunBoxHoldings(Next(s, steps[0]), steps[1..], i);
    }
  }

  /** An inbox has handed out or still holds exactly the frames offered to it while it had room, in order. */
  lemma InboxDelivered(steps: seq<Step>, s: State, i: nat)
    requires Run(START, steps) == Some(s) && i < |s.inboxes|
    ensures s.inboxes[i].taken + s.inboxes[i].frames == BoxArrivals(START, steps, i)
  {
    RunBoxHoldings(START, steps, i);
  }

  /** A loop that finds a reader reads from it. */
  lemma ConnectedLoopReads(s: State, l: nat)
    requires Enabled(s, LoopTop(l))
    ensures var t := Next(s, Connect);
      Enabled(t, LoopTop(l)) && Next(t, LoopTop(l)).loops[l] == Reading && t.loops == s.loops && t.chans == s.chans
  {
  }

  /** A loop whose connection has failed drops everything, and ends. */
  lemma FailedLoopEnds(s: State, l: nat)
    requires Enabled(s, LoopDrop(l))
    ensures var t := Next(s, LoopDrop(l)); t.loops[l] == Exited && t == Next(s, Drop).(loops := t.loops)
  {
  }

  /** A drop or reset leaves nothing registered, a new inbox, and no reader: a loop that looks for one ends. */
  lemma DropDisconnects(s: State, l: nat)
    ensures var t := Next(s, Drop);
      && t.sh.handlers == map[] && !t.sh.active && !t.sh.connected && t.sh.nextId == s.sh.nextId
      && t.sh.inbox == |s.inboxes| < |t.inboxes| && t.inboxes[t.sh.inbox] == Inbox([], [], 0)
      && t.inboxes[..|s.inboxes|] == s.inboxes
      && (Enabled(t, LoopTop(l)) ==> Next(t, LoopTop(l)).loops[l] == Dropping)
  {
  }

  // ----- Which channels are closed in the end

  /** In the run some opening overtakes the channel. */
  predicate Overtaken(s: State, steps: seq<Step>, n: Channel)
    decreases |steps|
  {
    steps != [] && Enabled(s, steps[0])
    && (Overtakes(s, steps[0], n) || Overtaken(Next(s, steps[0]), steps[1..], n))
  }

  // The places a channel has, or will have once it is opened.
  function Placing(s: State, n: Channel): nat {
    if n < |s.chans| then Places(s, n) else 1
  }

  lemma StepPlacing(s: State, step: Step, n: Channel)
    requires Sound(s) && Enabled(s, step)
    ensures Placing(Next(s, step), n) + (if Overtakes(s, step, n) then 1 else 0) == Placing(s, n) <= 1
    ensures |s.chans| <= |Next(s, step).chans|
  {
    StepPlaced(s, step);
    if step.Open? {
      OpenPlaced(s);
    }
    assert n < |s.chans| ==> Places(s, n) <= 1;
  }

  lemma {:induction false} RunPlacing(s: State, steps: seq<Step>, n: Channel)
    requires Sound(s) && Run(s, steps).Some?
    ensures var t := Run(s, steps).value;
      && Placing(t, n) + (if Overtaken(s, steps, n) then 1 else 0) == Placing(s, n)
      && |s.chans| <= |t.chans|
      && (n + IDS < |s.chans| ==> !Overtaken(s, steps, n))
    decreases |steps|
  {
    hide Sound, Placing, Registered, Next, Enabled;
    if steps != [] {
      StepPlacing(s, steps[0], n);
      StepSound(s, steps[0]);
      RunPlacing(Next(s, steps[0]), steps[1..], n);
    }
  }

  /**
   In every reachable state a channel is registered, about to be closed or closed exactly unless it
   was overtaken; then it is none of these, nor ever will be. That takes 65535 further openings.
   */
  lemma OvertakenIsLost(steps: seq<Step>, s: State, n: Channel)
    requires Run(START, steps) == Some(s) && n < |s.chans|
    ensures Places(s, n) == if Overtaken(START, steps, n) then 0 else 1
    ensures Overtaken(START, steps, n) ==> n + IDS < |s.chans|
  {
    RunPlacing(START, steps, n);
    RunSound(START, steps);
  }

  /**
   Once everything has been dropped and no close is under way, every channel ever made has been closed
   exactly once, but for those overtaken while they were registered, which have not been closed at all.
   */
  lemma AllClosed(steps: seq<Step>, s: State, n: Channel)
    requires Run(START, steps) == Some(s) && n < |s.chans|
    requires s.sh.handlers == map[] && s.closing == multiset{}
    ensures s.chans[n].closes == if Overtaken(START, steps, n) then 0 else 1
    ensures |s.chans| <= n + IDS ==> s.chans[n].closes == 1
  {
    OvertakenIsLost(steps, s, n);
  }

  /**
   The same from the moment at which the id comes round again: whatever ran before and runs after, the
   channel is lost if and only if it is still registered just before.
   */
  lemma RegisteredIsLost(before: seq<Step>, u: State, after: seq<Step>, s: State, n: Channel)
    requires Run(START, before) == Some(u) && |u.chans| == n + IDS
    requires Run(Next(u, Open), after) == Some(s)
    ensures n < |s.chans| && Places(s, n) == if Registered(u, n) then 0 else 1
    ensures s.sh.handlers == map[] && s.closing == multiset{} ==>
              s.chans[n].closes == if Registered(u, n) then 0 else 1
  {
    RunSound(START, before);
    OpenDecides(u, n);
    hide Sound, Next, Enabled, Run, Registered, Places;
    RunPlacing(Next(u, Open), after, n);
    assert n < |s.chans| && Places(s, n) == if Registered(u, n) then 0 else 1;
    if s.sh.handlers == map[] && s.closing == multiset{} {
      LastPlace(s, n);
    }
  }

  lemma OpenDecides(u: State, n: Channel)
    requires Sound(u) && |u.chans| == n + IDS
    ensures var t := Next(u, Open);
      Sound(t) && |t.chans| == n + IDS + 1 && Placing(t, n) == if Registered(u, n) then 0 else 1
  {
    StepPlacing(u, Open, n);
    StepSound(u, Open);
    assert Places(u, n) == 1;
  }

  lemma LastPlace(s: State, n: Channel)
    requires n < |s.chans| && s.sh.handlers == map[] && s.closing == multiset{}
    ensures s.chans[n].closes == Places(s, n)
  {
  }

  function Opens(n: nat): seq<Step> { if n == 0 then [] else [Open] + Opens(n - 1) }

  lemma OpensRun(s: State, n: nat)
    requires n > 0
    ensures Run(s, Opens(n)) == Run(OpenStep(s), Opens(n - 1))
  {
    assert Opens(n)[1..] == Opens(n - 1);
  }

  lemma OpenRegisters(s: State)
    requires Sound(s)
    ensures var t := OpenStep(s); Sound(t) && |t.chans| == |s.chans| + 1 && Registered(t, |s.chans|)
  {
    AdvancedId(|s.chans|);
    StepSound(s, Open);
  }

  lemma {:induction false} AfterOpens(s: State, n: nat)
    requires Sound(s)
    ensures Run(s, Opens(n)).Some?
    ensures var t := Run(s, Opens(n)).value;
      && |t.chans| == |s.chans| + n
      && (n > 0 ==> Registered(t, |t.chans| - 1))
    decreases n
  {
    hide Sound, Registered, OpenStep;
    if n > 0 {
      OpensRun(s, n);
      OpenRegisters(s);
      AfterOpens(OpenStep(s), n - 1);
    }
  }

  /** The other case occurs: after 65535 more opens, closing the first association removes the last one's handler. */
  lemma CloseAfterWrap()
    ensures Run(START, Opens(IDS + 1)).Some?
    ensures var s := Run(START, Opens(IDS + 1)).value;
      |s.chans| == IDS + 1 && Id(0) in s.sh.handlers && s.sh.handlers[Id(0)] == IDS
  {
    AfterOpens(START, IDS + 1);
    assert Id(IDS) == Id(0);
  }

  // Opening closes nothing.
  lemma {:induction false} OpensCloseNothing(s: State, n: nat)
    requires s.closing == multiset{} && forall c <- s.chans :: c.closes == 0
    ensures Run(s, Opens(n)).Some?
    ensures var t := Run(s, Opens(n)).value;
      t.closing == multiset{} && forall c <- t.chans :: c.closes == 0
    decreases n
  {
    if n > 0 {
      OpensRun(s, n);
      OpensCloseNothing(OpenStep(s), n - 1);
    }
  }

  /** Channels do get lost: after 65535 openings the first association is still registered. */
  lemma FirstIsStillRegistered()
    ensures Run(START, Opens(IDS)).Some?
    ensures var u := Run(START, Opens(IDS)).value; |u.chans| == IDS && Registered(u, 0)
  {
    AfterOpens(START, IDS);
    OpensCloseNothing(START, IDS);
    RunSound(START, Opens(IDS));
    var u := Run(START, Opens(IDS)).value;
    assert u.chans[0] in u.chans && Places(u, 0) == 1;
  }

  /** So whatever follows the next opening, the first channel is never closed. */
  lemma FirstIsLost(after: seq<Step>, s: State)
    requires var u := Run(START, Opens(IDS)); u.Some? && Run(Next(u.value, Open), after) == Some(s)
    ensures s.chans != [] && s.chans[0].closes == 0 && 0 !in s.closing && !Registered(s, 0)
  {
    FirstIsStillRegistered();
    RegisteredIsLost(Opens(IDS), Run(START, Opens(IDS)).value, after, s, 0);
  }
}
