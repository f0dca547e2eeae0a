/** The sockets the relay closes: a pipe whose room expired, or of which one direction ended, has lost a socket. */
module RoomSockets {
  import opened Bytes
  import opened Rooms
  import opened RoomInvariant

  predicate Slots(r: Room, a: Conn, b: Conn) {
    r.first == Some(a) && r.second == Some(b)
  }

  predicate Both(closed: map<Conn, nat>, a: Conn, b: Conn) {
    a in closed && b in closed
  }

  /** A direction that ended closed its target; the two ends are in their slots until expiry closes them. */
  ghost predicate PipeSockets(r: Room, pc: Pc, closed: map<Conn, nat>)
    requires pc.Piping?
  {
    && (pc.ab == Ended ==> pc.b in closed) && (pc.ba == Ended ==> pc.a in closed)
    && (Slots(r, pc.a, pc.b) || Both(closed, pc.a, pc.b))
  }

  ghost predicate SocketsOk(s: Relay, h: Conn)
    requires h < |s.handlers|
  {
    s.handlers[h].pc.Piping? && IsHandler(s, h) && s.handlers[h].room.Some? ==>
      PipeSockets(RoomOf(s, h), s.handlers[h].pc, s.closed)
  }

  ghost predicate SocketInv(s: Relay) {
    forall h :: 0 <= h < |s.handlers| ==> SocketsOk(s, h)
  }

  /** Closed sockets stay closed, and their buffers only drain. */
  ghost predicate Drains(closed: map<Conn, nat>, after: map<Conn, nat>) {
    forall c :: c in closed ==> c in after && after[c] <= closed[c]
  }

  /** A room's two clients keep their slots, or lose their sockets. */
  ghost predicate SlotsKept(r: Room, q: Room, closed: map<Conn, nat>) {
    r.first.Some? && r.second.Some? ==>
      Slots(q, r.first.value, r.second.value) || Both(closed, r.first.value, r.second.value)
  }

  ghost predicate RoomsKept(s: Relay, t: Relay) {
    && |s.rooms| <= |t.rooms| && Drains(s.closed, t.closed)
    && forall r :: 0 <= r < |s.rooms| ==> SlotsKept(s.rooms[r], t.rooms[r], t.closed)
  }

  lemma StepRooms(s: Relay, e: Step)
    requires Enabled(s, e)
    ensures RoomsKept(s, Apply(s, e))
  {
    if e.TakeSlot? {
      TakeSlotRooms(s, e.h);
    } else if e.ExpireTask? {
      ExpireRooms(s, e.r, e.left1, e.left2);
    } else if e.FwdRead? || e.FwdWrite? {
      ForwardRooms(s, e);
    } else if e.Register? {
      RegisterRooms(s, e.h);
    } else if e.Connect? || e.Sweep? || e.WatchFire? || e.DoneTask? {
      CleanupRooms(s, e);
    } else {
      MoveRooms(s, e);
    }
  }

  lemma TakeSlotRooms(s: Relay, h: Conn)
    requires Enabled(s, TakeSlot(h))
    ensures RoomsKept(s, Apply(s, TakeSlot(h)))
  {
  }

  lemma ExpireRooms(s: Relay, r: RoomId, left1: nat, left2: nat)
    requires Enabled(s, ExpireTask(r, left1, left2))
    ensures RoomsKept(s, Apply(s, ExpireTask(r, left1, left2)))
  {
  }

  lemma ForwardRooms(s: Relay, e: Step)
    requires Enabled(s, e) && (e.FwdRead? || e.FwdWrite?)
    ensures RoomsKept(s, Apply(s, e))
  {
  }

  lemma RegisterRooms(s: Relay, h: Conn)
    requires Enabled(s, Register(h))
    ensures RoomsKept(s, Apply(s, Register(h)))
  {
  }

  lemma CleanupRooms(s: Relay, e: Step)
    requires Enabled(s, e) && (e.Connect? || e.Sweep? || e.WatchFire? || e.DoneTask?)
    ensures RoomsKept(s, Apply(s, e))
  {
  }

  lemma MoveRooms(s: Relay, e: Step)
    requires Enabled(s, e) && !e.TakeSlot? && !e.Register? && !e.ExpireTask? && !e.FwdRead? && !e.FwdWrite?
    requires !e.Connect? && !e.Sweep? && !e.WatchFire? && !e.DoneTask?
    ensures RoomsKept(s, Apply(s, e))
  {
  }

  /** The handler whose own code takes the step; cleanup, close handlers and new connections have none. */
  function Actor(e: Step): Option<Conn> {
    match e
    case Register(h) => Some(h)
    case TakeSlot(h) => Some(h)
    case Greet(h) => Some(h)
    case Wake(h) => Some(h)
    case ReadSlots(h) => Some(h)
    case FwdRead(h, _, _) => Some(h)
    case FwdWrite(h, _) => Some(h)
    case FwdEnd(h, _, _) => Some(h)
    case PipeEnd(h) => Some(h)
    case Delete(h) => Some(h)
    case CloseDone(h) => Some(h)
    case Leave(h, _) => Some(h)
    case _ => None
  }

  /** No step moves a handler but its own, or changes its room or role. */
  ghost predicate SamePlace(s: Relay, t: Relay, g: Conn)
    requires g < |s.handlers|
  {
    g < |t.handlers| && t.handlers[g].pc == s.handlers[g].pc && t.handlers[g].room == s.handlers[g].room &&
    t.handlers[g].role == s.handlers[g].role
  }

  ghost predicate OthersStay(s: Relay, t: Relay, e: Step) {
    && |t.handlers| == |s.handlers| + (if e.Connect? then 1 else 0)
    && (e.Connect? ==> t.handlers[|s.handlers|].pc == Joining)
    && forall g :: 0 <= g < |s.handlers| && Actor(e) != Some(g) ==> SamePlace(s, t, g)
  }

  lemma StepOthers(s: Relay, e: Step)
    requires Enabled(s, e)
    ensures OthersStay(s, Apply(s, e), e)
  {
    if e.TakeSlot? || e.Register? {
      JoinOthers(s, e);
    } else if e.FwdRead? || e.FwdWrite? {
      ForwardOthers(s, e);
    } else if Actor(e).Some? {
      MoveOthers(s, e);
    } else {
      CleanupOthers(s, e);
    }
  }

  lemma JoinOthers(s: Relay, e: Step)
    requires Enabled(s, e) && (e.TakeSlot? || e.Register?)
    ensures OthersStay(s, Apply(s, e), e)
  {
  }

  lemma ForwardOthers(s: Relay, e: Step)
    requires Enabled(s, e) && (e.FwdRead? || e.FwdWrite?)
    ensures OthersStay(s, Apply(s, e), e)
  {
  }

  lemma MoveOthers(s: Relay, e: Step)
    requires Enabled(s, e) && !e.TakeSlot? && !e.Register? && !e.FwdRead? && !e.FwdWrite? && Actor(e).Some?
    ensures OthersStay(s, Apply(s, e), e)
  {
  }

  lemma CleanupOthers(s: Relay, e: Step)
    requires Enabled(s, e) && Actor(e).None?
    ensures OthersStay(s, Apply(s, e), e)
  {
  }

  lemma OtherStep(s: Relay, e: Step, g: Conn)
    requires Enabled(s, e) && g < |s.handlers| && Actor(e) != Some(g)
    ensures SamePlace(s, Apply(s, e), g)
  {
    hide Enabled, Apply, SamePlace;
    StepOthers(s, e);
  }

  /** What a pipe's own step does to its place. */
  ghost predicate PipeMoves(s: Relay, t: Relay, e: Step, h: Conn)
    requires h < |s.handlers| && h < |t.handlers| && t.handlers[h].pc.Piping?
  {
    var x := s.handlers[h];
    var y := t.handlers[h];
    && x.room == y.room
    && match e
       case ReadSlots(_) =>
         IsHandler(s, h) && x.room.Some? && Slots(RoomOf(s, h), y.pc.a, y.pc.b) && y.pc.ab == y.pc.ba == Idle
       case FwdRead(_, toB, msg) => x.pc.Piping? && y.pc == SetFwd(x.pc, toB, Carrying(msg))
       case FwdWrite(_, toB) => x.pc.Piping? && y.pc == SetFwd(x.pc, toB, Idle)
       case FwdEnd(_, toB, _) => x.pc.Piping? && y.pc == SetFwd(x.pc, toB, Ended) && Dst(x.pc, toB) in t.closed
       case _ => false
  }

  lemma PipeStep(s: Relay, e: Step, h: Conn)
    requires Enabled(s, e) && h < |s.handlers| && Actor(e) == Some(h)
    requires h < |Apply(s, e).handlers| && Apply(s, e).handlers[h].pc.Piping?
    ensures PipeMoves(s, Apply(s, e), e, h)
  {
    if e.FwdRead? || e.FwdWrite? {
      PipeForwards(s, e, h);
    } else {
      StartsOrEnds(s, e, h);
      PipeChanges(s, e, h);
    }
  }

  lemma PipeForwards(s: Relay, e: Step, h: Conn)
    requires Enabled(s, e) && h < |s.handlers| && (e.FwdRead? || e.FwdWrite?) && e.h == h
    ensures h < |Apply(s, e).handlers| && Apply(s, e).handlers[h].pc.Piping? && PipeMoves(s, Apply(s, e), e, h)
  {
  }

  lemma StartsOrEnds(s: Relay, e: Step, h: Conn)
    requires Enabled(s, e) && h < |s.handlers| && Actor(e) == Some(h) && !e.FwdRead? && !e.FwdWrite?
    requires h < |Apply(s, e).handlers| && Apply(s, e).handlers[h].pc.Piping?
    ensures e.ReadSlots? || e.FwdEnd?
  {
  }

  lemma PipeChanges(s: Relay, e: Step, h: Conn)
    requires Enabled(s, e) && h < |s.handlers| && Actor(e) == Some(h) && (e.ReadSlots? || e.FwdEnd?)
    requires h < |Apply(s, e).handlers| && Apply(s, e).handlers[h].pc.Piping?
    ensures PipeMoves(s, Apply(s, e), e, h)
  {
  }

  lemma SocketsKept(s: Relay, e: Step, h: Conn)
    requires Inv(s) && SocketInv(s) && Enabled(s, e) && h < |Apply(s, e).handlers|
    ensures SocketsOk(Apply(s, e), h)
  {
    hide Inv, Apply, Enabled, RoomsKept, HandlerOk, RoomOk, TableOk;
    StepRooms(s, e);
    StepKeeps(s, e);
    var t := Apply(s, e);
    if t.handlers[h].pc.Piping? && IsHandler(t, h) && t.handlers[h].room.Some? {
      if h < |s.handlers| && Actor(e) == Some(h) {
        OwnSockets(s, e, h);
      } else if h < |s.handlers| {
        OtherStep(s, e, h);
        SocketsSame(s, t, h);
      } else {
        NewHandler(s, e, h);
      }
    }
  }

  lemma NewHandler(s: Relay, e: Step, h: Conn)
    requires Enabled(s, e) && |s.handlers| <= h < |Apply(s, e).handlers|
    ensures !Apply(s, e).handlers[h].pc.Piping?
  {
    hide Enabled, Apply;
    StepOthers(s, e);
  }

  lemma SocketsSame(s: Relay, t: Relay, h: Conn)
    requires Inv(s) && h < |s.handlers| && SocketsOk(s, h) && RoomsKept(s, t) && SamePlace(s, t, h)
    ensures SocketsOk(t, h)
  {
    assert HandlerOk(s, h);
  }

  lemma OwnSockets(s: Relay, e: Step, h: Conn)
    requires Inv(s) && SocketInv(s) && Enabled(s, e) && RoomsKept(s, Apply(s, e))
    requires h < |s.handlers| && Actor(e) == Some(h) && h < |Apply(s, e).handlers|
    requires Apply(s, e).handlers[h].pc.Piping?
    ensures SocketsOk(Apply(s, e), h)
  {
    hide Apply, Enabled;
    PipeStep(s, e, h);
    assert HandlerOk(s, h) && SocketsOk(s, h);
  }

  lemma StepSockets(s: Relay, e: Step)
    requires Inv(s) && SocketInv(s) && Enabled(s, e)
    ensures SocketInv(Apply(s, e))
  {
    hide SocketsOk, Inv, Apply, Enabled;
    forall h | 0 <= h < |Apply(s, e).handlers| ensures SocketsOk(Apply(s, e), h) {
      SocketsKept(s, e, h);
    }
  }

  lemma {:induction false} RunSockets(maxRooms: nat, steps: seq<Step>, states: seq<Relay>, n: nat)
    requires IsRun(maxRooms, steps, states) && n <= |steps|
    ensures SocketInv(states[n])
  {
    hide *;
    RunShape(maxRooms, steps, states);
    if n > 0 {
      RunSockets(maxRooms, steps, states, n - 1);
      RunInv(maxRooms, steps, states, n - 1);
      RunStep(maxRooms, steps, states, n);
      StepSockets(states[n - 1], steps[n - 1]);
    } else {
      InitSockets(maxRooms);
    }
  }

  lemma InitSockets(maxRooms: nat)
    ensures SocketInv(Init(maxRooms))
  {
  }
}
