/**
 * Every wait of a handler, and what ends it. Here a timer that fires, and a peer that sends a message or goes away,
 * count for nothing: a handler's move is forced when the relay itself makes it.
 */
module RoomWaits {
  import opened Bytes
  import opened Rooms
  import opened RoomInvariant
  import opened RoomSafety
  import opened RoomSockets

  /** Direction toB of a pipe fails of itself: it reads a closed and drained socket, or writes to a closed one. */
  predicate MustEnd(s: Relay, h: Conn, toB: bool) {
    InPipe(s, h) &&
    match Fwd(s.handlers[h].pc, toB)
    case Idle => !CanRead(s.closed, Src(s.handlers[h].pc, toB))
    case Carrying(_) => Dst(s.handlers[h].pc, toB) in s.closed
    case Ended => false
  }

  /** The step happens without the timer and without the two clients of a pipe. */
  predicate Forced(s: Relay, e: Step) {
    Enabled(s, e) &&
    match e
    case FwdRead(h, toB, _) => Src(s.handlers[h].pc, toB) in s.closed
    case FwdEnd(h, toB, _) => MustEnd(s, h, toB)
    case Leave(h, timedOut) => !timedOut
    case _ => true
  }

  /** A pipe with nothing in its hands, between two sockets the relay has not closed. */
  predicate Quiet(s: Relay, h: Conn) {
    InPipe(s, h) && s.handlers[h].pc.ab == s.handlers[h].pc.ba == Idle &&
    s.handlers[h].pc.a !in s.closed && s.handlers[h].pc.b !in s.closed
  }

  predicate AwaitsDone(s: Relay, h: Conn) {
    IsHandler(s, h) && s.handlers[h].pc == AwaitDone && s.handlers[h].room.Some? && !RoomOf(s, h).done
  }

  /** A second client, a message, or the end of a transfer: what a handler can wait for. */
  predicate Waits(s: Relay, h: Conn) {
    Blocked(s, h) || AwaitsDone(s, h) || Quiet(s, h)
  }

  ghost predicate CanMove(s: Relay, h: Conn) {
    exists e :: Actor(e) == Some(h) && Forced(s, e)
  }

  /** A pipe of which a socket is closed. */
  predicate Broken(s: Relay, h: Conn) {
    InPipe(s, h) && (s.handlers[h].pc.a in s.closed || s.handlers[h].pc.b in s.closed)
  }

  // ----- what can move

  /** A direction that has not ended has a forced move, unless it is idle on an open socket. */
  function LaneMove(s: Relay, h: Conn, toB: bool): Step
    requires InPipe(s, h)
  {
    if MustEnd(s, h, toB) then FwdEnd(h, toB, 0)
    else if Fwd(s.handlers[h].pc, toB).Carrying? then FwdWrite(h, toB) else FwdRead(h, toB, "")
  }

  lemma LaneMoves(s: Relay, h: Conn, toB: bool)
    requires InPipe(s, h) && !Fwd(s.handlers[h].pc, toB).Ended?
    requires Fwd(s.handlers[h].pc, toB) == Idle ==> Src(s.handlers[h].pc, toB) in s.closed
    ensures Actor(LaneMove(s, h, toB)) == Some(h) && Forced(s, LaneMove(s, h, toB))
  {
  }

  lemma PipeCanMove(s: Relay, h: Conn)
    requires InPipe(s, h) && s.handlers[h].role == First && SocketsOk(s, h) && s.handlers[h].room.Some?
    ensures CanMove(s, h) <==> !Quiet(s, h)
  {
    var pc := s.handlers[h].pc;
    if pc.ab == Ended && pc.ba == Ended {
      assert Forced(s, PipeEnd(h)) && Actor(PipeEnd(h)) == Some(h);
    } else if !pc.ab.Ended? && (pc.ab == Idle ==> pc.a in s.closed) {
      LaneMoves(s, h, true);
    } else if !pc.ba.Ended? && (pc.ba == Idle ==> pc.b in s.closed) {
      LaneMoves(s, h, false);
    }
  }

  /** The forced move of a handler outside a pipe. */
  function Next(pc: Pc, h: Conn): Step
    requires pc != Returned && !pc.Piping?
  {
    match pc
    case Joining => Register(h)
    case Holding => TakeSlot(h)
    case Greeting => Greet(h)
    case AwaitReady => Wake(h)
    case Woken => ReadSlots(h)
    case Deleting => Delete(h)
    case ClosingDone => CloseDone(h)
    case AwaitDone => Leave(h, false)
  }

  lemma NextForced(s: Relay, h: Conn)
    requires Inv(s) && h < |s.handlers| && s.handlers[h].pc != Returned && !s.handlers[h].pc.Piping?
    ensures Actor(Next(s.handlers[h].pc, h)) == Some(h)
    ensures Forced(s, Next(s.handlers[h].pc, h)) <==> !Blocked(s, h) && !AwaitsDone(s, h)
  {
    assert HandlerOk(s, h);
    if s.handlers[h].pc == Holding {
      assert RoomOk(s, s.handlers[h].room.value);
    }
  }

  /** Outside a pipe a handler has no other forced move. */
  lemma OnlyNext(s: Relay, e: Step, h: Conn)
    requires h < |s.handlers| && !s.handlers[h].pc.Piping? && Actor(e) == Some(h) && Forced(s, e)
    ensures s.handlers[h].pc != Returned && e == Next(s.handlers[h].pc, h)
  {
  }

  /** A handler can move by force exactly when it has not returned and waits for nobody. */
  lemma MovesUnlessWaiting(s: Relay, h: Conn)
    requires Inv(s) && SocketInv(s) && h < |s.handlers|
    ensures CanMove(s, h) <==> s.handlers[h].pc != Returned && !Waits(s, h)
  {
    var pc := s.handlers[h].pc;
    if pc.Piping? {
      PipeIsFirst(s, h);
      PipeCanMove(s, h);
    } else {
      hide Forced, Inv;
      if pc != Returned {
        NextForced(s, h);
      }
      forall e | Actor(e) == Some(h) && Forced(s, e) ensures pc != Returned && e == Next(pc, h) {
        OnlyNext(s, e, h);
      }
    }
  }

  lemma PipeIsFirst(s: Relay, h: Conn)
    requires Inv(s) && SocketInv(s) && h < |s.handlers| && s.handlers[h].pc.Piping?
    ensures InPipe(s, h) && s.handlers[h].role == First && SocketsOk(s, h) && s.handlers[h].room.Some?
    ensures !Blocked(s, h) && !AwaitsDone(s, h)
  {
    assert HandlerOk(s, h) && SocketsOk(s, h);
  }

  /** In every reachable state of the relay. */
  lemma NeverStuck(maxRooms: nat, steps: seq<Step>, states: seq<Relay>, n: nat, h: Conn)
    requires IsRun(maxRooms, steps, states) && n <= |steps| && h < |states[n].handlers|
    ensures CanMove(states[n], h) <==> states[n].handlers[h].pc != Returned && !Waits(states[n], h)
  {
    hide *;
    RunShape(maxRooms, steps, states);
    RunInv(maxRooms, steps, states, n);
    RunSockets(maxRooms, steps, states, n);
    MovesUnlessWaiting(states[n], h);
  }

  // ----- a second client

  /** A first client of room r that has still to return, and moves unless its pipe is quiet. */
  ghost predicate Releases(s: Relay, f: Conn, r: RoomId) {
    InRoom(s, f, r, First) && s.handlers[f].pc != Returned && (CanMove(s, f) || Quiet(s, f))
  }

  /** A second client that waits has a first client of its room that is going on with the transfer, or ending it. */
  lemma NoStranded(maxRooms: nat, steps: seq<Step>, states: seq<Relay>, n: nat, h: Conn)
    requires IsRun(maxRooms, steps, states) && n <= |steps|
    requires h < |states[n].handlers| && states[n].handlers[h].pc == AwaitDone
    ensures IsHandler(states[n], h) && states[n].handlers[h].room.Some? && RoomOf(states[n], h).ready
    ensures CanMove(states[n], h) <==> RoomOf(states[n], h).done
    ensures RoomOf(states[n], h).done || exists f :: Releases(states[n], f, states[n].handlers[h].room.value)
  {
    hide *;
    RunShape(maxRooms, steps, states);
    RunInv(maxRooms, steps, states, n);
    var s := states[n];
    var r, f := FirstOf(s, h);
    NeverStuck(maxRooms, steps, states, n, h);
    NeverStuck(maxRooms, steps, states, n, f);
    WaitKinds(s, h, f, r);
  }

  /** The room of a second client, and a first client that joined it. */
  lemma FirstOf(s: Relay, h: Conn) returns (r: RoomId, f: Conn)
    requires Inv(s) && h < |s.handlers| && s.handlers[h].pc == AwaitDone
    ensures IsHandler(s, h) && s.handlers[h].room == Some(r) && RoomOf(s, h).ready
    ensures InRoom(s, f, r, First) && IsHandler(s, f)
    ensures s.handlers[f].pc == Returned ==> RoomOf(s, h).done
    ensures s.handlers[f].pc != AwaitDone
  {
    assert HandlerOk(s, h);
    r := s.handlers[h].room.value;
    assert RoomOk(s, r);
    f := s.rooms[r].firsts[0];
    assert f in s.rooms[r].firsts && HandlerOk(s, f);
  }

  lemma WaitKinds(s: Relay, h: Conn, f: Conn, r: RoomId)
    requires IsHandler(s, h) && s.handlers[h].pc == AwaitDone && s.handlers[h].room == Some(r) && RoomOf(s, h).ready
    requires InRoom(s, f, r, First) && s.handlers[f].pc != AwaitDone
    requires s.handlers[f].pc == Returned ==> RoomOf(s, h).done
    requires CanMove(s, h) <==> s.handlers[h].pc != Returned && !Waits(s, h)
    requires CanMove(s, f) <==> s.handlers[f].pc != Returned && !Waits(s, f)
    ensures CanMove(s, h) <==> RoomOf(s, h).done
    ensures RoomOf(s, h).done || Releases(s, f, r)
  {
    hide CanMove;
  }

  // ----- a first client

  /** How many steps, other than forwarding a message, a first client is from having closed done. */
  function Rank(pc: Pc): nat {
    match pc
    case Greeting => 8
    case AwaitReady => 7
    case Woken => 6
    case Piping(_, _, ab, ba) => 3 + (if ab.Ended? then 0 else 1) + (if ba.Ended? then 0 else 1)
    case Deleting => 2
    case ClosingDone => 1
    case _ => 0
  }

  predicate Forwards(e: Step) {
    e.FwdRead? || e.FwdWrite?
  }

  /** A first client's own steps, forwarding aside, bring it nearer its return; no other step moves it. */
  lemma FirstDescends(s: Relay, e: Step, f: Conn)
    requires Inv(s) && Enabled(s, e) && f < |s.handlers| && s.handlers[f].role == First
    ensures f < |Apply(s, e).handlers|
    ensures Actor(e) == Some(f) && !Forwards(e) ==> Rank(Apply(s, e).handlers[f].pc) < Rank(s.handlers[f].pc)
    ensures Actor(e) != Some(f) || Forwards(e) ==> Rank(Apply(s, e).handlers[f].pc) == Rank(s.handlers[f].pc)
    ensures Rank(s.handlers[f].pc) == 0 <==> s.handlers[f].pc == Returned
  {
    hide Inv, Apply, Enabled, HandlerOk, Rank;
    HandlerAt(s, f);
    if Actor(e) == Some(f) {
      OwnStep(s, e, f);
    } else {
      OtherStep(s, e, f);
    }
    FirstRanks(s, f);
  }

  lemma FirstRanks(s: Relay, f: Conn)
    requires f < |s.handlers| && HandlerOk(s, f) && s.handlers[f].role == First
    ensures Rank(s.handlers[f].pc) == 0 <==> s.handlers[f].pc == Returned
  {
  }

  lemma OwnStep(s: Relay, e: Step, f: Conn)
    requires Enabled(s, e) && f < |s.handlers| && HandlerOk(s, f) && s.handlers[f].role == First && Actor(e) == Some(f)
    ensures f < |Apply(s, e).handlers|
    ensures if Forwards(e) then Rank(Apply(s, e).handlers[f].pc) == Rank(s.handlers[f].pc)
            else Rank(Apply(s, e).handlers[f].pc) < Rank(s.handlers[f].pc)
  {
    hide Rank;
    if Forwards(e) {
      OwnForward(s, e, f);
    } else {
      OwnMove(s, e, f);
    }
  }

  lemma OwnForward(s: Relay, e: Step, f: Conn)
    requires Enabled(s, e) && f < |s.handlers| && Actor(e) == Some(f) && Forwards(e)
    ensures f < |Apply(s, e).handlers| && Rank(Apply(s, e).handlers[f].pc) == Rank(s.handlers[f].pc)
  {
  }

  lemma OwnMove(s: Relay, e: Step, f: Conn)
    requires Enabled(s, e) && f < |s.handlers| && HandlerOk(s, f) && s.handlers[f].role == First
    requires Actor(e) == Some(f) && !Forwards(e)
    ensures f < |Apply(s, e).handlers| && Rank(Apply(s, e).handlers[f].pc) < Rank(s.handlers[f].pc)
  {
    hide PipeOk, SecondOk, FirstOk;
  }

  /** A first client that has returned has closed done. */
  lemma ReturnCloses(s: Relay, f: Conn)
    requires Inv(s) && f < |s.handlers| && s.handlers[f].role == First && s.handlers[f].pc == Returned
    ensures IsHandler(s, f) && s.handlers[f].room.Some? && RoomOf(s, f).done
  {
    assert HandlerOk(s, f);
  }

  // ----- a pipe that lost a socket winds down

  /** The steps direction `lane` can still take, once one of its two sockets is closed. */
  function LaneFuel(closed: map<Conn, nat>, lane: Forward, src: Conn, dst: Conn): nat {
    match lane
    case Ended => 0
    case Idle =>
      if dst in closed then (if src in closed && closed[src] == 0 then 1 else 2)
      else if src in closed then 2 * closed[src] + 1 else 0
    case Carrying(_) =>
      if dst in closed then 1 else if src in closed then 2 * closed[src] + 2 else 0
  }

  function PipeFuel(closed: map<Conn, nat>, pc: Pc): nat
    requires pc.Piping?
  {
    LaneFuel(closed, pc.ab, pc.a, pc.b) + LaneFuel(closed, pc.ba, pc.b, pc.a)
  }

  /** The steps a first client can still take when its pipe is broken or over. */
  function Fuel(s: Relay, h: Conn): nat {
    if h >= |s.handlers| then 0
    else if s.handlers[h].pc.Piping? then 3 + PipeFuel(s.closed, s.handlers[h].pc)
    else Rank(s.handlers[h].pc)
  }

  predicate WindsDown(s: Relay, h: Conn) {
    h < |s.handlers| && s.handlers[h].role == First &&
    (Broken(s, h) || s.handlers[h].pc == Deleting || s.handlers[h].pc == ClosingDone || s.handlers[h].pc == Returned)
  }

  /** Another handler's step, or cleanup, can close sockets and drain buffers. */
  lemma FuelDrains(closed: map<Conn, nat>, after: map<Conn, nat>, pc: Pc)
    requires pc.Piping? && (pc.a in closed || pc.b in closed) && Drains(closed, after)
    ensures (pc.a in after || pc.b in after) && PipeFuel(after, pc) <= PipeFuel(closed, pc)
  {
  }

  /** What a broken pipe's own step does to its sockets. */
  ghost predicate Spends(closed: map<Conn, nat>, after: map<Conn, nat>, pc: Pc, next: Pc, e: Step)
    requires pc.Piping?
  {
    match e
    case FwdRead(_, toB, msg) =>
      && Fwd(pc, toB) == Idle && next == SetFwd(pc, toB, Carrying(msg))
      && CanRead(closed, Src(pc, toB)) && after == AfterRead(closed, Src(pc, toB))
    case FwdWrite(_, toB) =>
      Fwd(pc, toB).Carrying? && next == SetFwd(pc, toB, Idle) && Dst(pc, toB) !in closed && after == closed
    case FwdEnd(_, toB, left) =>
      && !Fwd(pc, toB).Ended? && next == SetFwd(pc, toB, Ended)
      && after == Close(closed, Dst(pc, toB), left)
    case PipeEnd(_) => pc.ab == Ended && pc.ba == Ended && next == Deleting && after == closed
    case _ => false
  }

  lemma OwnSpends(s: Relay, e: Step, h: Conn)
    requires Enabled(s, e) && h < |s.handlers| && s.handlers[h].pc.Piping? && Actor(e) == Some(h)
    ensures |Apply(s, e).handlers| == |s.handlers| && Apply(s, e).handlers[h].role == s.handlers[h].role
    ensures Spends(s.closed, Apply(s, e).closed, s.handlers[h].pc, Apply(s, e).handlers[h].pc, e)
  {
  }

  lemma SpendsFuel(closed: map<Conn, nat>, after: map<Conn, nat>, pc: Pc, next: Pc, e: Step)
    requires pc.Piping? && Spends(closed, after, pc, next, e) && (pc.a in closed || pc.b in closed) && pc.a != pc.b
    ensures next.Piping? ==> next.a == pc.a && next.b == pc.b && (pc.a in after || pc.b in after)
    ensures if next.Piping? then PipeFuel(after, next) < PipeFuel(closed, pc) else next == Deleting
  {
  }

  function Own(e: Step, h: Conn): nat {
    if Actor(e) == Some(h) then 1 else 0
  }

  /** Once it winds down, a first client does so for good, and each of its own steps uses up fuel. */
  lemma WindStep(s: Relay, e: Step, h: Conn)
    requires Inv(s) && Enabled(s, e) && WindsDown(s, h)
    ensures WindsDown(Apply(s, e), h)
    ensures Fuel(Apply(s, e), h) + Own(e, h) <= Fuel(s, h)
  {
    assert h < |s.handlers| && Own(e, h) == if Actor(e) == Some(h) then 1 else 0;
    hide *;
    if Actor(e) == Some(h) {
      WindOwn(s, e, h);
    } else {
      StepRooms(s, e);
      StepKeeps(s, e);
      OtherStep(s, e, h);
      WindOther(s, Apply(s, e), h);
    }
  }

  lemma WindOther(s: Relay, t: Relay, h: Conn)
    requires Inv(t) && WindsDown(s, h) && h < |s.handlers| && SamePlace(s, t, h) && RoomsKept(s, t)
    ensures WindsDown(t, h) && Fuel(t, h) <= Fuel(s, h)
  {
    hide LaneFuel;
    if s.handlers[h].pc.Piping? {
      FuelDrains(s.closed, t.closed, s.handlers[h].pc);
      PipeEnds(t, h);
    }
  }

  /** The two ends of a pipe are two connections. */
  lemma PipeEnds(s: Relay, h: Conn)
    requires Inv(s) && h < |s.handlers| && s.handlers[h].pc.Piping?
    ensures InPipe(s, h) && s.handlers[h].pc.a != s.handlers[h].pc.b
  {
    assert HandlerOk(s, h);
  }

  lemma WindOwn(s: Relay, e: Step, h: Conn)
    requires Inv(s) && Enabled(s, e) && WindsDown(s, h) && Actor(e) == Some(h)
    ensures WindsDown(Apply(s, e), h) && Fuel(Apply(s, e), h) < Fuel(s, h)
  {
    if s.handlers[h].pc.Piping? {
      WindPipe(s, e, h);
    } else {
      WindEnd(s, e, h);
    }
  }

  lemma WindPipe(s: Relay, e: Step, h: Conn)
    requires Inv(s) && Enabled(s, e) && WindsDown(s, h) && Actor(e) == Some(h) && s.handlers[h].pc.Piping?
    ensures WindsDown(Apply(s, e), h) && Fuel(Apply(s, e), h) < Fuel(s, h)
  {
    hide Inv, Apply, Enabled, Spends, LaneFuel, PipeFuel;
    StepKeeps(s, e);
    PipeEnds(s, h);
    OwnSpends(s, e, h);
    var t := Apply(s, e);
    SpendsFuel(s.closed, t.closed, s.handlers[h].pc, t.handlers[h].pc, e);
    if t.handlers[h].pc.Piping? {
      PipeEnds(t, h);
    }
  }

  lemma WindEnd(s: Relay, e: Step, h: Conn)
    requires Enabled(s, e) && WindsDown(s, h) && Actor(e) == Some(h) && !s.handlers[h].pc.Piping?
    ensures WindsDown(Apply(s, e), h) && Fuel(Apply(s, e), h) < Fuel(s, h)
  {
  }

  /** The steps of handler h among steps[m..n]. */
  function OwnSteps(steps: seq<Step>, m: nat, n: nat, h: Conn): nat
    requires m <= n <= |steps|
  {
    if m == n then 0 else OwnSteps(steps, m, n - 1, h) + Own(steps[n - 1], h)
  }

  lemma WindRunStep(maxRooms: nat, steps: seq<Step>, states: seq<Relay>, n: nat, h: Conn)
    requires IsRun(maxRooms, steps, states) && 0 < n <= |steps| && WindsDown(states[n - 1], h)
    ensures WindsDown(states[n], h) && Fuel(states[n], h) + Own(steps[n - 1], h) <= Fuel(states[n - 1], h)
  {
    hide *;
    RunShape(maxRooms, steps, states);
    RunStep(maxRooms, steps, states, n);
    RunInv(maxRooms, steps, states, n - 1);
    WindStep(states[n - 1], steps[n - 1], h);
  }

  lemma {:induction false} FuelUsed(
    maxRooms: nat, steps: seq<Step>, states: seq<Relay>, m: nat, n: nat, h: Conn)
    requires IsRun(maxRooms, steps, states) && m <= n <= |steps| && WindsDown(states[m], h)
    ensures WindsDown(states[n], h)
    ensures Fuel(states[n], h) + OwnSteps(steps, m, n, h) <= Fuel(states[m], h)
    decreases n
  {
    hide WindsDown, Fuel, Own;
    if m < n {
      FuelUsed(maxRooms, steps, states, m, n - 1, h);
      WindRunStep(maxRooms, steps, states, n, h);
    }
  }

  /** Handler h has returned, and done is closed. */
  predicate IsOver(s: Relay, h: Conn) {
    IsHandler(s, h) && s.handlers[h].pc == Returned && s.handlers[h].room.Some? && RoomOf(s, h).done
  }

  /** A pipe that lost a socket, or is over, ends: after at most Fuel steps of its own its handler has closed done. */
  lemma WindingDown(maxRooms: nat, steps: seq<Step>, states: seq<Relay>, m: nat, n: nat, h: Conn)
    requires IsRun(maxRooms, steps, states) && m <= n <= |steps| && WindsDown(states[m], h)
    ensures WindsDown(states[n], h)
    ensures Fuel(states[n], h) + OwnSteps(steps, m, n, h) <= Fuel(states[m], h)
    ensures CanMove(states[n], h) || IsOver(states[n], h)
  {
    hide *;
    RunShape(maxRooms, steps, states);
    FuelUsed(maxRooms, steps, states, m, n, h);
    RunInv(maxRooms, steps, states, n);
    WindMoves(states[n], h);
    NeverStuck(maxRooms, steps, states, n, h);
  }

  /** A handler that winds down waits for nobody. */
  lemma WindMoves(s: Relay, h: Conn)
    requires Inv(s) && WindsDown(s, h)
    ensures h < |s.handlers| && !Waits(s, h)
    ensures s.handlers[h].pc == Returned ==> IsOver(s, h)
  {
    assert HandlerOk(s, h);
  }

  // ----- what breaks a pipe

  /** The end of one direction does. */
  lemma EndBreaks(s: Relay, h: Conn, toB: bool, left: nat)
    requires Inv(s) && Enabled(s, FwdEnd(h, toB, left))
    ensures WindsDown(Apply(s, FwdEnd(h, toB, left)), h)
  {
    StepKeeps(s, FwdEnd(h, toB, left));
    PipeEnds(Apply(s, FwdEnd(h, toB, left)), h);
    assert HandlerOk(s, h);
  }

  /** And so does the expiry of the room. */
  lemma ExpiryBreaks(s: Relay, r: RoomId, left1: nat, left2: nat, h: Conn)
    requires Inv(s) && SocketInv(s) && Enabled(s, ExpireTask(r, left1, left2))
    requires h < |s.handlers| && s.handlers[h].pc.Piping? && s.handlers[h].room == Some(r)
    ensures WindsDown(Apply(s, ExpireTask(r, left1, left2)), h)
  {
    StepKeeps(s, ExpireTask(r, left1, left2));
    PipeEnds(Apply(s, ExpireTask(r, left1, left2)), h);
    assert HandlerOk(s, h) && SocketsOk(s, h);
  }
}
