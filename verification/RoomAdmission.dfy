/**
 * What a client of the relay gets: a room and a slot whenever there is one, a reason otherwise, and its messages
 * through.
 */
module RoomAdmission {
  import opened Bytes
  import opened Rooms
  import opened RoomInvariant
  import opened RoomSockets
  import opened RoomPairing

  // ----- looking a name up

  /** A look-up gives the room of the name; a new, empty one while there is capacity; and a refusal otherwise. */
  lemma LookUp(s: Relay, h: Conn)
    requires Inv(s) && Enabled(s, Register(h))
    ensures var t := Apply(s, Register(h)); var name := s.handlers[h].name;
      && h < |t.handlers|
      && (name in s.table ==>
        t.handlers[h].pc == Holding && t.handlers[h].room == Some(s.table[name]) && t.rooms == s.rooms
          && t.table == s.table)
      && (name !in s.table && |s.table| < s.maxRooms ==>
        && t.handlers[h].pc == Holding && t.handlers[h].room == Some(|s.rooms|)
        && |t.rooms| == |s.rooms| + 1 && t.rooms[..|s.rooms|] == s.rooms && t.table == s.table[name := |s.rooms|]
        && var r := t.rooms[|s.rooms|]; r.name == name && r.first.None? && r.second.None? && !r.ready && !r.done)
      && (name !in s.table && |s.table| == s.maxRooms ==>
        && t.handlers[h].pc == Returned && t.handlers[h].out == s.handlers[h].out + [Busy] && h in t.closed
        && t.rooms == s.rooms && t.table == s.table)
  {
  }

  /** A free slot is given, the first one first; a client for whom there is none is told so. */
  lemma SlotGiven(s: Relay, h: Conn)
    requires Inv(s) && Enabled(s, TakeSlot(h))
    ensures var t := Apply(s, TakeSlot(h)); var q := s.handlers[h].room.value;
      && h < |t.handlers| && |t.rooms| == |s.rooms|
      && (s.rooms[q].first.None? ==>
        t.rooms[q].first == Some(h) && t.rooms[q].second.None? && t.handlers[h].role == First
        && t.handlers[h].out == s.handlers[h].out)
      && (s.rooms[q].first.Some? && s.rooms[q].second.None? ==>
        t.rooms[q].first == s.rooms[q].first && t.rooms[q].second == Some(h) && t.rooms[q].ready
        && t.handlers[h].role == Second)
      && (s.rooms[q].second.Some? ==>
        t.rooms == s.rooms && t.handlers[h].pc == Returned && h in t.closed
        && t.handlers[h].out == s.handlers[h].out + [Full])
  {
    hide HandlerOk, TableOk, InRoom;
    assert RoomOk(s, s.handlers[h].room.value);
  }

  // ----- a refused client knows why

  /** It has been told, and its socket is closed. */
  ghost predicate Told(s: Relay, h: Conn)
    requires h < |s.handlers|
  {
    s.handlers[h].role == NoRole && s.handlers[h].pc == Returned ==>
      (s.handlers[h].out == [Busy] || s.handlers[h].out == [Full]) && h in s.closed
  }

  ghost predicate AllTold(s: Relay) {
    forall h :: 0 <= h < |s.handlers| ==> Told(s, h)
  }

  /** Nobody else writes to a client without a role. */
  lemma RolelessQuiet(s: Relay, e: Step, g: Conn)
    requires Inv(s) && Enabled(s, e) && g < |s.handlers| && s.handlers[g].role == NoRole && Actor(e) != Some(g)
    ensures g < |Apply(s, e).handlers| && Apply(s, e).handlers[g].out == s.handlers[g].out
  {
    hide Inv, Apply;
    if e.TakeSlot? {
      if RoomOf(s, e.h).first.Some? {
        FirstHasRole(s, e.h);
      }
      TakeSlotQuiet(s, e.h, g);
    } else if e.FwdRead? || e.FwdWrite? {
      FwdSeats(s, e.h);
      ForwardQuiet(s, e, g);
    } else if Actor(e).Some? {
      MoveQuiet(s, e, g);
    } else {
      CleanupQuiet(s, e, g);
    }
  }

  lemma FirstHasRole(s: Relay, h: Conn)
    requires Inv(s) && Enabled(s, TakeSlot(h)) && RoomOf(s, h).first.Some?
    ensures RoomOf(s, h).first.value < |s.handlers| && s.handlers[RoomOf(s, h).first.value].role == First
  {
    assert RoomOk(s, s.handlers[h].room.value);
  }

  lemma TakeSlotQuiet(s: Relay, h: Conn, g: Conn)
    requires Enabled(s, TakeSlot(h)) && g < |s.handlers| && g != h && RoomOf(s, h).first != Some(g)
    ensures g < |Apply(s, TakeSlot(h)).handlers| && Apply(s, TakeSlot(h)).handlers[g].out == s.handlers[g].out
  {
  }

  lemma ForwardQuiet(s: Relay, e: Step, g: Conn)
    requires Enabled(s, e) && (e.FwdRead? || e.FwdWrite?) && g < |s.handlers|
    requires s.handlers[e.h].pc.a != g && s.handlers[e.h].pc.b != g
    ensures g < |Apply(s, e).handlers| && Apply(s, e).handlers[g].out == s.handlers[g].out
  {
  }

  lemma MoveQuiet(s: Relay, e: Step, g: Conn)
    requires Enabled(s, e) && g < |s.handlers| && Actor(e) != Some(g)
    requires !e.TakeSlot? && !e.FwdRead? && !e.FwdWrite? && Actor(e).Some?
    ensures g < |Apply(s, e).handlers| && Apply(s, e).handlers[g].out == s.handlers[g].out
  {
  }

  lemma CleanupQuiet(s: Relay, e: Step, g: Conn)
    requires Enabled(s, e) && g < |s.handlers| && Actor(e).None?
    ensures g < |Apply(s, e).handlers| && Apply(s, e).handlers[g].out == s.handlers[g].out
  {
  }

  /** A client that is refused is told in the step that refuses it. */
  lemma RefusedNow(s: Relay, e: Step, h: Conn)
    requires PairInv(s) && Enabled(s, e) && Actor(e) == Some(h) && h < |s.handlers| && h < |Apply(s, e).handlers|
    ensures Told(Apply(s, e), h)
  {
    hide PairInv, Apply, Told;
    PairInvHandler(s, h);
    if e.Register? || e.TakeSlot? {
      RefusedJoin(s, e, h);
    } else {
      HasRoleStill(s, e, h);
    }
  }

  lemma PairInvHandler(s: Relay, h: Conn)
    requires PairInv(s) && h < |s.handlers|
    ensures HandlerOk(s, h) && Fresh(s.handlers[h])
  {
    hide HandlerOk, Fresh, RoomOk, PairOk;
  }

  lemma RefusedJoin(s: Relay, e: Step, h: Conn)
    requires Enabled(s, e) && (e.Register? || e.TakeSlot?) && e.h == h && h < |s.handlers|
    requires Fresh(s.handlers[h])
    ensures h < |Apply(s, e).handlers| && Told(Apply(s, e), h)
  {
    assert [] + [Busy] == [Busy] && [] + [Full] == [Full];
  }

  /** Every other step is taken by a client with a role. */
  lemma HasRoleStill(s: Relay, e: Step, h: Conn)
    requires Enabled(s, e) && Actor(e) == Some(h) && !e.Register? && !e.TakeSlot?
    requires h < |s.handlers| && HandlerOk(s, h)
    ensures h < |Apply(s, e).handlers| && Told(Apply(s, e), h)
  {
    hide PipeOk, FirstOk, SecondOk;
    if e.FwdRead? || e.FwdWrite? {
      ForwardRole(s, e, h);
    }
  }

  lemma ForwardRole(s: Relay, e: Step, h: Conn)
    requires Enabled(s, e) && (e.FwdRead? || e.FwdWrite?) && e.h == h
    ensures h < |Apply(s, e).handlers| && Apply(s, e).handlers[h].pc.Piping?
  {
  }

  lemma StepTold(s: Relay, e: Step)
    requires PairInv(s) && Enabled(s, e) && AllTold(s)
    ensures AllTold(Apply(s, e))
  {
    hide PairInv, Apply, Enabled;
    InvOfPairs(s);
    StepOthers(s, e);
    StepRooms(s, e);
    forall h | 0 <= h < |Apply(s, e).handlers| ensures Told(Apply(s, e), h) {
      if h < |s.handlers| && Actor(e) == Some(h) {
        RefusedNow(s, e, h);
      } else if h < |s.handlers| {
        if s.handlers[h].role == NoRole {
          RolelessQuiet(s, e, h);
        }
        StillTold(s, e, h);
      } else {
        NewTold(s, e, h);
      }
    }
  }

  lemma StillTold(s: Relay, e: Step, h: Conn)
    requires Enabled(s, e) && OthersStay(s, Apply(s, e), e) && RoomsKept(s, Apply(s, e))
    requires h < |s.handlers| && Actor(e) != Some(h) && Told(s, h)
    requires s.handlers[h].role == NoRole ==>
      h < |Apply(s, e).handlers| && Apply(s, e).handlers[h].out == s.handlers[h].out
    ensures h < |Apply(s, e).handlers| && Told(Apply(s, e), h)
  {
    hide Enabled, Apply, SlotsKept;
    assert SamePlace(s, Apply(s, e), h);
  }

  lemma NewTold(s: Relay, e: Step, h: Conn)
    requires Enabled(s, e) && OthersStay(s, Apply(s, e), e) && |s.handlers| <= h < |Apply(s, e).handlers|
    ensures Told(Apply(s, e), h)
  {
    hide Enabled, Apply;
  }

  lemma InvOfPairs(s: Relay)
    requires PairInv(s)
    ensures Inv(s)
  {
  }

  /** In every reachable state a client that was refused has heard why, and nothing else, and its socket is closed. */
  lemma {:induction false} RefusedAreTold(maxRooms: nat, steps: seq<Step>, states: seq<Relay>, n: nat)
    requires IsRun(maxRooms, steps, states) && n <= |steps|
    ensures AllTold(states[n])
  {
    hide *;
    RunShape(maxRooms, steps, states);
    if n > 0 {
      RefusedAreTold(maxRooms, steps, states, n - 1);
      RunPairs(maxRooms, steps, states, n - 1);
      RunStep(maxRooms, steps, states, n);
      StepTold(states[n - 1], steps[n - 1]);
    } else {
      InitTold(maxRooms);
    }
  }

  lemma InitTold(maxRooms: nat)
    ensures AllTold(Init(maxRooms))
  {
  }

  // ----- messages go through

  /** A pipe that has nothing in its hands can read any message from an open socket, and forwards just that one. */
  lemma GoesThrough(s: Relay, h: Conn, toB: bool, msg: Message)
    requires InPipe(s, h) && s.handlers[h].pc.a != s.handlers[h].pc.b && Fwd(s.handlers[h].pc, toB) == Idle
    requires s.handlers[h].pc.a !in s.closed && s.handlers[h].pc.b !in s.closed
    requires h == s.handlers[h].pc.a
    ensures Enabled(s, FwdRead(h, toB, msg)) && Enabled(Apply(s, FwdRead(h, toB, msg)), FwdWrite(h, toB))
    ensures var t := Apply(Apply(s, FwdRead(h, toB, msg)), FwdWrite(h, toB));
      var src := Src(s.handlers[h].pc, toB); var dst := Dst(s.handlers[h].pc, toB);
      && |t.handlers| == |s.handlers|
      && t.handlers[src].yielded == s.handlers[src].yielded + [msg]
      && Forwards(t.handlers[dst].out) == Forwards(s.handlers[dst].out) + [msg]
      && t.handlers[h].pc == s.handlers[h].pc
  {
    var pc := s.handlers[h].pc;
    FwdReadPair(s, h, pc.b, toB, msg);
    var u := Apply(s, FwdRead(h, toB, msg));
    ReadOpen(s, h, toB, msg);
    FwdWritePair(u, h, pc.b, toB);
    ForwardsAppend(s.handlers[Dst(pc, toB)].out, Forwarded(msg));
    hide Apply, Forwards, Enabled;
  }

  lemma ReadOpen(s: Relay, h: Conn, toB: bool, msg: Message)
    requires Enabled(s, FwdRead(h, toB, msg)) && Dst(s.handlers[h].pc, toB) !in s.closed
    requires Src(s.handlers[h].pc, toB) !in s.closed
    ensures Enabled(Apply(s, FwdRead(h, toB, msg)), FwdWrite(h, toB))
  {
  }
}
