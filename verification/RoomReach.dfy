/**
 * Does the next client of a name find the one that waits there? deleteRoom goes by name, so a handler of an
 * earlier room can remove a later one from the table.
 */
module RoomReach {
  import opened Bytes
  import opened Rooms
  import opened RoomInvariant
  import opened RoomSockets

  /** A room that still waits for its second client is the one its name leads to, or cleanup is about to expire it. */
  ghost predicate Reachable(s: Relay, r: RoomId) {
    r < |s.rooms| ==>
      s.rooms[r].ready || (s.rooms[r].name in s.table && s.table[s.rooms[r].name] == r) || r in s.toExpire
  }

  /** Handler g holds a Room object of that name other than r, and deletes the name. */
  ghost predicate DeletesOther(s: Relay, e: Step, r: RoomId) {
    && e.Delete? && IsHandler(s, e.h) && r < |s.rooms|
    && s.handlers[e.h].name == s.rooms[r].name && s.handlers[e.h].room != Some(r)
  }

  /** A reachable room is lost exactly when a handler of another Room object of its name deletes the name. */
  lemma LostExactly(s: Relay, e: Step, r: RoomId)
    requires Inv(s) && Enabled(s, e) && r < |s.rooms| && Reachable(s, r)
    ensures !Reachable(Apply(s, e), r) <==> DeletesOther(s, e, r) && !s.rooms[r].ready && r !in s.toExpire
  {
    hide HandlerOk, RoomOk, Apply, Enabled, Reachable;
    if e.Delete? {
      DeleteReach(s, e.h, r);
    } else {
      OthersReach(s, e, r);
    }
  }

  lemma DeleteReach(s: Relay, g: Conn, r: RoomId)
    requires Inv(s) && Enabled(s, Delete(g)) && r < |s.rooms| && Reachable(s, r)
    ensures !Reachable(Apply(s, Delete(g)), r) <==>
      DeletesOther(s, Delete(g), r) && !s.rooms[r].ready && r !in s.toExpire
  {
    hide RoomOk, PipeOk;
    assert HandlerOk(s, g);
  }

  lemma OthersReach(s: Relay, e: Step, r: RoomId)
    requires Enabled(s, e) && !e.Delete? && r < |s.rooms| && Reachable(s, r) && TableOk(s)
    ensures Reachable(Apply(s, e), r)
  {
    hide Apply, TableOk, Reachable;
    if e.Sweep? {
      SweepReach(s, e.stale, r);
    } else if e.TakeSlot? || e.Register? {
      JoinReach(s, e, r);
    } else if Actor(e).Some? {
      MoveReach(s, e, r);
    } else {
      CleanupReach(s, e, r);
    }
  }

  lemma JoinReach(s: Relay, e: Step, r: RoomId)
    requires Enabled(s, e) && (e.TakeSlot? || e.Register?) && r < |s.rooms| && Reachable(s, r) && TableOk(s)
    ensures Reachable(Apply(s, e), r)
  {
  }

  lemma MoveReach(s: Relay, e: Step, r: RoomId)
    requires Enabled(s, e) && Actor(e).Some? && !e.TakeSlot? && !e.Register? && !e.Delete?
    requires r < |s.rooms| && Reachable(s, r)
    ensures Reachable(Apply(s, e), r)
  {
  }

  lemma CleanupReach(s: Relay, e: Step, r: RoomId)
    requires Enabled(s, e) && Actor(e).None? && !e.Sweep? && r < |s.rooms| && Reachable(s, r)
    ensures Reachable(Apply(s, e), r)
  {
  }

  lemma SweepReach(s: Relay, stale: set<string>, r: RoomId)
    requires Enabled(s, Sweep(stale)) && r < |s.rooms| && Reachable(s, r)
    ensures Reachable(Apply(s, Sweep(stale)), r)
  {
    var n := s.rooms[r].name;
    if n in stale && n in s.table && s.table[n] == r {
      assert r in (set k | k in stale :: s.table[k]);
    }
  }

  // ----- the proviso under which no room is lost

  /** Handler g has a room of that name and has not returned. */
  predicate Holds(s: Relay, g: Conn, name: string) {
    g < |s.handlers| && s.handlers[g].name == name && s.handlers[g].room.Some? && s.handlers[g].pc != Returned
  }

  predicate Creates(s: Relay, e: Step) {
    e.Register? && e.h < |s.handlers| && s.handlers[e.h].name !in s.table && |s.table| < s.maxRooms
  }

  /** A Room object is created for a name only when no handler holds an earlier one. */
  ghost predicate Proviso(s: Relay, e: Step) {
    Creates(s, e) ==> forall g :: 0 <= g < |s.handlers| ==> !Holds(s, g, s.handlers[e.h].name)
  }

  /** Room q is the last one created for its name. */
  ghost predicate Newest(s: Relay, q: RoomId) {
    q < |s.rooms| && forall r :: q < r < |s.rooms| ==> s.rooms[r].name != s.rooms[q].name
  }

  ghost predicate HoldersNewest(s: Relay) {
    forall g :: 0 <= g < |s.handlers| && s.handlers[g].room.Some? && s.handlers[g].pc != Returned ==>
      Newest(s, s.handlers[g].room.value)
  }

  ghost predicate TableNewest(s: Relay) {
    forall n :: n in s.table ==> Newest(s, s.table[n])
  }

  ghost predicate AllReachable(s: Relay) {
    forall r :: 0 <= r < |s.rooms| ==> Reachable(s, r)
  }

  lemma NewestKept(s: Relay, t: Relay, q: RoomId)
    requires Newest(s, q) && |t.rooms| == |s.rooms|
    requires forall r :: 0 <= r < |s.rooms| ==> t.rooms[r].name == s.rooms[r].name
    ensures Newest(t, q)
  {
  }

  /** No room was created. */
  ghost predicate SameRooms(s: Relay, t: Relay) {
    && |t.rooms| == |s.rooms| && (forall r :: 0 <= r < |s.rooms| ==> t.rooms[r].name == s.rooms[r].name)
    && (forall n :: n in t.table ==> n in s.table && t.table[n] == s.table[n])
  }

  /** No handler was given a room. */
  ghost predicate SameHolders(s: Relay, t: Relay) {
    && |t.handlers| >= |s.handlers|
    && (forall g :: 0 <= g < |s.handlers| ==>
          t.handlers[g].room == s.handlers[g].room && (s.handlers[g].pc == Returned ==> t.handlers[g].pc == Returned))
    && (forall g :: |s.handlers| <= g < |t.handlers| ==> t.handlers[g].room.None?)
  }

  lemma StepSame(s: Relay, e: Step)
    requires Enabled(s, e) && !e.Register?
    ensures SameRooms(s, Apply(s, e)) && SameHolders(s, Apply(s, e))
  {
    hide Apply, Enabled, SameRooms, SameHolders;
    if e.TakeSlot? {
      TakeSlotSame(s, e.h);
    } else if e.FwdRead? || e.FwdWrite? {
      ForwardSame(s, e);
    } else if e.Sweep? || e.WatchFire? || e.ExpireTask? || e.DoneTask? {
      CleanupSame(s, e);
    } else if e.Connect? || e.ReadSlots? || e.Delete? || e.CloseDone? {
      ChangeSame(s, e);
    } else {
      MoveSame(s, e);
    }
  }

  lemma TakeSlotSame(s: Relay, h: Conn)
    requires Enabled(s, TakeSlot(h))
    ensures SameRooms(s, Apply(s, TakeSlot(h))) && SameHolders(s, Apply(s, TakeSlot(h)))
  {
  }

  lemma ForwardSame(s: Relay, e: Step)
    requires Enabled(s, e) && (e.FwdRead? || e.FwdWrite?)
    ensures SameRooms(s, Apply(s, e)) && SameHolders(s, Apply(s, e))
  {
  }

  lemma CleanupSame(s: Relay, e: Step)
    requires Enabled(s, e) && (e.Sweep? || e.WatchFire? || e.ExpireTask? || e.DoneTask?)
    ensures SameRooms(s, Apply(s, e)) && SameHolders(s, Apply(s, e))
  {
  }

  lemma ChangeSame(s: Relay, e: Step)
    requires Enabled(s, e) && (e.Connect? || e.ReadSlots? || e.Delete? || e.CloseDone?)
    ensures SameRooms(s, Apply(s, e)) && SameHolders(s, Apply(s, e))
  {
  }

  lemma MoveSame(s: Relay, e: Step)
    requires Enabled(s, e) && !e.Register? && !e.TakeSlot? && !e.FwdRead? && !e.FwdWrite?
    requires !e.Sweep? && !e.WatchFire? && !e.ExpireTask? && !e.DoneTask?
    requires !e.Connect? && !e.ReadSlots? && !e.Delete? && !e.CloseDone?
    ensures SameRooms(s, Apply(s, e)) && SameHolders(s, Apply(s, e))
  {
  }

  lemma SameRoomsNewest(s: Relay, t: Relay)
    requires HoldersNewest(s) && TableNewest(s) && SameRooms(s, t) && SameHolders(s, t)
    ensures HoldersNewest(t) && TableNewest(t)
  {
    forall q | 0 <= q < |s.rooms| && Newest(s, q) ensures Newest(t, q) {
      NewestKept(s, t, q);
    }
  }

  lemma RegisterNewest(s: Relay, h: Conn)
    requires Inv(s) && Enabled(s, Register(h)) && HoldersNewest(s) && TableNewest(s) && Proviso(s, Register(h))
    ensures HoldersNewest(Apply(s, Register(h))) && TableNewest(Apply(s, Register(h)))
  {
    hide RoomOk, FirstOk, SecondOk, PipeOk;
    var t := Apply(s, Register(h));
    forall n | n in t.table ensures Newest(t, t.table[n]) {
      if n in s.table {
        assert Newest(s, s.table[n]);
      }
    }
    forall g | 0 <= g < |t.handlers| && t.handlers[g].room.Some? && t.handlers[g].pc != Returned
      ensures Newest(t, t.handlers[g].room.value)
    {
      if g != h {
        assert HandlerOk(s, g) && !(Creates(s, Register(h)) && Holds(s, g, s.handlers[h].name));
        assert Newest(s, s.handlers[g].room.value);
      }
    }
  }

  lemma StepReach(s: Relay, e: Step)
    requires Inv(s) && Enabled(s, e) && Proviso(s, e) && HoldersNewest(s) && TableNewest(s) && AllReachable(s)
    ensures HoldersNewest(Apply(s, e)) && TableNewest(Apply(s, e)) && AllReachable(Apply(s, e))
  {
    var t := Apply(s, e);
    if e.Register? {
      RegisterNewest(s, e.h);
    } else {
      StepSame(s, e);
      SameRoomsNewest(s, t);
    }
    forall r | 0 <= r < |t.rooms| ensures Reachable(t, r) {
      if r < |s.rooms| {
        NotLost(s, e, r);
      } else {
        NewReach(s, e, r);
      }
    }
  }

  lemma NotLost(s: Relay, e: Step, r: RoomId)
    requires Inv(s) && Enabled(s, e) && HoldersNewest(s) && TableNewest(s) && r < |s.rooms| && Reachable(s, r)
    ensures Reachable(Apply(s, e), r)
  {
    hide RoomOk, FirstOk, SecondOk, PipeOk, Apply;
    LostExactly(s, e, r);
    if e.Delete? {
      assert HandlerOk(s, e.h);
    }
  }

  lemma NewReach(s: Relay, e: Step, r: RoomId)
    requires Enabled(s, e) && |s.rooms| <= r < |Apply(s, e).rooms|
    ensures Reachable(Apply(s, e), r)
  {
  }

  lemma {:induction false} RunReach(maxRooms: nat, steps: seq<Step>, states: seq<Relay>, n: nat)
    requires IsRun(maxRooms, steps, states) && n <= |steps|
    requires forall m :: 0 <= m < n ==> Proviso(states[m], steps[m])
    ensures HoldersNewest(states[n]) && TableNewest(states[n]) && AllReachable(states[n])
  {
    hide *;
    RunShape(maxRooms, steps, states);
    if n > 0 {
      RunReach(maxRooms, steps, states, n - 1);
      RunInv(maxRooms, steps, states, n - 1);
      RunStep(maxRooms, steps, states, n);
      StepReach(states[n - 1], steps[n - 1]);
    } else {
      InitReach(maxRooms);
    }
  }

  lemma InitReach(maxRooms: nat)
    ensures HoldersNewest(Init(maxRooms)) && TableNewest(Init(maxRooms)) && AllReachable(Init(maxRooms))
  {
  }

  /** Handler h is at its room and the second client has not come. */
  predicate AwaitsSecond(s: Relay, h: Conn) {
    && IsHandler(s, h) && s.handlers[h].role == First && s.handlers[h].room.Some? && !RoomOf(s, h).ready
  }

  /**
   * While rooms are only created after every holder of an earlier one returned, a waiting client stays where the
   * next join looks.
   */
  lemma WaitingReachable(maxRooms: nat, steps: seq<Step>, states: seq<Relay>, n: nat, h: Conn)
    requires IsRun(maxRooms, steps, states) && n <= |steps| && AwaitsSecond(states[n], h)
    requires forall m :: 0 <= m < n ==> Proviso(states[m], steps[m])
    ensures var s := states[n]; var x := s.handlers[h];
      (x.name in s.table && s.table[x.name] == x.room.value) || x.room.value in s.toExpire
  {
    hide FirstOk, SecondOk, PipeOk, RoomOk;
    RunReach(maxRooms, steps, states, n);
    RunInv(maxRooms, steps, states, n);
    assert HandlerOk(states[n], h) && Reachable(states[n], states[n].handlers[h].room.value);
  }

  // ----- the next join

  /** From s to t, client g took the second slot beside h, and both were told. */
  ghost predicate Joined(s: Relay, t: Relay, h: Conn, g: Conn) {
    && h < |s.handlers| && g < |s.handlers| && IsHandler(t, h) && IsHandler(t, g)
    && t.handlers[h].room.Some? && t.handlers[g].room == t.handlers[h].room
    && RoomOf(t, h).first == Some(h) && RoomOf(t, h).second == Some(g) && RoomOf(t, h).ready
    && t.handlers[h].out == s.handlers[h].out + [PairedSender]
    && t.handlers[g].out == s.handlers[g].out + [PairedReceiver]
  }

  /** Handler g has the room in which h waits, and has not locked it yet. */
  ghost predicate Approaches(s: Relay, g: Conn, h: Conn) {
    && AwaitsSecond(s, h) && IsHandler(s, g) && g != h && s.handlers[g].pc == Holding
    && s.handlers[g].room == s.handlers[h].room
  }

  /** What ends the wait of h: a second client, or the expiry of its room. */
  ghost predicate EndsWait(s: Relay, e: Step, t: Relay, h: Conn) {
    || (e.TakeSlot? && Joined(s, t, h, e.h))
    || (e.ExpireTask? && h < |s.handlers| && s.handlers[h].room == Some(e.r))
  }

  /** A name that leads to a waiting client gives its next client that room. */
  lemma RegisterFinds(s: Relay, h: Conn, g: Conn)
    requires Inv(s) && AwaitsSecond(s, h) && Enabled(s, Register(g)) && s.handlers[g].name == s.handlers[h].name
    requires s.handlers[h].name in s.table && s.handlers[h].room == Some(s.table[s.handlers[h].name])
    ensures Approaches(Apply(s, Register(g)), g, h)
  {
    hide RoomOk, PipeOk, FirstOk, SecondOk;
    assert HandlerOk(s, h) && HandlerOk(s, g);
  }

  lemma ApproachPairs(s: Relay, h: Conn, g: Conn)
    requires Inv(s) && Approaches(s, g, h)
    ensures Enabled(s, TakeSlot(g)) && Joined(s, Apply(s, TakeSlot(g)), h, g)
  {
    hide TableOk, PipeOk, SecondOk;
    assert HandlerOk(s, h) && HandlerOk(s, g) && RoomOk(s, s.handlers[h].room.value);
  }

  /** Whatever happens to the others, h goes on waiting until a client joins it or its room expires. */
  lemma WaitStep(s: Relay, e: Step, h: Conn)
    requires Inv(s) && Enabled(s, e) && AwaitsSecond(s, h)
    ensures AwaitsSecond(Apply(s, e), h) || EndsWait(s, e, Apply(s, e), h)
  {
    hide Inv, Joined, HandlerOk, RoomOk;
    HandlerAt(s, h);
    StepKeeps(s, e);
    if e.TakeSlot? {
      TakeSlotWait(s, e.h, h);
    } else {
      ReadyKept(s, e, h);
    }
  }

  lemma TakeSlotWait(s: Relay, g: Conn, h: Conn)
    requires Inv(s) && Enabled(s, TakeSlot(g)) && AwaitsSecond(s, h)
    ensures AwaitsSecond(Apply(s, TakeSlot(g)), h) || Joined(s, Apply(s, TakeSlot(g)), h, g)
  {
    hide Inv, HandlerOk, RoomOk, Joined, DoTakeSlot;
    FirstSlot(s, h);
    HandlerAt(s, g);
    Newcomer(s, g);
    if s.handlers[g].room == s.handlers[h].room {
      ApproachPairs(s, h, g);
    } else {
      OtherRoomWait(s, g, h);
    }
  }

  lemma Newcomer(s: Relay, g: Conn)
    requires g < |s.handlers| && HandlerOk(s, g) && s.handlers[g].pc == Holding
    ensures s.handlers[g].role == NoRole
  {
  }

  /** A waiting client owns the first slot. */
  lemma FirstSlot(s: Relay, h: Conn)
    requires Inv(s) && AwaitsSecond(s, h)
    ensures RoomOf(s, h).first == Some(h) && RoomOf(s, h).second.None?
  {
    assert HandlerOk(s, h) && RoomOk(s, s.handlers[h].room.value);
  }

  lemma OtherRoomWait(s: Relay, g: Conn, h: Conn)
    requires Enabled(s, TakeSlot(g)) && AwaitsSecond(s, h) && s.handlers[g].room != s.handlers[h].room && g != h
    ensures AwaitsSecond(Apply(s, TakeSlot(g)), h)
  {
  }

  lemma ReadyKept(s: Relay, e: Step, h: Conn)
    requires AwaitsSecond(s, h) && HandlerOk(s, h) && Enabled(s, e) && !e.TakeSlot?
    ensures AwaitsSecond(Apply(s, e), h) || (e.ExpireTask? && s.handlers[h].room == Some(e.r))
  {
    hide Apply, Enabled, HandlerOk;
    StepOthers(s, e);
    StepReady(s, e);
    if Actor(e) == Some(h) {
      OwnSeat(s, e, h);
    }
  }

  /** Only a second client or expiry closes ready. */
  ghost predicate ReadySame(s: Relay, t: Relay, e: Step) {
    |s.rooms| <= |t.rooms| && forall r :: 0 <= r < |s.rooms| ==>
      t.rooms[r].ready == s.rooms[r].ready || (e.ExpireTask? && e.r == r)
  }

  lemma StepReady(s: Relay, e: Step)
    requires Enabled(s, e) && !e.TakeSlot?
    ensures ReadySame(s, Apply(s, e), e)
  {
  }

  /**
   * The next client g of a name joins the client h that waits there, whatever steps the others take between its
   * look-up and its lock, unless one of these already ended the wait of h.
   */
  lemma NextJoinPairs(maxRooms: nat, steps: seq<Step>, states: seq<Relay>, m: nat, n: nat, h: Conn, g: Conn)
    requires IsRun(maxRooms, steps, states) && m < n < |steps| && AwaitsSecond(states[m], h)
    requires g < |states[m].handlers| && states[m].handlers[g].name == states[m].handlers[h].name
    requires states[m].handlers[h].name in states[m].table
    requires states[m].handlers[h].room == Some(states[m].table[states[m].handlers[h].name])
    requires steps[m] == Register(g) && steps[n] == TakeSlot(g)
    requires forall i :: m < i < n ==> Actor(steps[i]) != Some(g)
    ensures Joined(states[n], states[n + 1], h, g)
      || exists i :: m < i < n && EndsWait(states[i], steps[i], states[i + 1], h)
  {
    hide Inv, AwaitsSecond, Approaches, Joined, EndsWait, Enabled, Apply, IsRun;
    RunShape(maxRooms, steps, states);
    RunInv(maxRooms, steps, states, m);
    RunStep(maxRooms, steps, states, m + 1);
    RegisterFinds(states[m], h, g);
    var i := Approaching(maxRooms, steps, states, m + 1, n, h, g);
    if i == n {
      RunInv(maxRooms, steps, states, n);
      RunStep(maxRooms, steps, states, n + 1);
      ApproachPairs(states[n], h, g);
    }
  }

  /** The first moment from m on at which the wait of h is ended, or n if there is none before. */
  lemma {:induction false} Approaching(
    maxRooms: nat, steps: seq<Step>, states: seq<Relay>, m: nat, n: nat, h: Conn, g: Conn) returns (i: nat)
    requires IsRun(maxRooms, steps, states) && m <= n < |steps| && Approaches(states[m], g, h)
    requires forall j :: m <= j < n ==> Actor(steps[j]) != Some(g)
    ensures m <= i <= n
    ensures i < n ==> EndsWait(states[i], steps[i], states[i + 1], h)
    ensures i == n ==> Approaches(states[n], g, h)
    decreases n - m
  {
    hide Inv, AwaitsSecond, Approaches, EndsWait, Enabled, Apply, IsRun;
    RunShape(maxRooms, steps, states);
    i := m;
    if m < n {
      RunInv(maxRooms, steps, states, m);
      RunStep(maxRooms, steps, states, m + 1);
      ApproachStep(states[m], steps[m], h, g);
      if !EndsWait(states[m], steps[m], states[m + 1], h) {
        i := Approaching(maxRooms, steps, states, m + 1, n, h, g);
      }
    }
  }

  lemma ApproachStep(s: Relay, e: Step, h: Conn, g: Conn)
    requires Inv(s) && Enabled(s, e) && Approaches(s, g, h) && Actor(e) != Some(g)
    ensures Approaches(Apply(s, e), g, h) || EndsWait(s, e, Apply(s, e), h)
  {
    hide Inv, Enabled, Apply, EndsWait;
    WaitStep(s, e, h);
    StepKeeps(s, e);
    OtherStep(s, e, g);
    SeatStays(s, e, h);
    StepRooms(s, e);
  }

  lemma SeatStays(s: Relay, e: Step, h: Conn)
    requires Inv(s) && Enabled(s, e) && h < |s.handlers| && s.handlers[h].role == First
    ensures h < |Apply(s, e).handlers| && Apply(s, e).handlers[h].room == s.handlers[h].room
  {
    hide Inv, HandlerOk;
    HandlerAt(s, h);
    if Actor(e) == Some(h) {
      OwnSeat(s, e, h);
    } else {
      hide Enabled, Apply;
      OtherStep(s, e, h);
    }
  }

  lemma OwnSeat(s: Relay, e: Step, h: Conn)
    requires h < |s.handlers| && HandlerOk(s, h) && Enabled(s, e) && s.handlers[h].role == First && Actor(e) == Some(h)
    ensures h < |Apply(s, e).handlers|
    ensures Apply(s, e).handlers[h].room == s.handlers[h].room && Apply(s, e).handlers[h].role == First
  {
    hide FirstOk, SecondOk, PipeOk;
    if e.FwdRead? || e.FwdWrite? {
      ForwardSeat(s, e, h);
    }
  }

  lemma ForwardSeat(s: Relay, e: Step, h: Conn)
    requires Enabled(s, e) && (e.FwdRead? || e.FwdWrite?) && e.h == h
    ensures h < |Apply(s, e).handlers|
    ensures Apply(s, e).handlers[h].room == s.handlers[h].room && Apply(s, e).handlers[h].role == s.handlers[h].role
  {
  }

  // ----- without the proviso

  /** One more step of a run that ends in s. */
  ghost predicate Ends(steps: seq<Step>, states: seq<Relay>, s: Relay) {
    IsRun(1, steps, states) && states[|steps|] == s
  }

  lemma Take(steps: seq<Step>, states: seq<Relay>, s: Relay, e: Step)
    returns (more: seq<Step>, reached: seq<Relay>, t: Relay)
    requires Ends(steps, states, s) && Enabled(s, e)
    ensures t == Apply(s, e) && Ends(more, reached, t)
  {
    hide Apply, Enabled;
    more, t := steps + [e], Apply(s, e);
    reached := states + [t];
  }

  const NAME := "a"

  const FIRST_OUT := [Waiting, PairedSender]
  const PAIR := Room(NAME, Some(0), Some(1), true, false, false, [0], [1], 0)

  const BOTH: map<Conn, nat> := map[1 := 0, 0 := 0]

  const MET := Relay(1, map[NAME := 0], [PAIR],
    [Handler(NAME, Some(0), First, AwaitReady, FIRST_OUT, []),
      Handler(NAME, Some(0), Second, AwaitDone, [PairedReceiver], [])],
    multiset{}, multiset{}, map[])

  const PIPE_OVER := Relay(1, map[NAME := 0], [PAIR.(pipes := 1)],
    [Handler(NAME, Some(0), First, Piping(0, 1, Ended, Ended), FIRST_OUT, []),
      Handler(NAME, Some(0), Second, AwaitDone, [PairedReceiver], [])],
    multiset{}, multiset{}, BOTH)

  const ENDED := Relay(1, map[], [PAIR.(done := true, pipes := 1)],
    [Handler(NAME, Some(0), First, Returned, FIRST_OUT, []),
      Handler(NAME, Some(0), Second, Deleting, [PairedReceiver], [])],
    multiset{}, multiset{}, BOTH)

  const LOST := Relay(1, map[],
    [PAIR.(done := true, pipes := 1), Room(NAME, Some(2), None, false, false, false, [2], [], 0)],
    [Handler(NAME, Some(0), First, Returned, FIRST_OUT, []),
      Handler(NAME, Some(0), Second, Returned, [PairedReceiver], []),
     Handler(NAME, Some(1), First, AwaitReady, [Waiting], [])],
    multiset{}, multiset{}, BOTH)

  lemma Same(s: Relay, t: Relay)
    requires s.maxRooms == t.maxRooms && s.table == t.table && s.toExpire == t.toExpire && s.toDone == t.toDone
    requires s.closed == t.closed
    requires |s.rooms| == |t.rooms| && forall r :: 0 <= r < |s.rooms| ==> s.rooms[r] == t.rooms[r]
    requires |s.handlers| == |t.handlers| && forall h :: 0 <= h < |s.handlers| ==> s.handlers[h] == t.handlers[h]
    ensures s == t
  {
    assert s.rooms == t.rooms && s.handlers == t.handlers;
  }

  /** The first pair meets in room 0. */
  lemma Meet() returns (steps: seq<Step>, states: seq<Relay>)
    ensures Ends(steps, states, MET)
  {
    var s: Relay;
    steps, states, s := [], [Init(1)], Init(1);
    steps, states, s := Take(steps, states, s, Connect(NAME));
    steps, states, s := Take(steps, states, s, Register(0));
    steps, states, s := Take(steps, states, s, TakeSlot(0));
    steps, states, s := Take(steps, states, s, Greet(0));
    steps, states, s := Take(steps, states, s, Connect(NAME));
    steps, states, s := Take(steps, states, s, Register(1));
    steps, states, s := Take(steps, states, s, TakeSlot(1));
    Same(s, MET);
  }

  /** The pipe starts, and both its directions end. */
  lemma RunPipe(steps0: seq<Step>, states0: seq<Relay>) returns (steps: seq<Step>, states: seq<Relay>)
    requires Ends(steps0, states0, MET)
    ensures Ends(steps, states, PIPE_OVER)
  {
    hide Ends;
    var s: Relay;
    steps, states, s := steps0, states0, MET;
    steps, states, s := Take(steps, states, s, Wake(0));
    steps, states, s := Take(steps, states, s, ReadSlots(0));
    steps, states, s := Take(steps, states, s, FwdEnd(0, true, 0));
    steps, states, s := Take(steps, states, s, FwdEnd(0, false, 0));
    Same(s, PIPE_OVER);
  }

  /** The first client deletes the name and lets the second one go. */
  lemma EndTransfer(steps0: seq<Step>, states0: seq<Relay>) returns (steps: seq<Step>, states: seq<Relay>)
    requires Ends(steps0, states0, PIPE_OVER)
    ensures Ends(steps, states, ENDED)
  {
    hide Ends;
    var s: Relay;
    steps, states, s := steps0, states0, PIPE_OVER;
    steps, states, s := Take(steps, states, s, PipeEnd(0));
    steps, states, s := Take(steps, states, s, Delete(0));
    steps, states, s := Take(steps, states, s, CloseDone(0));
    steps, states, s := Take(steps, states, s, Leave(1, false));
    Same(s, ENDED);
  }

  /** A third client finds no room, makes room 1 and waits; the second client deletes the name again. */
  lemma Lose(steps0: seq<Step>, states0: seq<Relay>) returns (steps: seq<Step>, states: seq<Relay>)
    requires Ends(steps0, states0, ENDED)
    ensures Ends(steps, states, LOST)
  {
    hide Ends;
    var s: Relay;
    steps, states, s := steps0, states0, ENDED;
    steps, states, s := Take(steps, states, s, Connect(NAME));
    steps, states, s := Take(steps, states, s, Register(2));
    steps, states, s := Take(steps, states, s, TakeSlot(2));
    steps, states, s := Take(steps, states, s, Greet(2));
    steps, states, s := Take(steps, states, s, Delete(1));
    Same(s, LOST);
  }

  /** A waiting client can be lost, with no timeout and no cleanup: three clients of one name are enough. */
  lemma WaitingCanBeLost() returns (steps: seq<Step>, states: seq<Relay>)
    ensures IsRun(1, steps, states)
    ensures var s := states[|steps|];
      AwaitsSecond(s, 2) && s.handlers[2].name !in s.table && !Reachable(s, s.handlers[2].room.value)
  {
    steps, states := Meet();
    steps, states := RunPipe(steps, states);
    steps, states := EndTransfer(steps, states);
    steps, states := Lose(steps, states);
  }
}
