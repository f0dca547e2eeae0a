/** What holds of the relay's rooms in every reachable state. */
module RoomInvariant {
  import opened Bytes
  import opened Rooms

  /** A handler agrees with its room. */
  ghost predicate HandlerOk(s: Relay, h: Conn)
    requires h < |s.handlers|
  {
    var x := s.handlers[h];
    && (x.room.Some? ==> x.room.value < |s.rooms| && s.rooms[x.room.value].name == x.name)
    && (x.pc == Joining ==> x.room.None?)
    && (x.pc == Holding ==> x.room.Some? && x.role == NoRole)
    && (x.pc in {Greeting, AwaitReady, Woken, ClosingDone} || x.pc.Piping? ==> x.role == First)
    && (x.pc == AwaitDone ==> x.role == Second)
    && (x.pc == Deleting ==> x.role != NoRole)
    && (x.role != NoRole ==> x.room.Some?)
    && (x.room.None? ==> x.pc == Joining || x.pc == Returned)
    && (x.role == First ==> FirstOk(s.rooms[x.room.value], x.pc, h))
    && (x.role == Second ==> SecondOk(s.rooms[x.room.value], x.pc, h))
    && (x.pc.Piping? ==> PipeOk(s, x.pc, x.room.value))
  }

  /**
   * A first client past <-ready has seen it closed, one that returned has closed done, and one that still waits
   * owns its slot.
   */
  ghost predicate FirstOk(r: Room, pc: Pc, h: Conn) {
    && h in r.firsts
    && (pc != Greeting && pc != AwaitReady ==> r.ready)
    && (pc == Returned ==> r.done)
    && (!r.ready ==> r.first == Some(h))
    && pc != Joining && pc != Holding && pc != AwaitDone
  }

  ghost predicate SecondOk(r: Room, pc: Pc, h: Conn) {
    h in r.seconds && r.ready && r.firsts != [] && (pc == AwaitDone || pc == Deleting || pc == Returned)
  }

  /** The two ends of a pipe have the two roles of the pipe's room. */
  ghost predicate PipeOk(s: Relay, pc: Pc, r: RoomId)
    requires pc.Piping?
  {
    && pc.a < |s.handlers| && s.handlers[pc.a].room == Some(r) && s.handlers[pc.a].role == First
    && pc.b < |s.handlers| && s.handlers[pc.b].room == Some(r) && s.handlers[pc.b].role == Second
  }

  ghost predicate InRoom(s: Relay, c: Conn, r: RoomId, role: Role) {
    c < |s.handlers| && s.handlers[c].room == Some(r) && s.handlers[c].role == role
  }

  ghost predicate RoomOk(s: Relay, r: RoomId)
    requires r < |s.rooms|
  {
    var x := s.rooms[r];
    && (x.first.Some? ==> InRoom(s, x.first.value, r, First))
    && (x.second.Some? ==> InRoom(s, x.second.value, r, Second))
    && (x.first.Some? ==> x.first.value in x.firsts) && (x.second.Some? ==> x.second.value in x.seconds)
    && (x.second.Some? ==> x.first.Some? && x.ready)
    && (forall c :: c in x.firsts ==> InRoom(s, c, r, First))
    && (forall c :: c in x.seconds ==> InRoom(s, c, r, Second))
    && (x.expired ==> x.ready)
    && (!x.expired ==>
      && |x.firsts| <= 1 && |x.seconds| <= 1
      && x.first == (if x.firsts == [] then None else Some(x.firsts[0]))
      && x.second == (if x.seconds == [] then None else Some(x.seconds[0]))
      && x.ready == x.second.Some?)
  }

  ghost predicate TableOk(s: Relay) {
    && |s.table| <= s.maxRooms
    && (forall n :: n in s.table ==> s.table[n] < |s.rooms| && s.rooms[s.table[n]].name == n)
    && (forall r :: r in s.toExpire ==> r < |s.rooms|)
    && (forall r :: r in s.toDone ==> r < |s.rooms|)
  }

  ghost predicate Inv(s: Relay) {
    && TableOk(s)
    && (forall h :: 0 <= h < |s.handlers| ==> HandlerOk(s, h))
    && (forall r :: 0 <= r < |s.rooms| ==> RoomOk(s, r))
  }

  // ----- framing: what a change of one handler or one room leaves alone

  /** Handler h changed its place or messages, but neither its room nor its role. */
  ghost predicate SameSeat(s: Relay, t: Relay) {
    && |s.handlers| <= |t.handlers|
    && forall g :: 0 <= g < |s.handlers| ==>
      && t.handlers[g].name == s.handlers[g].name
      && (s.handlers[g].room.Some? ==> t.handlers[g].room == s.handlers[g].room)
      && (s.handlers[g].role != NoRole ==> t.handlers[g].role == s.handlers[g].role)
  }

  /** A room only ever gains clients, and its channels stay closed. */
  ghost predicate RoomGrows(r: Room, q: Room) {
    && q.name == r.name
    && (forall c :: c in r.firsts ==> c in q.firsts) && (forall c :: c in r.seconds ==> c in q.seconds)
    && (r.ready ==> q.ready) && (r.done ==> q.done)
    && (!q.ready && r.first.Some? ==> q.first == r.first)
    && (r.firsts != [] ==> q.firsts != [])
  }

  lemma PipeOkKept(s: Relay, t: Relay, pc: Pc, r: RoomId)
    requires pc.Piping? && PipeOk(s, pc, r) && SameSeat(s, t)
    ensures PipeOk(t, pc, r)
  {
  }

  /** A handler that did not change stays right while its room grows. */
  lemma HandlerKept(s: Relay, t: Relay, h: Conn)
    requires h < |s.handlers| && HandlerOk(s, h) && SameSeat(s, t) && t.handlers[h].pc == s.handlers[h].pc
    requires t.handlers[h].room == s.handlers[h].room && t.handlers[h].role == s.handlers[h].role
    requires |s.rooms| <= |t.rooms|
    requires s.handlers[h].room.Some? ==>
      RoomGrows(s.rooms[s.handlers[h].room.value], t.rooms[s.handlers[h].room.value])
    ensures HandlerOk(t, h)
  {
    hide PipeOk;
    if s.handlers[h].pc.Piping? {
      PipeOkKept(s, t, s.handlers[h].pc, s.handlers[h].room.value);
    }
  }

  /** While rooms are only added, so does every other handler. */
  lemma HandlerStays(s: Relay, t: Relay, h: Conn)
    requires h < |s.handlers| && HandlerOk(s, h) && SameSeat(s, t) && t.handlers[h].pc == s.handlers[h].pc
    requires t.handlers[h].room == s.handlers[h].room && t.handlers[h].role == s.handlers[h].role
    requires s.rooms <= t.rooms
    ensures HandlerOk(t, h)
  {
    HandlerKept(s, t, h);
  }

  lemma RoomKept(s: Relay, t: Relay, r: RoomId)
    requires r < |s.rooms| <= |t.rooms| && RoomOk(s, r) && SameSeat(s, t)
    requires t.rooms[r] == s.rooms[r].(done := t.rooms[r].done, pipes := t.rooms[r].pipes)
    ensures RoomOk(t, r)
  {
  }

  /** Everything but handler h and room r is unchanged, and that one keeps its seat. */
  ghost predicate Local(s: Relay, t: Relay, h: Conn, r: RoomId) {
    && |t.handlers| == |s.handlers| && |t.rooms| == |s.rooms| && SameSeat(s, t)
    && (forall g :: 0 <= g < |s.handlers| && g != h ==>
      && t.handlers[g].pc == s.handlers[g].pc && t.handlers[g].room == s.handlers[g].room
      && t.handlers[g].role == s.handlers[g].role)
    && (forall q :: 0 <= q < |s.rooms| && q != r ==> t.rooms[q] == s.rooms[q])
    && (r < |s.rooms| ==> RoomGrows(s.rooms[r], t.rooms[r]))
  }

  /** The table and the tasks of cleanup are unchanged. */
  ghost predicate Calm(s: Relay, t: Relay) {
    && t.maxRooms == s.maxRooms && t.table == s.table && t.toExpire == s.toExpire && t.toDone == s.toDone
    && |t.rooms| == |s.rooms| && forall r :: 0 <= r < |s.rooms| ==> t.rooms[r].name == s.rooms[r].name
  }

  lemma LocalKeeps(s: Relay, t: Relay, h: Conn, r: RoomId)
    requires Inv(s) && Local(s, t, h, r)
    requires TableOk(t)
    requires h < |s.handlers| ==> h < |t.handlers| && HandlerOk(t, h)
    requires r < |s.rooms| ==> r < |t.rooms| && RoomOk(t, r)
    ensures Inv(t)
  {
    forall g | 0 <= g < |t.handlers| ensures HandlerOk(t, g) {
      if g != h {
        HandlerKept(s, t, g);
      }
    }
    forall q | 0 <= q < |t.rooms| ensures RoomOk(t, q) {
      if q != r {
        RoomKept(s, t, q);
      }
    }
  }

  lemma CalmTable(s: Relay, t: Relay)
    requires Inv(s) && Calm(s, t)
    ensures TableOk(t)
  {
    hide HandlerOk, RoomOk;
  }

  lemma CalmKeeps(s: Relay, t: Relay, h: Conn, r: RoomId)
    requires Inv(s) && Local(s, t, h, r) && Calm(s, t)
    requires h < |s.handlers| ==> h < |t.handlers| && HandlerOk(t, h)
    requires r < |s.rooms| ==> r < |t.rooms| && RoomOk(t, r)
    ensures Inv(t)
  {
    hide *;
    CalmTable(s, t);
    LocalKeeps(s, t, h, r);
  }

  lemma HandlerAt(s: Relay, h: Conn)
    requires Inv(s) && h < |s.handlers|
    ensures HandlerOk(s, h)
  {
    hide HandlerOk, RoomOk, TableOk;
  }

  lemma RoomAt(s: Relay, r: RoomId)
    requires Inv(s) && r < |s.rooms|
    ensures RoomOk(s, r)
  {
    hide HandlerOk, RoomOk, TableOk;
  }

  /** A handler that moved or got a message is a local change. */
  lemma MoveLocal(s: Relay, t: Relay, h: Conn)
    requires h < |s.handlers| == |t.handlers| && t.rooms == s.rooms && t.handlers == s.handlers[h := t.handlers[h]]
    requires t.handlers[h] == s.handlers[h].(pc := t.handlers[h].pc, out := t.handlers[h].out)
    ensures Local(s, t, h, |s.rooms|)
  {
  }

  // ----- the steps keep the invariant

  lemma ConnectKeeps(s: Relay, name: string)
    requires Inv(s)
    ensures Inv(Apply(s, Connect(name)))
  {
    var t := Apply(s, Connect(name));
    forall g | 0 <= g < |t.handlers| ensures HandlerOk(t, g) {
      if g < |s.handlers| {
        HandlerStays(s, t, g);
      }
    }
    forall q | 0 <= q < |t.rooms| ensures RoomOk(t, q) {
      RoomKept(s, t, q);
    }
  }

  lemma RegisterKeeps(s: Relay, h: Conn)
    requires Inv(s) && Enabled(s, Register(h))
    ensures Inv(Apply(s, Register(h)))
  {
    hide Inv, HandlerOk, RoomOk, TableOk, Local, Calm, DoRegister;
    if s.handlers[h].name in s.table || |s.table| >= s.maxRooms {
      HandlerAt(s, h);
      OldRoomDoes(s, h);
      OldRoomHandler(s, h);
      CalmKeeps(s, Apply(s, Register(h)), h, |s.rooms|);
    } else {
      NewRoomKeeps(s, h);
    }
  }

  lemma OldRoomDoes(s: Relay, h: Conn)
    requires Enabled(s, Register(h)) && HandlerOk(s, h)
    requires s.handlers[h].name in s.table || |s.table| >= s.maxRooms
    ensures Local(s, Apply(s, Register(h)), h, |s.rooms|) && Calm(s, Apply(s, Register(h)))
  {
    hide FirstOk, SecondOk, PipeOk;
  }

  lemma OldRoomHandler(s: Relay, h: Conn)
    requires Inv(s) && Enabled(s, Register(h))
    requires s.handlers[h].name in s.table || |s.table| >= s.maxRooms
    ensures h < |Apply(s, Register(h)).handlers| && HandlerOk(Apply(s, Register(h)), h)
  {
    hide RoomOk, PipeOk, FirstOk, SecondOk;
    assert HandlerOk(s, h);
  }

  lemma NewRoomKeeps(s: Relay, h: Conn)
    requires Inv(s) && Enabled(s, Register(h)) && s.handlers[h].name !in s.table && |s.table| < s.maxRooms
    ensures Inv(Apply(s, Register(h)))
  {
    hide HandlerOk, RoomOk, TableOk, DoRegister;
    var t := Apply(s, Register(h));
    HandlerAt(s, h);
    NewRoomDoes(s, h);
    forall g | 0 <= g < |t.handlers| ensures HandlerOk(t, g) {
      if g == h {
        NewRoomHandler(s, h);
      } else {
        HandlerStays(s, t, g);
      }
    }
    forall q | 0 <= q < |t.rooms| ensures RoomOk(t, q) {
      if q < |s.rooms| {
        RoomKept(s, t, q);
      } else {
        NewRoomRoom(t, q);
      }
    }
    NewRoomTable(s, h);
  }

  lemma NewRoomDoes(s: Relay, h: Conn)
    requires Enabled(s, Register(h)) && s.handlers[h].name !in s.table && |s.table| < s.maxRooms && HandlerOk(s, h)
    ensures var t := Apply(s, Register(h)); var x := s.handlers[h];
      && SameSeat(s, t) && |t.handlers| == |s.handlers| && t.rooms == s.rooms + [NewRoom(x.name)]
      && t.handlers == s.handlers[h := x.(room := Some(|s.rooms|), pc := Holding)]
  {
  }

  lemma NewRoomHandler(s: Relay, h: Conn)
    requires Enabled(s, Register(h)) && s.handlers[h].name !in s.table && |s.table| < s.maxRooms && HandlerOk(s, h)
    ensures h < |Apply(s, Register(h)).handlers| && HandlerOk(Apply(s, Register(h)), h)
  {
    hide FirstOk, SecondOk, PipeOk;
  }

  lemma NewRoomRoom(t: Relay, q: RoomId)
    requires q < |t.rooms| && t.rooms[q] == NewRoom(t.rooms[q].name)
    ensures RoomOk(t, q)
  {
  }

  lemma NewRoomTable(s: Relay, h: Conn)
    requires Enabled(s, Register(h)) && s.handlers[h].name !in s.table && |s.table| < s.maxRooms && TableOk(s)
    ensures TableOk(Apply(s, Register(h)))
  {
    assert Apply(s, Register(h)).table.Keys == s.table.Keys + {s.handlers[h].name};
  }

  lemma TakeSlotKeeps(s: Relay, h: Conn)
    requires Inv(s) && Enabled(s, TakeSlot(h))
    ensures Inv(Apply(s, TakeSlot(h)))
  {
    hide Inv, HandlerOk, RoomOk, Local, Calm, DoTakeSlot;
    var q := s.handlers[h].room.value;
    HandlerAt(s, h);
    RoomAt(s, q);
    TakeSlotDoes(s, h, q);
    if s.rooms[q].first.None? {
      TakeFirstRoom(s, h, q);
    } else {
      TakeSecondRoom(s, h, q);
      TakeSecondHandler(s, h, q);
    }
    CalmKeeps(s, Apply(s, TakeSlot(h)), h, q);
  }

  lemma TakeSlotDoes(s: Relay, h: Conn, q: RoomId)
    requires Enabled(s, TakeSlot(h)) && HandlerOk(s, h) && s.handlers[h].room == Some(q) && RoomOk(s, q)
    ensures Local(s, Apply(s, TakeSlot(h)), h, q) && Calm(s, Apply(s, TakeSlot(h)))
  {
    hide FirstOk, SecondOk, PipeOk, InRoom;
  }

  lemma TakeFirstRoom(s: Relay, h: Conn, q: RoomId)
    requires Enabled(s, TakeSlot(h)) && HandlerOk(s, h) && s.handlers[h].room == Some(q) && RoomOk(s, q)
    requires s.rooms[q].first.None?
    ensures var t := Apply(s, TakeSlot(h));
      h < |t.handlers| && q < |t.rooms| && HandlerOk(t, h) && RoomOk(t, q)
  {
    hide PipeOk, SecondOk;
  }

  lemma TakeSecondRoom(s: Relay, h: Conn, q: RoomId)
    requires Enabled(s, TakeSlot(h)) && HandlerOk(s, h) && s.handlers[h].room == Some(q) && RoomOk(s, q)
    requires s.rooms[q].first.Some?
    ensures q < |Apply(s, TakeSlot(h)).rooms| && RoomOk(Apply(s, TakeSlot(h)), q)
  {
    hide PipeOk, FirstOk, SecondOk;
  }

  lemma TakeSecondHandler(s: Relay, h: Conn, q: RoomId)
    requires Enabled(s, TakeSlot(h)) && HandlerOk(s, h) && s.handlers[h].room == Some(q) && RoomOk(s, q)
    requires s.rooms[q].first.Some?
    ensures h < |Apply(s, TakeSlot(h)).handlers| && HandlerOk(Apply(s, TakeSlot(h)), h)
  {
    hide PipeOk, FirstOk;
  }

  /** The steps that only move their own handler. */
  predicate Moves(e: Step, h: Conn) {
    e == Greet(h) || e == Wake(h) || (e.Leave? && e.h == h) || e == PipeEnd(h) || (e.FwdEnd? && e.h == h)
  }

  lemma MoveKeeps(s: Relay, e: Step, h: Conn)
    requires Inv(s) && Enabled(s, e) && Moves(e, h)
    ensures Inv(Apply(s, e))
  {
    hide Inv, HandlerOk, RoomOk, Local, Calm, Apply;
    HandlerAt(s, h);
    MoveDoes(s, e, h);
    MoveHandler(s, e, h);
    CalmKeeps(s, Apply(s, e), h, |s.rooms|);
  }

  lemma MoveDoes(s: Relay, e: Step, h: Conn)
    requires Enabled(s, e) && Moves(e, h)
    ensures Local(s, Apply(s, e), h, |s.rooms|) && Calm(s, Apply(s, e))
  {
    hide Local;
    MoveLocal(s, Apply(s, e), h);
  }

  lemma MoveHandler(s: Relay, e: Step, h: Conn)
    requires Enabled(s, e) && Moves(e, h) && h < |s.handlers| && HandlerOk(s, h)
    ensures h < |Apply(s, e).handlers| && HandlerOk(Apply(s, e), h)
  {
  }

  lemma DeleteKeeps(s: Relay, h: Conn)
    requires Inv(s) && Enabled(s, Delete(h))
    ensures Inv(Apply(s, Delete(h)))
  {
    var t := Apply(s, Delete(h));
    TableShrinks(s, t);
    DeleteMoves(s, h);
    MoveLocal(s, t, h);
    hide TableOk, HandlerOk, RoomOk, Local, Inv;
    LocalKeeps(s, t, h, |s.rooms|);
  }

  lemma DeleteMoves(s: Relay, h: Conn)
    requires Inv(s) && Enabled(s, Delete(h))
    ensures HandlerOk(Apply(s, Delete(h)), h)
  {
    hide TableOk, RoomOk, PipeOk;
    assert HandlerOk(s, h);
  }

  /** A table that lost entries. */
  lemma TableShrinks(s: Relay, t: Relay)
    requires TableOk(s) && t == s.(table := t.table, handlers := t.handlers)
    requires t.table.Keys <= s.table.Keys && forall n :: n in t.table ==> t.table[n] == s.table[n]
    ensures TableOk(t)
  {
    Smaller(s.table, t.table);
  }

  /** A table that lost entries is no bigger. */
  lemma Smaller(t: map<string, RoomId>, u: map<string, RoomId>)
    requires u.Keys <= t.Keys
    ensures |u| <= |t|
  {
    SubsetSize(u.Keys, t.Keys);
    assert |u.Keys| == |u| && |t.Keys| == |t|;
  }

  lemma {:induction false} SubsetSize(a: set<string>, b: set<string>)
    requires a <= b
    ensures |a| <= |b|
  {
    if x :| x in a {
      SubsetSize(a - {x}, b - {x});
    }
  }

  lemma ForwardKeeps(s: Relay, e: Step, h: Conn)
    requires Inv(s) && Enabled(s, e) && (e.FwdRead? || e.FwdWrite?) && e.h == h
    ensures Inv(Apply(s, e))
  {
    hide Inv, HandlerOk, RoomOk, Local, Calm, Apply;
    HandlerAt(s, h);
    ForwardDoes(s, e, h);
    ForwardHandler(s, e, h);
    CalmKeeps(s, Apply(s, e), h, |s.rooms|);
  }

  lemma ForwardDoes(s: Relay, e: Step, h: Conn)
    requires Enabled(s, e) && (e.FwdRead? || e.FwdWrite?) && e.h == h
    ensures Local(s, Apply(s, e), h, |s.rooms|) && Calm(s, Apply(s, e))
  {
  }

  lemma ForwardHandler(s: Relay, e: Step, h: Conn)
    requires Enabled(s, e) && (e.FwdRead? || e.FwdWrite?) && e.h == h && h < |s.handlers| && HandlerOk(s, h)
    ensures h < |Apply(s, e).handlers| && HandlerOk(Apply(s, e), h)
  {
    hide SecondOk;
  }

  lemma ReadSlotsKeeps(s: Relay, h: Conn)
    requires Inv(s) && Enabled(s, ReadSlots(h))
    ensures Inv(Apply(s, ReadSlots(h)))
  {
    hide Inv, HandlerOk, RoomOk, Local, Calm, DoReadSlots;
    var q := s.handlers[h].room.value;
    HandlerAt(s, h);
    RoomAt(s, q);
    ReadSlotsDoes(s, h, q);
    ReadSlotsRoom(s, h, q);
    ReadSlotsHandler(s, h, q);
    CalmKeeps(s, Apply(s, ReadSlots(h)), h, q);
  }

  lemma ReadSlotsDoes(s: Relay, h: Conn, q: RoomId)
    requires Enabled(s, ReadSlots(h)) && s.handlers[h].room == Some(q)
    ensures Local(s, Apply(s, ReadSlots(h)), h, q) && Calm(s, Apply(s, ReadSlots(h)))
  {
  }

  lemma ReadSlotsRoom(s: Relay, h: Conn, q: RoomId)
    requires Enabled(s, ReadSlots(h)) && s.handlers[h].room == Some(q) && RoomOk(s, q)
    ensures q < |Apply(s, ReadSlots(h)).rooms| && RoomOk(Apply(s, ReadSlots(h)), q)
  {
  }

  lemma ReadSlotsHandler(s: Relay, h: Conn, q: RoomId)
    requires Enabled(s, ReadSlots(h)) && HandlerOk(s, h) && s.handlers[h].room == Some(q) && RoomOk(s, q)
    ensures h < |Apply(s, ReadSlots(h)).handlers| && HandlerOk(Apply(s, ReadSlots(h)), h)
  {
    hide SecondOk;
  }

  lemma CloseDoneKeeps(s: Relay, h: Conn)
    requires Inv(s) && Enabled(s, CloseDone(h))
    ensures Inv(Apply(s, CloseDone(h)))
  {
    hide Inv, HandlerOk, RoomOk, Local, Calm, Apply;
    var q := s.handlers[h].room.value;
    HandlerAt(s, h);
    RoomAt(s, q);
    CloseDoneDoes(s, h, q);
    CloseDoneHandler(s, h);
    CalmKeeps(s, Apply(s, CloseDone(h)), h, q);
  }

  lemma CloseDoneDoes(s: Relay, h: Conn, q: RoomId)
    requires Enabled(s, CloseDone(h)) && s.handlers[h].room == Some(q) && RoomOk(s, q)
    ensures Local(s, Apply(s, CloseDone(h)), h, q) && Calm(s, Apply(s, CloseDone(h)))
    ensures q < |Apply(s, CloseDone(h)).rooms| && RoomOk(Apply(s, CloseDone(h)), q)
  {
  }

  lemma CloseDoneHandler(s: Relay, h: Conn)
    requires Enabled(s, CloseDone(h)) && HandlerOk(s, h)
    ensures h < |Apply(s, CloseDone(h)).handlers| && HandlerOk(Apply(s, CloseDone(h)), h)
  {
    hide SecondOk, PipeOk;
  }

  lemma SweepKeeps(s: Relay, stale: set<string>)
    requires Inv(s) && Enabled(s, Sweep(stale))
    ensures Inv(Apply(s, Sweep(stale)))
  {
    hide HandlerOk, RoomOk;
    var t := Apply(s, Sweep(stale));
    SweepTable(s, stale);
    hide Inv, TableOk;
    LocalKeeps(s, t, |s.handlers|, |s.rooms|);
  }

  lemma SweepTable(s: Relay, stale: set<string>)
    requires TableOk(s) && Enabled(s, Sweep(stale))
    ensures TableOk(Apply(s, Sweep(stale)))
  {
    Smaller(s.table, Apply(s, Sweep(stale)).table);
  }

  lemma WatchFireKeeps(s: Relay, h: Conn)
    requires Inv(s) && Enabled(s, WatchFire(h))
    ensures Inv(Apply(s, WatchFire(h)))
  {
    hide HandlerOk, RoomOk;
    LocalKeeps(s, Apply(s, WatchFire(h)), |s.handlers|, |s.rooms|);
  }

  lemma ExpireTaskKeeps(s: Relay, r: RoomId, left1: nat, left2: nat)
    requires Inv(s) && Enabled(s, ExpireTask(r, left1, left2))
    ensures Inv(Apply(s, ExpireTask(r, left1, left2)))
  {
    hide HandlerOk;
    assert RoomOk(s, r);
    LocalKeeps(s, Apply(s, ExpireTask(r, left1, left2)), |s.handlers|, r);
  }

  lemma DoneTaskKeeps(s: Relay, r: RoomId)
    requires Inv(s) && Enabled(s, DoneTask(r))
    ensures Inv(Apply(s, DoneTask(r)))
  {
    hide HandlerOk;
    assert RoomOk(s, r);
    LocalKeeps(s, Apply(s, DoneTask(r)), |s.handlers|, r);
  }

  lemma StepKeeps(s: Relay, e: Step)
    requires Inv(s) && Enabled(s, e)
    ensures Inv(Apply(s, e))
  {
    hide Inv, Apply, Enabled;
    match e
    case Connect(name) => ConnectKeeps(s, name);
    case Register(h) => RegisterKeeps(s, h);
    case TakeSlot(h) => TakeSlotKeeps(s, h);
    case Greet(h) => MoveKeeps(s, e, h);
    case Wake(h) => MoveKeeps(s, e, h);
    case ReadSlots(h) => ReadSlotsKeeps(s, h);
    case FwdRead(h, _, _) => ForwardKeeps(s, e, h);
    case FwdWrite(h, _) => ForwardKeeps(s, e, h);
    case FwdEnd(h, _, _) => MoveKeeps(s, e, h);
    case PipeEnd(h) => MoveKeeps(s, e, h);
    case Delete(h) => DeleteKeeps(s, h);
    case CloseDone(h) => CloseDoneKeeps(s, h);
    case Leave(h, _) => MoveKeeps(s, e, h);
    case Sweep(stale) => SweepKeeps(s, stale);
    case WatchFire(h) => WatchFireKeeps(s, h);
    case ExpireTask(r, left1, left2) => ExpireTaskKeeps(s, r, left1, left2);
    case DoneTask(r) => DoneTaskKeeps(s, r);
  }

  lemma RunShape(maxRooms: nat, steps: seq<Step>, states: seq<Relay>)
    requires IsRun(maxRooms, steps, states)
    ensures |states| == |steps| + 1 && states[0] == Init(maxRooms)
  {
    hide Init, Apply, Enabled;
  }

  lemma RunStep(maxRooms: nat, steps: seq<Step>, states: seq<Relay>, n: nat)
    requires IsRun(maxRooms, steps, states) && 0 < n <= |steps|
    ensures |states| == |steps| + 1 && Enabled(states[n - 1], steps[n - 1])
    ensures states[n] == Apply(states[n - 1], steps[n - 1])
  {
    hide Init, Apply, Enabled;
    assert states[n - 1 + 1] == Apply(states[n - 1], steps[n - 1]);
  }

  lemma {:induction false} RunInv(maxRooms: nat, steps: seq<Step>, states: seq<Relay>, n: nat)
    requires IsRun(maxRooms, steps, states) && n <= |steps|
    ensures Inv(states[n])
  {
    hide *;
    RunShape(maxRooms, steps, states);
    if n > 0 {
      RunInv(maxRooms, steps, states, n - 1);
      RunStep(maxRooms, steps, states, n);
      StepKeeps(states[n - 1], steps[n - 1]);
    } else {
      InitInv(maxRooms);
    }
  }

  lemma InitInv(maxRooms: nat)
    ensures Inv(Init(maxRooms))
  {
  }
}
