/** What the room invariant gives in every reachable state: the table, the slots and who blocks on ready. */
module RoomSafety {
  import opened Bytes
  import opened Rooms
  import opened RoomInvariant

  /** Connection c is in a slot of room r. */
  predicate InSlot(s: Relay, c: Conn, r: RoomId) {
    r < |s.rooms| && (s.rooms[r].first == Some(c) || s.rooms[r].second == Some(c))
  }

  /** Handler h blocks on <-ready. */
  predicate Blocked(s: Relay, h: Conn) {
    && h < |s.handlers| && s.handlers[h].pc == AwaitReady && IsHandler(s, h)
    && s.handlers[h].room.Some? && !RoomOf(s, h).ready
  }

  ghost predicate Bounded(s: Relay) {
    |s.table| <= s.maxRooms
  }

  ghost predicate SecondAfterFirst(s: Relay) {
    forall r :: 0 <= r < |s.rooms| && s.rooms[r].second.Some? ==> s.rooms[r].first.Some? && s.rooms[r].ready
  }

  ghost predicate OneSlot(s: Relay) {
    && (forall c, r, q :: InSlot(s, c, r) && InSlot(s, c, q) ==> r == q)
    && (forall r :: 0 <= r < |s.rooms| && s.rooms[r].first.Some? ==> s.rooms[r].first != s.rooms[r].second)
  }

  /** Whoever blocks owns `first`, so one room has at most one such handler. */
  ghost predicate BlockedOwnsFirst(s: Relay) {
    forall h :: 0 <= h < |s.handlers| && Blocked(s, h) ==> RoomOf(s, h).first == Some(h) && RoomOf(s, h).second.None?
  }

  /** In every reachable state, expiry included. */
  lemma MachineSafe(maxRooms: nat, steps: seq<Step>, states: seq<Relay>, n: nat)
    requires IsRun(maxRooms, steps, states) && n <= |steps|
    ensures Bounded(states[n]) && SecondAfterFirst(states[n]) && OneSlot(states[n]) && BlockedOwnsFirst(states[n])
    ensures states[n].maxRooms == maxRooms
  {
    RunInv(maxRooms, steps, states, n);
    KeepsMax(maxRooms, steps, states, n);
    InvSafe(states[n]);
  }

  lemma {:induction false} KeepsMax(maxRooms: nat, steps: seq<Step>, states: seq<Relay>, n: nat)
    requires IsRun(maxRooms, steps, states) && n <= |steps|
    ensures states[n].maxRooms == maxRooms
  {
    hide *;
    RunShape(maxRooms, steps, states);
    if n > 0 {
      KeepsMax(maxRooms, steps, states, n - 1);
      RunStep(maxRooms, steps, states, n);
      StepMax(states[n - 1], steps[n - 1]);
    } else {
      InitMax(maxRooms);
    }
  }

  lemma StepMax(s: Relay, e: Step)
    requires Enabled(s, e)
    ensures Apply(s, e).maxRooms == s.maxRooms
  {
  }

  lemma InitMax(maxRooms: nat)
    ensures Init(maxRooms).maxRooms == maxRooms
  {
  }

  lemma InvSafe(s: Relay)
    requires Inv(s)
    ensures Bounded(s) && SecondAfterFirst(s) && OneSlot(s) && BlockedOwnsFirst(s)
  {
    forall c, r, q | InSlot(s, c, r) && InSlot(s, c, q) ensures r == q {
      assert RoomOk(s, r) && RoomOk(s, q);
    }
    forall r | 0 <= r < |s.rooms| ensures s.rooms[r].first.Some? ==> s.rooms[r].first != s.rooms[r].second {
      assert RoomOk(s, r);
    }
    forall r | 0 <= r < |s.rooms| && s.rooms[r].second.Some? ensures s.rooms[r].first.Some? && s.rooms[r].ready {
      assert RoomOk(s, r);
    }
    forall h | 0 <= h < |s.handlers| && Blocked(s, h)
      ensures RoomOf(s, h).first == Some(h) && RoomOf(s, h).second.None?
    {
      assert HandlerOk(s, h) && RoomOk(s, s.handlers[h].room.value);
    }
  }
}
