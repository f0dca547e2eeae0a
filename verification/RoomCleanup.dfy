/** What becomes of a room that cleanup takes out of the table, whatever the handlers do meanwhile. */
module RoomCleanup {
  import opened Bytes
  import opened Rooms
  import opened RoomInvariant
  import opened RoomSockets

  predicate Closed(s: Relay, r: RoomId) {
    r < |s.rooms| && s.rooms[r].expired && s.rooms[r].ready
  }

  predicate IsDone(s: Relay, r: RoomId) {
    r < |s.rooms| && s.rooms[r].done
  }

  /** The room waits to be expired, or was, and waits for its done to be closed, or has it closed. */
  predicate Ending(s: Relay, r: RoomId) {
    r < |s.rooms| && (r in s.toExpire || (Closed(s, r) && (r in s.toDone || IsDone(s, r))))
  }

  /** The next thing cleanup does to it. */
  function NextTask(s: Relay, r: RoomId): Step {
    if r in s.toExpire then ExpireTask(r, 0, 0) else DoneTask(r)
  }

  /** A room keeps what it has closed. */
  ghost predicate Keeps(s: Relay, t: Relay, r: RoomId) {
    r < |t.rooms| && (Closed(s, r) ==> Closed(t, r)) && (IsDone(s, r) ==> IsDone(t, r))
  }

  lemma RoomsPersist(s: Relay, e: Step, r: RoomId)
    requires Enabled(s, e) && r < |s.rooms|
    ensures Keeps(s, Apply(s, e), r)
  {
    hide Apply, Keeps;
    if e.TakeSlot? {
      TakeSlotPersists(s, e.h, r);
    } else if e.Register? {
      RegisterPersists(s, e.h, r);
    } else if e.FwdRead? || e.FwdWrite? {
      ForwardPersists(s, e);
      SameKeeps(s, Apply(s, e), r);
    } else if Actor(e).Some? {
      MovePersists(s, e, r);
    } else {
      CleanupPersists(s, e, r);
    }
  }

  lemma SameKeeps(s: Relay, t: Relay, r: RoomId)
    requires r < |s.rooms| && t.rooms == s.rooms
    ensures Keeps(s, t, r)
  {
  }

  lemma TakeSlotPersists(s: Relay, h: Conn, r: RoomId)
    requires Enabled(s, TakeSlot(h)) && r < |s.rooms|
    ensures Keeps(s, Apply(s, TakeSlot(h)), r)
  {
  }

  lemma RegisterPersists(s: Relay, h: Conn, r: RoomId)
    requires Enabled(s, Register(h)) && r < |s.rooms|
    ensures Keeps(s, Apply(s, Register(h)), r)
  {
  }

  lemma ForwardPersists(s: Relay, e: Step)
    requires Enabled(s, e) && (e.FwdRead? || e.FwdWrite?)
    ensures Apply(s, e).rooms == s.rooms
  {
  }

  lemma MovePersists(s: Relay, e: Step, r: RoomId)
    requires Enabled(s, e) && r < |s.rooms| && Actor(e).Some?
    requires !e.TakeSlot? && !e.Register? && !e.FwdRead? && !e.FwdWrite?
    ensures Keeps(s, Apply(s, e), r)
  {
  }

  lemma CleanupPersists(s: Relay, e: Step, r: RoomId)
    requires Enabled(s, e) && r < |s.rooms| && Actor(e).None?
    ensures Keeps(s, Apply(s, e), r)
  {
  }

  /** Only its own step removes a task. */
  lemma TasksPersist(s: Relay, e: Step, r: RoomId)
    requires Enabled(s, e)
    ensures r in s.toExpire && !(e.ExpireTask? && e.r == r) ==> r in Apply(s, e).toExpire
    ensures r in s.toDone && !(e.DoneTask? && e.r == r) ==> r in Apply(s, e).toDone
  {
    hide Apply;
    if Actor(e).Some? {
      HandlersKeepTasks(s, e);
    } else {
      CleanupTasks(s, e, r);
    }
  }

  lemma HandlersKeepTasks(s: Relay, e: Step)
    requires Enabled(s, e) && Actor(e).Some?
    ensures Apply(s, e).toExpire == s.toExpire && Apply(s, e).toDone == s.toDone
  {
  }

  lemma CleanupTasks(s: Relay, e: Step, r: RoomId)
    requires Enabled(s, e) && Actor(e).None?
    ensures r in s.toExpire && !(e.ExpireTask? && e.r == r) ==> r in Apply(s, e).toExpire
    ensures r in s.toDone && !(e.DoneTask? && e.r == r) ==> r in Apply(s, e).toDone
  {
  }

  lemma TaskDone(s: Relay, e: Step, r: RoomId)
    requires Enabled(s, e) && r < |s.rooms| && (e.ExpireTask? || e.DoneTask?) && e.r == r
    ensures e.ExpireTask? ==> Closed(Apply(s, e), r) && r in Apply(s, e).toDone
    ensures e.DoneTask? ==> IsDone(Apply(s, e), r)
  {
  }

  lemma EndingStep(s: Relay, e: Step, r: RoomId)
    requires Enabled(s, e) && Ending(s, r)
    ensures Ending(Apply(s, e), r)
  {
    hide Enabled, Apply, Closed, IsDone;
    RoomsPersist(s, e, r);
    TasksPersist(s, e, r);
    if (e.ExpireTask? || e.DoneTask?) && e.r == r {
      TaskDone(s, e, r);
    }
  }

  lemma SweepStarts(s: Relay, stale: set<string>, name: string)
    requires Inv(s) && Enabled(s, Sweep(stale)) && name in stale && name in s.table
    ensures Ending(Apply(s, Sweep(stale)), s.table[name]) && name !in Apply(s, Sweep(stale)).table
  {
    hide HandlerOk, RoomOk;
    assert s.table[name] in (set k | k in stale :: s.table[k]);
  }

  /** The first client's close handler has the same effect on its room. */
  lemma WatchStarts(s: Relay, h: Conn)
    requires Enabled(s, WatchFire(h))
    ensures Ending(Apply(s, WatchFire(h)), s.handlers[h].room.value)
  {
  }

  /** Expiry empties both slots, and closes ready and the sockets of both clients. */
  lemma ExpiryEmpties(s: Relay, r: RoomId, left1: nat, left2: nat)
    requires Enabled(s, ExpireTask(r, left1, left2))
    ensures var t := Apply(s, ExpireTask(r, left1, left2));
      && r < |t.rooms| && t.rooms[r].first.None? && t.rooms[r].second.None? && t.rooms[r].ready
      && (s.rooms[r].first.Some? ==> s.rooms[r].first.value in t.closed)
      && (s.rooms[r].second.Some? ==> s.rooms[r].second.value in t.closed)
  {
  }

  /**
   * A room that a tick took out of the table is out of it, and from then on it is on its way to be expired and done:
   * in every later state either it is both, or cleanup's next task for it can be taken.
   */
  lemma {:induction false} SweptRoomEnds(
    maxRooms: nat, steps: seq<Step>, states: seq<Relay>, m: nat, n: nat, name: string)
    requires IsRun(maxRooms, steps, states) && m < n <= |steps|
    requires steps[m].Sweep? && name in steps[m].stale && name in states[m].table
    ensures name !in states[m + 1].table
    ensures var r := states[m].table[name];
      && Ending(states[n], r)
      && ((Closed(states[n], r) && IsDone(states[n], r)) || Enabled(states[n], NextTask(states[n], r)))
    decreases n
  {
    hide Inv, Apply, Enabled, IsRun, Ending, Closed, IsDone, NextTask;
    RunShape(maxRooms, steps, states);
    RunStep(maxRooms, steps, states, n);
    if n == m + 1 {
      RunInv(maxRooms, steps, states, m);
      SweepStarts(states[m], steps[m].stale, name);
    } else {
      SweptRoomEnds(maxRooms, steps, states, m, n - 1, name);
      EndingStep(states[n - 1], steps[n - 1], states[m].table[name]);
    }
    NextEnabled(states[n], states[m].table[name]);
  }

  lemma NextEnabled(s: Relay, r: RoomId)
    requires Ending(s, r)
    ensures (Closed(s, r) && IsDone(s, r)) || Enabled(s, NextTask(s, r))
  {
  }
}
