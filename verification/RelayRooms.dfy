/**
 * The relay's objects as it keeps them: Room objects with slots and one-shot channels, the table that leads names
 * to them, and the cleanup tick. Each critical section is tied to the step of Rooms that stands for it.
 */
module RelayRooms {
  import opened Bytes
  import Rooms
  import RoomPairing
  import RoomInvariant

  type Id = nat
  type Message = Rooms.Message
  type Out = Rooms.Out

  /** A websocket connection as the relay sees it: what was written to it. */
  class Socket {
    const id: Id
    var out: seq<Out>
    var closed: bool

    constructor (id: Id)
      ensures this.id == id && out == [] && !closed
    {
      this.id, out, closed := id, [], false;
    }

    method Write(m: Out)
      modifies this`out
      ensures out == old(out) + [m]
    {
      out := out + [m];
    }

    method Close()
      modifies this`closed
      ensures closed
    {
      closed := true;
    }
  }

  function IdOf(s: Socket?): Option<Id> {
    if s == null then None else Some(s.id)
  }

  /** A room that was expired and whose done was closed. */
  function Released(r: Rooms.Room): Rooms.Room {
    Rooms.Expired(r).(done := true)
  }

  class Room {
    const name: string
    var first: Socket?
    var second: Socket?
    var lastActivity: int
    var ready: bool          // the channel is closed
    var done: bool
    var doneOnce: bool
    ghost var expired: bool
    ghost var firsts: seq<Id>
    ghost var seconds: seq<Id>
    ghost var pipes: nat

    ghost predicate Valid()
      reads this
    {
      && done == doneOnce && (first != null ==> first != second)
      && (second != null ==> first != null && ready)
    }

    ghost function View(): Rooms.Room
      reads this
    {
      Rooms.Room(name, IdOf(first), IdOf(second), ready, done, expired, firsts, seconds, pipes)
    }

    ghost function Sockets(): set<Socket>
      reads this
    {
      (if first == null then {} else {first}) + (if second == null then {} else {second})
    }

    constructor (name: string, now: int)
      ensures Valid() && View() == Rooms.NewRoom(name) && lastActivity == now
    {
      this.name := name;
      first, second, lastActivity := null, null, now;
      ready, done, doneOnce := false, false, false;
      expired, firsts, seconds, pipes := false, [], [], 0;
    }

    method TouchActivity(now: int)
      modifies this`lastActivity
      ensures lastActivity == now
    {
      lastActivity := now;
    }

    /** close(room.ready): a second close would panic. */
    method CloseReadyChannel()
      requires !ready
      modifies this`ready
      ensures ready
    {
      ready := true;
    }

    /** close(room.done): a second close would panic. */
    method CloseDoneChannel()
      requires !done
      modifies this`done
      ensures done
    {
      done := true;
    }

    method CloseReady()
      modifies this`ready
      ensures ready
    {
      if !ready {
        CloseReadyChannel();
      }
    }

    method CloseDone()
      requires Valid()
      modifies this`done, this`doneOnce
      ensures Valid() && View() == old(View()).(done := true)
    {
      if !doneOnce {
        doneOnce := true;
        CloseDoneChannel();
      }
    }

    method Expire()
      requires Valid()
      modifies this`ready, this`first, this`second, this`expired, Sockets()`closed
      ensures Valid() && View() == Rooms.Expired(old(View()))
      ensures first == null && second == null && ready
      ensures forall s <- old(Sockets()) :: s.closed
    {
      CloseReady();
      expired := true;
      if first != null {
        first.Close();
        first := null;
      }
      if second != null {
        second.Close();
        second := null;
      }
    }

    /** What cleanup and the first client's close handler do with a room. */
    method ExpireAndRelease()
      requires Valid()
      modifies this, Sockets()`closed
      ensures Valid() && View() == Released(old(View()))
      ensures forall s <- old(Sockets()) :: s.closed
    {
      Expire();
      CloseDone();
    }

    /** The critical section in which a client takes a slot; a third client is told so and closed. */
    method TakeSlot(conn: Socket) returns (role: Rooms.Role)
      requires Valid() && conn !in Sockets()
      modifies this`first, this`second, this`ready, this`firsts, this`seconds, Sockets()`out, conn
      ensures Valid()
      ensures role ==
        if old(first) == null then Rooms.First else if old(second) == null then Rooms.Second else Rooms.NoRole
      ensures View() ==
        match role
        case First => Rooms.WithFirst(old(View()), conn.id)
        case Second => Rooms.WithSecond(old(View()), conn.id)
        case NoRole => old(View())
      ensures conn.out == old(conn.out) +
        (match role case First => [] case Second => [Rooms.PairedReceiver] case NoRole => [Rooms.Full])
      ensures old(first) != null ==>
        old(first).out == old(first.out) + (if role == Rooms.Second then [Rooms.PairedSender] else [])
      ensures role == Rooms.NoRole ==> old(second).out == old(second.out)
      ensures conn.closed == (role == Rooms.NoRole || old(conn.closed))
    {
      if first == null {
        first, firsts, role := conn, firsts + [conn.id], Rooms.First;
      } else if second == null {
        second, seconds, role := conn, seconds + [conn.id], Rooms.Second;
        first.Write(Rooms.PairedSender);
        second.Write(Rooms.PairedReceiver);
        CloseReady();
      } else {
        conn.Write(Rooms.Full);
        conn.Close();
        role := Rooms.NoRole;
      }
    }
  }

  /**
   * One goroutine of pipeConnections: copies what its source yields until a read or a write fails, then closes the
   * other end.
   */
  method Forward(room: Room, incoming: seq<Message>, dst: Socket, writes: nat, clock: seq<int>) returns (read: nat)
    requires |clock| >= |incoming|
    modifies room`lastActivity, dst
    ensures read == Min(|incoming|, writes + 1)
    ensures RoomPairing.Forwards(dst.out) == RoomPairing.Forwards(old(dst.out)) + incoming[..Min(|incoming|, writes)]
    ensures old(dst.out) <= dst.out && forall i :: |old(dst.out)| <= i < |dst.out| ==> dst.out[i].Forwarded?
    ensures dst.closed
    ensures room.lastActivity == if read == 0 then old(room.lastActivity) else clock[read - 1]
  {
    read := 0;
    var written := 0;
    while read < |incoming| && read == written
      invariant written <= read <= written + 1
      invariant read <= |incoming| && written <= writes
      invariant read > written ==> written == writes
      invariant RoomPairing.Forwards(dst.out) == RoomPairing.Forwards(old(dst.out)) + incoming[..written]
      invariant old(dst.out) <= dst.out && forall i :: |old(dst.out)| <= i < |dst.out| ==> dst.out[i].Forwarded?
      invariant room.lastActivity == if read == 0 then old(room.lastActivity) else clock[read - 1]
    {
      var msg := incoming[read];
      room.TouchActivity(clock[read]);
      read := read + 1;
      if written < writes {
        RoomPairing.ForwardsAppend(dst.out, Rooms.Forwarded(msg));
        dst.Write(Rooms.Forwarded(msg));
        assert incoming[..written] + [msg] == incoming[..written + 1];
        written := written + 1;
      }
    }
    dst.Close();
    hide RoomPairing.Forwards;
  }

  class Relay {
    const maxRooms: nat
    var rooms: map<string, Room>

    ghost predicate Valid()
      reads this, rooms.Values
    {
      |rooms| <= maxRooms && forall n <- rooms :: rooms[n].name == n && rooms[n].Valid()
    }

    constructor (maxRooms: nat)
      ensures Valid() && rooms == map[] && this.maxRooms == maxRooms
    {
      this.maxRooms, rooms := maxRooms, map[];
    }

    method GetOrCreateRoom(name: string, now: int) returns (room: Room?)
      requires Valid()
      modifies this`rooms, (if name in rooms then {rooms[name]} else {})`lastActivity
      ensures Valid()
      ensures room == null <==> name !in old(rooms) && |old(rooms)| >= maxRooms
      ensures room == null || name in old(rooms) ==> rooms == old(rooms)
      ensures name in old(rooms) ==> room == rooms[name]
      ensures room != null && name !in old(rooms) ==>
        fresh(room) && room.View() == Rooms.NewRoom(name) && rooms == old(rooms)[name := room]
      ensures room != null ==> room.lastActivity == now
    {
      if name in rooms {
        room := rooms[name];
        room.TouchActivity(now);
      } else if |rooms| >= maxRooms {
        room := null;
      } else {
        room := new Room(name, now);
        rooms := rooms[name := room];
      }
    }

    method DeleteRoom(name: string)
      requires Valid()
      modifies this`rooms
      ensures Valid() && rooms == old(rooms) - {name}
    {
      ghost var was := rooms;
      rooms := Removed(rooms, name);
      SweptAll(rooms, was, {name});
    }

    /** The locked part of a cleanup tick: takes every room that was idle too long out of the table. */
    method Sweep(now: int, inactivity: int) returns (stale: seq<Room>)
      requires forall n <- rooms :: rooms[n].name == n
      modifies this`rooms
      ensures Swept(rooms, old(rooms), IdleNames(old(rooms), now, inactivity)) && |rooms| <= |old(rooms)|
      ensures forall n <- old(rooms) :: n in rooms <==> now - old(rooms)[n].lastActivity <= inactivity
      ensures Lists(stale, old(rooms), IdleNames(old(rooms), now, inactivity))
    {
      hide Partway, Lists, Removed, Swept, IdleNames;
      stale := [];
      var todo := rooms.Keys;
      ghost var was, idle := rooms, IdleNames(rooms, now, inactivity);
      PartwayStart(rooms, now, inactivity);
      while todo != {}
        invariant Partway(rooms, stale, was, idle, todo)
      {
        var name :| name in todo;
        PartwayAt(rooms, stale, was, idle, todo, name);
        IdleAt(was, now, inactivity, name);
        var room := rooms[name];
        if now - room.lastActivity > inactivity {
          rooms := Removed(rooms, name);
          stale := stale + [room];
        }
        todo := todo - {name};
      }
      PartwayEnd(rooms, stale, was, idle);
      SweptIdle(rooms, was, now, inactivity);
    }

    /** One tick of cleanupLoop. */
    method CleanupTick(now: int, inactivity: int)
      requires Valid()
      modifies this`rooms, rooms.Values, set r, x | r in rooms.Values && x in r.Sockets() :: x
      ensures Valid() && Swept(rooms, old(rooms), old(IdleNames(rooms, now, inactivity)))
      ensures forall n <- old(rooms) ::
        old(rooms)[n].View() ==
        (if old(Idle(rooms[n], now, inactivity)) then Released(old(rooms[n].View())) else old(rooms[n].View()))
    {
      hide Lists, Released, Distinct;
      ghost var idle := IdleNames(rooms, now, inactivity);
      ghost var was := rooms;
      var stale := Sweep(now, inactivity);
      ListsAll(stale, was, idle);
      ExpireAll(stale);
      forall n <- was
        ensures was[n].Valid()
        ensures was[n].View() == if n in idle then Released(old(was[n].View())) else old(was[n].View())
      {
        if n in idle {
          assert was[n] in stale;
        } else {
          assert unchanged(was[n]);
        }
      }
    }

    /** The rest of the tick, with no lock on the table. */
    static method ExpireAll(stale: seq<Room>)
      requires forall r <- stale :: r.Valid()
      requires Distinct(stale)
      modifies set r | r in stale
      modifies set r, x | r in stale && x in r.Sockets() :: x
      ensures forall r <- stale :: r.Valid() && r.View() == Released(old(r.View()))
      ensures forall r <- stale :: forall x <- old(r.Sockets()) :: x.closed
    {
      hide Released;
      var i := 0;
      while i < |stale|
        invariant 0 <= i <= |stale|
        invariant forall j :: 0 <= j < i ==> stale[j].Valid() && stale[j].View() == Released(old(stale[j].View()))
        invariant forall j :: 0 <= j < i ==> forall x <- old(stale[j].Sockets()) :: x.closed
        invariant forall j :: i <= j < |stale| ==>
          stale[j].Valid() && stale[j].View() == old(stale[j].View()) && stale[j].Sockets() == old(stale[j].Sockets())
      {
        stale[i].ExpireAndRelease();
        i := i + 1;
      }
    }
  }

  predicate Idle(r: Room, now: int, inactivity: int)
    reads r
  {
    now - r.lastActivity > inactivity
  }

  ghost function IdleNames(rooms: map<string, Room>, now: int, inactivity: int): set<string>
    reads rooms.Values
  {
    set n | n in rooms && Idle(rooms[n], now, inactivity)
  }

  lemma IdleAt(rooms: map<string, Room>, now: int, inactivity: int, n: string)
    requires n in rooms
    ensures n in IdleNames(rooms, now, inactivity) <==> Idle(rooms[n], now, inactivity)
  {
  }

  predicate Distinct(stale: seq<Room>) {
    forall i, j :: 0 <= i < j < |stale| ==> stale[i] != stale[j]
  }

  /** stale holds the rooms of those names, each once. */
  ghost predicate Lists(stale: seq<Room>, rooms: map<string, Room>, names: set<string>) {
    && names <= rooms.Keys && Distinct(stale)
    && (forall n <- names :: rooms[n] in stale)
    && (forall r <- stale :: r.name in names && rooms[r.name] == r)
  }

  lemma ListsAll(stale: seq<Room>, rooms: map<string, Room>, names: set<string>)
    requires Lists(stale, rooms, names) && forall n <- rooms :: rooms[n].name == n
    ensures Distinct(stale) && (forall r <- stale :: r in rooms.Values)
    ensures forall n <- rooms :: n in names <==> rooms[n] in stale
  {
  }

  lemma ListsMore(stale: seq<Room>, rooms: map<string, Room>, names: set<string>, n: string)
    requires Lists(stale, rooms, names) && n in rooms && n !in names && rooms[n].name == n
    ensures Lists(stale + [rooms[n]], rooms, names + {n})
  {
  }

  /** The table `was` without those names. */
  ghost predicate Swept(t: map<string, Room>, was: map<string, Room>, names: set<string>) {
    t.Keys == was.Keys - names && forall n <- t :: t[n] == was[n]
  }

  /** How far Sweep has come: it has still to look at the names in todo. */
  ghost predicate Partway(
    t: map<string, Room>, stale: seq<Room>, was: map<string, Room>, idle: set<string>, todo: set<string>)
  {
    todo <= was.Keys && Swept(t, was, idle - todo) && Lists(stale, was, idle - todo)
  }

  function Removed(t: map<string, Room>, n: string): map<string, Room> {
    t - {n}
  }

  lemma PartwayStart(was: map<string, Room>, now: int, inactivity: int)
    ensures Partway(was, [], was, IdleNames(was, now, inactivity), was.Keys)
  {
    assert IdleNames(was, now, inactivity) - was.Keys == {};
  }

  lemma PartwayAt(
    t: map<string, Room>, stale: seq<Room>, was: map<string, Room>, idle: set<string>, todo: set<string>, n: string)
    requires Partway(t, stale, was, idle, todo) && n in todo && was[n].name == n
    ensures n in t && t[n] == was[n] && n in was
    ensures n in idle ==> Partway(Removed(t, n), stale + [was[n]], was, idle, todo - {n})
    ensures n !in idle ==> Partway(t, stale, was, idle, todo - {n})
  {
    hide Lists;
    if n in idle {
      assert idle - (todo - {n}) == (idle - todo) + {n};
      ListsMore(stale, was, idle - todo, n);
    } else {
      assert idle - (todo - {n}) == idle - todo;
    }
  }

  lemma PartwayEnd(t: map<string, Room>, stale: seq<Room>, was: map<string, Room>, idle: set<string>)
    requires Partway(t, stale, was, idle, {})
    ensures Swept(t, was, idle) && |t| <= |was| && Lists(stale, was, idle)
  {
    hide Lists;
    assert idle - {} == idle;
    SweptAll(t, was, idle);
  }

  lemma SweptIdle(t: map<string, Room>, was: map<string, Room>, now: int, inactivity: int)
    requires Swept(t, was, IdleNames(was, now, inactivity))
    ensures forall n <- was :: n in t <==> now - was[n].lastActivity <= inactivity
  {
  }

  lemma SweptAll(t: map<string, Room>, was: map<string, Room>, names: set<string>)
    requires Swept(t, was, names)
    ensures t == was - names && |t| <= |was|
  {
    RoomInvariant.SubsetSize(t.Keys, was.Keys);
    assert |t.Keys| == |t| && |was.Keys| == |was|;
  }
}
