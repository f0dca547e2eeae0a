/**
 * The relay's rooms as a transition system. Every critical section, channel operation, message and close of
 * handleWebSocket, pipeConnections, cleanupLoop and the close handler is one step; handlers, pipes and
 * cleanup interleave freely. A Room object is a number, distinct from the name it was created for.
 */
module Rooms {
  import opened Bytes

  type Conn = nat     // a connection, and the handler that serves it
  type RoomId = nat
  type Message = string

  datatype Role = NoRole | First | Second

  /** One goroutine of pipeConnections. */
  datatype Forward = Idle | Carrying(msg: Message) | Ended

  /** Where a handler is. */
  datatype Pc =
    | Joining                  // before getOrCreateRoom
    | Holding                  // has a room, has not locked it
    | Greeting                 // first: about to write "waiting"
    | AwaitReady               // first: <-room.ready
    | Woken                    // first: about to read the two slots
    | Piping(a: Conn, b: Conn, ab: Forward, ba: Forward)
    | Deleting                 // about to call deleteRoom
    | ClosingDone              // first: about to run the deferred closeDone
    | AwaitDone                // second: waits for room.done or the timer
    | Returned

  datatype Out = Waiting | PairedSender | PairedReceiver | Busy | Full | Forwarded(msg: Message)

  /** A handler: `out` was written to its connection, `yielded` was read from it after the join. */
  datatype Handler = Handler(
    name: string, room: Option<RoomId>, role: Role, pc: Pc, out: seq<Out>, yielded: seq<Message>)

  /** A Room object; the last four fields record its history and are read by no step. */
  datatype Room = Room(
    name: string, first: Option<Conn>, second: Option<Conn>, ready: bool, done: bool,
    expired: bool, firsts: seq<Conn>, seconds: seq<Conn>, pipes: nat)

  /**
   * The relay. `closed` holds the sockets the relay has closed, each with the number of messages that were in its
   * read buffer then: those can still be read, but nothing can be written any more.
   */
  datatype Relay = Relay(
    maxRooms: nat, table: map<string, RoomId>, rooms: seq<Room>, handlers: seq<Handler>,
    toExpire: multiset<RoomId>, toDone: multiset<RoomId>, closed: map<Conn, nat>)

  function NewRoom(name: string): Room {
    Room(name, None, None, false, false, false, [], [], 0)
  }

  function Init(maxRooms: nat): Relay {
    Relay(maxRooms, map[], [], [], multiset{}, multiset{}, map[])
  }

  // ----- what the critical sections of a room do

  /** room.expire */
  function Expired(r: Room): Room {
    r.(ready := true, first := None, second := None, expired := true)
  }

  function WithFirst(r: Room, c: Conn): Room {
    r.(first := Some(c), firsts := r.firsts + [c])
  }

  /** The second client takes its slot and closes ready. */
  function WithSecond(r: Room, c: Conn): Room {
    r.(second := Some(c), seconds := r.seconds + [c], ready := true)
  }

  // ----- sockets

  /** Close on a socket, which happens once; `left` messages are still in its read buffer. */
  function Close(closed: map<Conn, nat>, c: Conn, left: nat): map<Conn, nat> {
    if c in closed then closed else closed[c := left]
  }

  function CloseSlot(closed: map<Conn, nat>, c: Option<Conn>, left: nat): map<Conn, nat> {
    if c.Some? then Close(closed, c.value, left) else closed
  }

  predicate CanRead(closed: map<Conn, nat>, c: Conn) {
    c in closed ==> closed[c] > 0
  }

  function AfterRead(closed: map<Conn, nat>, c: Conn): map<Conn, nat>
    requires CanRead(closed, c)
  {
    if c in closed then closed[c := closed[c] - 1] else closed
  }

  // ----- steps

  datatype Step =
    | Connect(name: string)
    | Register(h: Conn)             // getOrCreateRoom
    | TakeSlot(h: Conn)             // the critical section after it
    | Greet(h: Conn)
    | Wake(h: Conn)
    | ReadSlots(h: Conn)
    | FwdRead(h: Conn, toB: bool, msg: Message)
    | FwdWrite(h: Conn, toB: bool)
    | FwdEnd(h: Conn, toB: bool, left: nat)    // a read or a write fails; the other end is closed
    | PipeEnd(h: Conn)
    | Delete(h: Conn)               // deleteRoom(name)
    | CloseDone(h: Conn)
    | Leave(h: Conn, timedOut: bool)
    | Sweep(stale: set<string>)     // the locked part of a cleanup tick
    | WatchFire(h: Conn)            // the first client's close handler is called
    | ExpireTask(r: RoomId, left1: nat, left2: nat)
    | DoneTask(r: RoomId)

  predicate IsHandler(s: Relay, h: Conn) {
    h < |s.handlers| && (s.handlers[h].room.Some? ==> s.handlers[h].room.value < |s.rooms|)
  }

  function RoomOf(s: Relay, h: Conn): Room
    requires IsHandler(s, h) && s.handlers[h].room.Some?
  {
    s.rooms[s.handlers[h].room.value]
  }

  predicate InPipe(s: Relay, h: Conn) {
    && IsHandler(s, h) && s.handlers[h].pc.Piping?
    && s.handlers[h].pc.a < |s.handlers| && s.handlers[h].pc.b < |s.handlers|
  }

  function Fwd(pc: Pc, toB: bool): Forward
    requires pc.Piping?
  {
    if toB then pc.ab else pc.ba
  }

  /** Where a direction of a pipe reads, and where it writes. */
  function Src(pc: Pc, toB: bool): Conn
    requires pc.Piping?
  {
    if toB then pc.a else pc.b
  }

  function Dst(pc: Pc, toB: bool): Conn
    requires pc.Piping?
  {
    if toB then pc.b else pc.a
  }

  function SetFwd(pc: Pc, toB: bool, f: Forward): Pc
    requires pc.Piping?
  {
    if toB then pc.(ab := f) else pc.(ba := f)
  }

  predicate Enabled(s: Relay, e: Step) {
    match e
    case Connect(_) => true
    case Register(h) => IsHandler(s, h) && s.handlers[h].pc == Joining
    case TakeSlot(h) =>
      IsHandler(s, h) && s.handlers[h].pc == Holding && s.handlers[h].room.Some? &&
      (RoomOf(s, h).first.Some? ==> RoomOf(s, h).first.value < |s.handlers|)
    case Greet(h) => IsHandler(s, h) && s.handlers[h].pc == Greeting
    case Wake(h) =>
      IsHandler(s, h) && s.handlers[h].pc == AwaitReady && s.handlers[h].room.Some? && RoomOf(s, h).ready
    case ReadSlots(h) => IsHandler(s, h) && s.handlers[h].pc == Woken && s.handlers[h].room.Some?
    case FwdRead(h, toB, _) =>
      InPipe(s, h) && Fwd(s.handlers[h].pc, toB) == Idle && CanRead(s.closed, Src(s.handlers[h].pc, toB))
    case FwdWrite(h, toB) =>
      InPipe(s, h) && Fwd(s.handlers[h].pc, toB).Carrying? && Dst(s.handlers[h].pc, toB) !in s.closed
    case FwdEnd(h, toB, _) => InPipe(s, h) && !Fwd(s.handlers[h].pc, toB).Ended?
    case PipeEnd(h) => InPipe(s, h) && s.handlers[h].pc.ab == Ended && s.handlers[h].pc.ba == Ended
    case Delete(h) => IsHandler(s, h) && s.handlers[h].pc == Deleting
    case CloseDone(h) => IsHandler(s, h) && s.handlers[h].pc == ClosingDone && s.handlers[h].room.Some?
    case Leave(h, timedOut) =>
      IsHandler(s, h) && s.handlers[h].pc == AwaitDone && s.handlers[h].room.Some? &&
      (timedOut || RoomOf(s, h).done)
    case Sweep(stale) => stale <= s.table.Keys
    case WatchFire(h) => IsHandler(s, h) && s.handlers[h].pc == AwaitReady && s.handlers[h].room.Some?
    case ExpireTask(r, _, _) => r in s.toExpire && r < |s.rooms|
    case DoneTask(r) => r in s.toDone && r < |s.rooms|
  }

  function SetHandler(s: Relay, h: Conn, x: Handler): Relay
    requires h < |s.handlers|
  {
    s.(handlers := s.handlers[h := x])
  }

  function SetPc(s: Relay, h: Conn, pc: Pc): Relay
    requires h < |s.handlers|
  {
    SetHandler(s, h, s.handlers[h].(pc := pc))
  }

  function SetRoom(s: Relay, r: RoomId, room: Room): Relay
    requires r < |s.rooms|
  {
    s.(rooms := s.rooms[r := room])
  }

  /** WriteMessage to a connection. */
  function Send(s: Relay, c: Conn, m: Out): Relay
    requires c < |s.handlers|
  {
    SetHandler(s, c, s.handlers[c].(out := s.handlers[c].out + [m]))
  }

  function DoRegister(s: Relay, h: Conn): Relay
    requires h < |s.handlers|
  {
    var x := s.handlers[h];
    if x.name in s.table then SetHandler(s, h, x.(room := Some(s.table[x.name]), pc := Holding))
    else if |s.table| >= s.maxRooms then
      SetHandler(s.(closed := Close(s.closed, h, 0)), h, x.(out := x.out + [Busy], pc := Returned))
    else
      SetHandler(
        s.(rooms := s.rooms + [NewRoom(x.name)], table := s.table[x.name := |s.rooms|]),
        h, x.(room := Some(|s.rooms|), pc := Holding))
  }

  function DoTakeSlot(s: Relay, h: Conn): Relay
    requires Enabled(s, TakeSlot(h))
  {
    var x := s.handlers[h];
    var id := x.room.value;
    var r := s.rooms[id];
    if r.first.None? then
      SetHandler(SetRoom(s, id, WithFirst(r, h)), h, x.(role := First, pc := Greeting))
    else if r.second.None? then
      var t := SetRoom(s, id, WithSecond(r, h));
      var u := Send(t, r.first.value, PairedSender);
      var y := u.handlers[h];
      SetHandler(u, h, y.(role := Second, pc := AwaitDone, out := y.out + [PairedReceiver]))
    else SetHandler(s.(closed := Close(s.closed, h, 0)), h, x.(out := x.out + [Full], pc := Returned))
  }

  function DoReadSlots(s: Relay, h: Conn): Relay
    requires Enabled(s, ReadSlots(h))
  {
    var id := s.handlers[h].room.value;
    var r := s.rooms[id];
    if r.first.None? || r.second.None? then SetPc(s, h, Deleting)
    else
      SetPc(SetRoom(s, id, r.(pipes := r.pipes + 1)), h, Piping(r.first.value, r.second.value, Idle, Idle))
  }

  function DoFwdRead(s: Relay, h: Conn, toB: bool, msg: Message): Relay
    requires InPipe(s, h) && CanRead(s.closed, Src(s.handlers[h].pc, toB))
  {
    var pc := s.handlers[h].pc;
    var src := Src(pc, toB);
    var t := SetHandler(s.(closed := AfterRead(s.closed, src)), src,
      s.handlers[src].(yielded := s.handlers[src].yielded + [msg]));
    SetPc(t, h, SetFwd(pc, toB, Carrying(msg)))
  }

  function DoFwdWrite(s: Relay, h: Conn, toB: bool): Relay
    requires InPipe(s, h) && Fwd(s.handlers[h].pc, toB).Carrying?
  {
    var pc := s.handlers[h].pc;
    var t := Send(s, Dst(pc, toB), Forwarded(Fwd(pc, toB).msg));
    SetPc(t, h, SetFwd(pc, toB, Idle))
  }

  function Apply(s: Relay, e: Step): Relay
    requires Enabled(s, e)
  {
    match e
    case Connect(name) => s.(handlers := s.handlers + [Handler(name, None, NoRole, Joining, [], [])])
    case Register(h) => DoRegister(s, h)
    case TakeSlot(h) => DoTakeSlot(s, h)
    case Greet(h) => SetHandler(s, h, s.handlers[h].(out := s.handlers[h].out + [Waiting], pc := AwaitReady))
    case Wake(h) => SetPc(s, h, Woken)
    case ReadSlots(h) => DoReadSlots(s, h)
    case FwdRead(h, toB, msg) => DoFwdRead(s, h, toB, msg)
    case FwdWrite(h, toB) => DoFwdWrite(s, h, toB)
    case FwdEnd(h, toB, left) =>
      var pc := s.handlers[h].pc;
      SetPc(s.(closed := Close(s.closed, Dst(pc, toB), left)), h, SetFwd(pc, toB, Ended))
    case PipeEnd(h) => SetPc(s, h, Deleting)
    case Delete(h) =>
      var next := if s.handlers[h].role == First then ClosingDone else Returned;
      SetPc(s.(table := s.table - {s.handlers[h].name}), h, next)
    case CloseDone(h) =>
      var id := s.handlers[h].room.value;
      SetPc(SetRoom(s, id, s.rooms[id].(done := true)), h, Returned)
    case Leave(h, _) => SetPc(s, h, Deleting)
    case Sweep(stale) =>
      s.(table := s.table - stale, toExpire := s.toExpire + multiset(set n | n in stale :: s.table[n]))
    case WatchFire(h) => s.(toExpire := s.toExpire + multiset{s.handlers[h].room.value})
    case ExpireTask(r, left1, left2) =>
      var x := s.rooms[r];
      SetRoom(s, r, Expired(x)).(
        toExpire := s.toExpire - multiset{r}, toDone := s.toDone + multiset{r},
        closed := CloseSlot(CloseSlot(s.closed, x.first, left1), x.second, left2))
    case DoneTask(r) =>
      SetRoom(s, r, s.rooms[r].(done := true)).(toDone := s.toDone - multiset{r})
  }

  /** states[n] is the relay after n steps, each possible in its turn. */
  ghost predicate IsRun(maxRooms: nat, steps: seq<Step>, states: seq<Relay>) {
    && |states| == |steps| + 1 && states[0] == Init(maxRooms)
    && forall n :: 0 <= n < |steps| ==> Enabled(states[n], steps[n]) && states[n + 1] == Apply(states[n], steps[n])
  }
}
