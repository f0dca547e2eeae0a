/** Rooms that never expire: one pipe, its two ends, and what each end was told and forwarded. */
module RoomPairing {
  import opened Bytes
  import opened Rooms
  import opened RoomInvariant

  /** The forwarded messages among those written to a connection. */
  function Forwards(out: seq<Out>): (r: seq<Message>) {
    if out == [] then []
    else Forwards(out[..|out| - 1]) + (match out[|out| - 1] case Forwarded(m) => [m] case _ => [])
  }

  /** A connection heard exactly `controls`, and after them only forwarded messages. */
  ghost predicate Heard(out: seq<Out>, controls: seq<Out>) {
    controls <= out && forall i :: |controls| <= i < |out| ==> out[i].Forwarded?
  }

  /** `got` is what of `src` has been forwarded, `lane` the goroutine that forwards it. */
  ghost predicate Flow(src: seq<Message>, got: seq<Message>, lane: Forward) {
    match lane
    case Idle => src == got
    case Carrying(m) => src == got + [m]
    case Ended => got <= src && |src| <= |got| + 1
  }

  predicate Early(pc: Pc) {
    pc == Greeting || pc == AwaitReady || pc == Woken
  }

  function Lane(pc: Pc, toB: bool): Forward {
    if pc.Piping? then Fwd(pc, toB) else if Early(pc) then Idle else Ended
  }

  ghost predicate FirstHeard(x: Handler) {
    if x.pc == Greeting then Heard(x.out, [PairedSender])
    else Heard(x.out, [Waiting, PairedSender]) || Heard(x.out, [PairedSender, Waiting])
  }

  /** A first client that nobody has joined. */
  ghost predicate Alone(x: Handler, pipes: nat) {
    && pipes == 0 && x.yielded == [] && (x.pc == Greeting || x.pc == AwaitReady)
    && x.out == (if x.pc == Greeting then [] else [Waiting])
  }

  /** Handlers x = a and y = b are the two clients of a room. */
  ghost predicate Together(x: Handler, a: Conn, y: Handler, b: Conn, pipes: nat) {
    && FirstHeard(x) && Heard(y.out, [PairedReceiver])
    && pipes == (if Early(x.pc) then 0 else 1)
    && (x.pc.Piping? ==> x.pc.a == a && x.pc.b == b)
    && Flow(x.yielded, Forwards(y.out), Lane(x.pc, true)) && Flow(y.yielded, Forwards(x.out), Lane(x.pc, false))
    && (Early(x.pc) ==> x.yielded == [] && y.yielded == [] && (x.pc == Greeting ==> |x.out| == 1))
  }

  ghost predicate PairOk(s: Relay, r: RoomId)
    requires r < |s.rooms|
  {
    var x := s.rooms[r];
    x.expired ||
    if x.firsts == [] then x.pipes == 0
    else if x.seconds == [] then x.firsts[0] < |s.handlers| && Alone(s.handlers[x.firsts[0]], x.pipes)
    else
      && x.firsts[0] < |s.handlers| && x.seconds[0] < |s.handlers| && x.firsts[0] != x.seconds[0]
      && Together(s.handlers[x.firsts[0]], x.firsts[0], s.handlers[x.seconds[0]], x.seconds[0], x.pipes)
  }

  ghost predicate Fresh(x: Handler) {
    x.pc == Joining || x.pc == Holding ==> x.out == [] && x.yielded == []
  }

  ghost predicate AllFresh(s: Relay) {
    forall h :: 0 <= h < |s.handlers| ==> Fresh(s.handlers[h])
  }

  ghost predicate PairInv(s: Relay) {
    && Inv(s) && AllFresh(s)
    && (forall r :: 0 <= r < |s.rooms| ==> PairOk(s, r))
  }

  lemma ForwardsAppend(out: seq<Out>, m: Out)
    ensures Forwards(out + [m]) == Forwards(out) + (match m case Forwarded(w) => [w] case _ => [])
  {
    assert (out + [m])[..|out|] == out;
  }

  lemma {:induction false} ForwardsNone(out: seq<Out>)
    requires forall i :: 0 <= i < |out| ==> !out[i].Forwarded?
    ensures Forwards(out) == []
  {
    if out != [] {
      ForwardsNone(out[..|out| - 1]);
    }
  }

  // ----- framing

  /** Room r and its clients are unchanged. */
  lemma PairKept(s: Relay, t: Relay, r: RoomId)
    requires r < |s.rooms| <= |t.rooms| && PairOk(s, r) && RoomOk(s, r) && |s.handlers| <= |t.handlers|
    requires t.rooms[r] == s.rooms[r].(done := t.rooms[r].done)
    requires forall c | 0 <= c < |s.handlers| && InRoom(s, c, r, s.handlers[c].role)
      && s.handlers[c].role != NoRole :: t.handlers[c] == s.handlers[c]
    ensures PairOk(t, r)
  {
    hide Alone, Together;
    var x := s.rooms[r];
    if !x.expired && x.firsts != [] {
      assert x.firsts[0] in x.firsts;
      if x.seconds != [] {
        assert x.seconds[0] in x.seconds;
      }
    }
  }

  /** Only room q, its clients and handlers without a role differ. */
  ghost predicate Apart(s: Relay, t: Relay, q: RoomId) {
    && |s.handlers| <= |t.handlers| && |t.rooms| == |s.rooms|
    && (forall c :: 0 <= c < |s.handlers| && s.handlers[c].role != NoRole && s.handlers[c].room != Some(q) ==>
      t.handlers[c] == s.handlers[c])
    && (forall r :: 0 <= r < |s.rooms| && r != q ==> t.rooms[r] == s.rooms[r])
  }

  lemma PairLocal(s: Relay, t: Relay, q: RoomId)
    requires PairInv(s) && Inv(t) && Apart(s, t, q) && AllFresh(t)
    requires q < |t.rooms| ==> PairOk(t, q)
    ensures PairInv(t)
  {
    hide PairOk, RoomOk, HandlerOk, Fresh, TableOk;
    forall r | 0 <= r < |t.rooms| ensures PairOk(t, r) {
      if r != q {
        PairKept(s, t, r);
      }
    }
  }

  /** In a room that has not expired, a handler with a role is the one client in that slot. */
  lemma SeatIs(s: Relay, h: Conn)
    requires Inv(s) && h < |s.handlers| && s.handlers[h].role != NoRole
    ensures IsHandler(s, h) && s.handlers[h].room.Some?
    ensures !RoomOf(s, h).expired && s.handlers[h].role == First ==> RoomOf(s, h).firsts == [h]
    ensures !RoomOf(s, h).expired && s.handlers[h].role == Second ==>
      RoomOf(s, h).seconds == [h] && RoomOf(s, h).firsts != []
  {
    assert HandlerOk(s, h) && RoomOk(s, s.handlers[h].room.value);
  }

  // ----- the steps

  lemma ConnectPairs(s: Relay, name: string)
    requires PairInv(s) && Inv(Apply(s, Connect(name)))
    ensures PairInv(Apply(s, Connect(name)))
  {
    hide Inv, PairOk;
    PairLocal(s, Apply(s, Connect(name)), |s.rooms|);
  }

  lemma RegisterPairs(s: Relay, h: Conn)
    requires PairInv(s) && Enabled(s, Register(h)) && Inv(Apply(s, Register(h)))
    ensures PairInv(Apply(s, Register(h)))
  {
    hide Inv, PairOk, DoRegister, AllFresh, RoomOk;
    var t := Apply(s, Register(h));
    RegisterDoes(s, h);
    forall r | 0 <= r < |t.rooms| ensures PairOk(t, r) {
      if r < |s.rooms| {
        RoomAt(s, r);
        PairKept(s, t, r);
      } else {
        NewRoomPair(t, r);
      }
    }
  }

  /** A look-up changes only the handler that makes it, and may add an empty room. */
  lemma RegisterDoes(s: Relay, h: Conn)
    requires PairInv(s) && Enabled(s, Register(h))
    ensures var t := Apply(s, Register(h));
      && |t.handlers| == |s.handlers| && s.rooms <= t.rooms && AllFresh(t) && s.handlers[h].role == NoRole
      && (forall c :: 0 <= c < |s.handlers| && c != h ==> t.handlers[c] == s.handlers[c])
      && (forall r :: |s.rooms| <= r < |t.rooms| ==> t.rooms[r] == NewRoom(t.rooms[r].name))
  {
    hide RoomOk, TableOk, PairOk, FirstOk, SecondOk, PipeOk;
    assert HandlerOk(s, h) && Fresh(s.handlers[h]);
  }

  lemma NewRoomPair(t: Relay, r: RoomId)
    requires r < |t.rooms| && t.rooms[r] == NewRoom(t.rooms[r].name)
    ensures PairOk(t, r)
  {
  }

  lemma TakeFirstPairs(s: Relay, h: Conn)
    requires PairInv(s) && Enabled(s, TakeSlot(h)) && Inv(Apply(s, TakeSlot(h))) && RoomOf(s, h).first.None?
    ensures PairInv(Apply(s, TakeSlot(h)))
  {
    var t := Apply(s, TakeSlot(h));
    var q := s.handlers[h].room.value;
    assert HandlerOk(s, h) && RoomOk(s, q) && PairOk(s, q) && Fresh(s.handlers[h]);
    assert PairOk(t, q) by {
      hide Together;
    }
    PairLocal(s, t, q);
  }

  lemma TakeSecondPairs(s: Relay, h: Conn)
    requires PairInv(s) && Enabled(s, TakeSlot(h)) && Inv(Apply(s, TakeSlot(h)))
    requires RoomOf(s, h).first.Some? && RoomOf(s, h).second.None?
    ensures PairInv(Apply(s, TakeSlot(h)))
  {
    var q := s.handlers[h].room.value;
    TakeSecondFresh(s, h);
    if s.rooms[q].expired {
      assert HandlerOk(s, h);
    } else {
      TakeSecondPair(s, h);
    }
    PairLocal(s, Apply(s, TakeSlot(h)), q);
  }

  lemma TakeSecondFresh(s: Relay, h: Conn)
    requires PairInv(s) && Enabled(s, TakeSlot(h)) && RoomOf(s, h).first.Some? && RoomOf(s, h).second.None?
    ensures AllFresh(Apply(s, TakeSlot(h))) && Apart(s, Apply(s, TakeSlot(h)), s.handlers[h].room.value)
  {
    hide TableOk, PairOk, SecondOk, PipeOk;
    var q := s.handlers[h].room.value;
    var f := s.rooms[q].first.value;
    assert HandlerOk(s, h) && RoomOk(s, q) && HandlerOk(s, f);
  }

  lemma TakeSecondPair(s: Relay, h: Conn)
    requires PairInv(s) && Enabled(s, TakeSlot(h)) && !RoomOf(s, h).expired
    requires RoomOf(s, h).first.Some? && RoomOf(s, h).second.None?
    ensures PairOk(Apply(s, TakeSlot(h)), s.handlers[h].room.value)
  {
    hide TableOk, Alone, Together, FirstOk, SecondOk, PipeOk;
    var t := Apply(s, TakeSlot(h));
    var q := s.handlers[h].room.value;
    var f := s.rooms[q].first.value;
    assert HandlerOk(s, h) && RoomOk(s, q) && PairOk(s, q) && Fresh(s.handlers[h]);
    TakeSecondDoes(s, h, f, q);
    JoinedTogether(s.handlers[f], f, s.handlers[h], h, t.handlers[f], t.handlers[h], s.rooms[q].pipes);
  }

  lemma TakeSecondDoes(s: Relay, h: Conn, f: Conn, q: RoomId)
    requires Enabled(s, TakeSlot(h)) && s.handlers[h].room == Some(q) && s.rooms[q].first == Some(f)
    requires s.rooms[q].second.None? && f != h
    ensures var t := Apply(s, TakeSlot(h));
      && |t.rooms| == |s.rooms| && |t.handlers| == |s.handlers| && t.rooms[q] == WithSecond(s.rooms[q], h)
      && t.handlers[f] == s.handlers[f].(out := s.handlers[f].out + [PairedSender])
      && t.handlers[h] == s.handlers[h].(role := Second, pc := AwaitDone, out := s.handlers[h].out + [PairedReceiver])
  {
  }

  /** The second client joins a first client that was alone. */
  lemma JoinedTogether(x: Handler, a: Conn, y: Handler, b: Conn, u: Handler, v: Handler, pipes: nat)
    requires Alone(x, pipes) && y.out == [] && y.yielded == []
    requires u == x.(out := x.out + [PairedSender])
    requires v == y.(role := Second, pc := AwaitDone, out := y.out + [PairedReceiver])
    ensures Together(u, a, v, b, pipes)
  {
    HeardJust(v.out, PairedReceiver);
    if x.pc == Greeting {
      HeardJust(u.out, PairedSender);
    } else {
      HeardJust([Waiting], Waiting);
      HeardMore([Waiting], [Waiting], PairedSender);
    }
    hide Forwards, Heard;
  }

  lemma HeardJust(out: seq<Out>, c: Out)
    requires !c.Forwarded? && (out == [c] || out == [] + [c])
    ensures Heard(out, [c]) && Forwards(out) == []
  {
    ForwardsNone(out);
  }

  /** One more control message, before anything was forwarded. */
  lemma HeardMore(out: seq<Out>, controls: seq<Out>, c: Out)
    requires out == controls && Forwards(out) == [] && !c.Forwarded?
    ensures Heard(out + [c], controls + [c]) && Forwards(out + [c]) == []
  {
    ForwardsAppend(out, c);
  }

  lemma TakeSlotPairs(s: Relay, h: Conn)
    requires PairInv(s) && Enabled(s, TakeSlot(h)) && Inv(Apply(s, TakeSlot(h)))
    ensures PairInv(Apply(s, TakeSlot(h)))
  {
    if RoomOf(s, h).first.None? {
      TakeFirstPairs(s, h);
    } else if RoomOf(s, h).second.None? {
      TakeSecondPairs(s, h);
    } else {
      assert HandlerOk(s, h);
      PairLocal(s, Apply(s, TakeSlot(h)), |s.rooms|);
    }
  }

  // ----- what each step does to two handlers that are together

  lemma GreetTogether(x: Handler, a: Conn, y: Handler, b: Conn, pipes: nat)
    requires Together(x, a, y, b, pipes) && x.pc == Greeting
    ensures Together(x.(out := x.out + [Waiting], pc := AwaitReady), a, y, b, pipes)
  {
    hide Forwards;
    ForwardsAppend(x.out, Waiting);
    assert x.out == [PairedSender];
    assert x.out + [Waiting] == [PairedSender, Waiting];
  }

  /** Moves of the first client that leave the messages alone. */
  ghost predicate Proceeds(pc: Pc, next: Pc, a: Conn, b: Conn) {
    match pc
    case AwaitReady => next == Woken
    case Woken => next == Piping(a, b, Idle, Idle)
    case Piping(_, _, ab, ba) =>
      || next == pc.(ab := Ended) || next == pc.(ba := Ended)
      || (ab == Ended && ba == Ended && next == Deleting)
    case Deleting => next == ClosingDone
    case ClosingDone => next == Returned
    case _ => false
  }

  lemma ProceedTogether(x: Handler, next: Pc, a: Conn, y: Handler, b: Conn, pipes: nat)
    requires Together(x, a, y, b, pipes) && Proceeds(x.pc, next, a, b)
    ensures Together(x.(pc := next), a, y, b, if x.pc == Woken then pipes + 1 else pipes)
  {
    hide Forwards, Heard;
  }

  lemma ReadTogether(x: Handler, a: Conn, y: Handler, b: Conn, pipes: nat, toB: bool, msg: Message)
    requires Together(x, a, y, b, pipes) && x.pc.Piping? && Fwd(x.pc, toB) == Idle
    ensures Together((if toB then x.(yielded := x.yielded + [msg]) else x).(pc := SetFwd(x.pc, toB, Carrying(msg))), a,
                     if toB then y else y.(yielded := y.yielded + [msg]), b, pipes)
  {
    hide Forwards, Heard;
  }

  lemma WriteTogether(x: Handler, a: Conn, y: Handler, b: Conn, pipes: nat, toB: bool, msg: Message)
    requires Together(x, a, y, b, pipes) && x.pc.Piping? && Fwd(x.pc, toB) == Carrying(msg)
    ensures Together((if toB then x else x.(out := x.out + [Forwarded(msg)])).(pc := SetFwd(x.pc, toB, Idle)), a,
                     if toB then y.(out := y.out + [Forwarded(msg)]) else y, b, pipes)
  {
    hide Forwards;
    ForwardsAppend(if toB then y.out else x.out, Forwarded(msg));
  }

  // ----- the steps of a handler that has a role

  /** A handler without a role hears and yields nothing in this step, and only handler h moves. */
  ghost predicate OnlyMoves(s: Relay, t: Relay, h: Conn) {
    && |t.handlers| == |s.handlers|
    && forall c :: 0 <= c < |s.handlers| ==>
      && (c == h || t.handlers[c].pc == s.handlers[c].pc)
      && (s.handlers[c].role == NoRole ==>
        t.handlers[c].out == s.handlers[c].out && t.handlers[c].yielded == s.handlers[c].yielded)
  }

  lemma StaysFresh(s: Relay, t: Relay, h: Conn)
    requires PairInv(s) && OnlyMoves(s, t, h)
    requires h < |t.handlers| ==> t.handlers[h].pc != Joining && t.handlers[h].pc != Holding
    ensures AllFresh(t)
  {
    hide FirstOk, SecondOk, PipeOk, RoomOk, TableOk, PairOk;
    forall c | 0 <= c < |t.handlers| ensures Fresh(t.handlers[c]) {
      assert Fresh(s.handlers[c]) && HandlerOk(s, c);
    }
  }

  /** A step of handler h that only moves it on, within its room. */
  lemma MovePairs(s: Relay, t: Relay, h: Conn)
    requires PairInv(s) && Inv(t) && h < |s.handlers| == |t.handlers| && s.handlers[h].role != NoRole && IsHandler(s, h)
    requires t.handlers == s.handlers[h := t.handlers[h]]
    requires t.handlers[h].pc != Joining && t.handlers[h].pc != Holding
    requires |t.rooms| == |s.rooms|
    requires forall r :: 0 <= r < |s.rooms| && Some(r) != s.handlers[h].room ==> t.rooms[r] == s.rooms[r]
    requires s.handlers[h].room.Some? ==> PairOk(t, s.handlers[h].room.value)
    ensures PairInv(t)
  {
    hide PairOk, Inv, RoomOk, HandlerOk;
    SeatIs(s, h);
    StaysFresh(s, t, h);
    PairLocal(s, t, s.handlers[h].room.value);
  }

  lemma GreetPairs(s: Relay, h: Conn)
    requires PairInv(s) && Enabled(s, Greet(h)) && Inv(Apply(s, Greet(h)))
    ensures PairInv(Apply(s, Greet(h)))
  {
    var t := Apply(s, Greet(h));
    assert HandlerOk(s, h);
    SeatIs(s, h);
    var q := s.handlers[h].room.value;
    assert PairOk(s, q);
    var r := s.rooms[q];
    if !r.expired && r.seconds != [] {
      GreetTogether(s.handlers[h], h, s.handlers[r.seconds[0]], r.seconds[0], r.pipes);
    }
    MovePairs(s, t, h);
  }

  /** Two clients that do not greet or wait alone are together. */
  lemma RoomPair(s: Relay, h: Conn)
    requires PairInv(s) && h < |s.handlers| && IsHandler(s, h) && s.handlers[h].room.Some? && !RoomOf(s, h).expired
    requires s.handlers[h].role == Second
      || (s.handlers[h].role == First && (RoomOf(s, h).ready || s.handlers[h].pc.Piping?))
    ensures var r := RoomOf(s, h);
      && |r.firsts| == 1 && |r.seconds| == 1 && r.first == Some(r.firsts[0]) && r.second == Some(r.seconds[0])
      && r.firsts[0] < |s.handlers| && r.seconds[0] < |s.handlers| && r.firsts[0] != r.seconds[0]
      && Together(s.handlers[r.firsts[0]], r.firsts[0], s.handlers[r.seconds[0]], r.seconds[0], r.pipes)
  {
    hide Together, Alone, TableOk, Fresh;
    assert HandlerOk(s, h) && RoomOk(s, s.handlers[h].room.value) && PairOk(s, s.handlers[h].room.value);
  }

  /** The steps in which a first client moves on. */
  predicate ByFirst(e: Step, h: Conn) {
    || e == Wake(h) || e == ReadSlots(h) || (e.FwdEnd? && e.h == h)
    || e == PipeEnd(h) || e == Delete(h) || e == CloseDone(h)
  }

  /** The first client moves on. */
  lemma ProceedPairs(s: Relay, e: Step, h: Conn)
    requires PairInv(s) && Enabled(s, e) && Inv(Apply(s, e)) && h < |s.handlers| && s.handlers[h].role == First
    requires ByFirst(e, h)
    ensures PairInv(Apply(s, e))
  {
    var t := Apply(s, e);
    SeatIs(s, h);
    var q := s.handlers[h].room.value;
    if !s.rooms[q].expired {
      ProceedPair(s, e, h);
    }
    ProceedMoves(s, e, h);
    MovePairs(s, t, h);
  }

  lemma ProceedMoves(s: Relay, e: Step, h: Conn)
    requires Enabled(s, e) && h < |s.handlers| && s.handlers[h].role == First && s.handlers[h].room.Some?
    requires IsHandler(s, h)
    requires ByFirst(e, h)
    ensures var t := Apply(s, e);
      && |t.rooms| == |s.rooms| && |t.handlers| == |s.handlers| && t.handlers == s.handlers[h := t.handlers[h]]
      && t.handlers[h] == s.handlers[h].(pc := t.handlers[h].pc)
      && t.handlers[h].pc != Joining && t.handlers[h].pc != Holding
      && (forall r :: 0 <= r < |s.rooms| && Some(r) != s.handlers[h].room ==> t.rooms[r] == s.rooms[r])
      && (s.rooms[s.handlers[h].room.value].expired ==> t.rooms[s.handlers[h].room.value].expired)
  {
  }

  lemma ProceedPair(s: Relay, e: Step, h: Conn)
    requires PairInv(s) && Enabled(s, e) && h < |s.handlers| && s.handlers[h].role == First
    requires IsHandler(s, h) && s.handlers[h].room.Some? && !RoomOf(s, h).expired
    requires ByFirst(e, h)
    ensures s.handlers[h].room.value < |Apply(s, e).rooms| && PairOk(Apply(s, e), s.handlers[h].room.value)
  {
    hide Together, Alone, SecondOk, PipeOk, RoomOk, HandlerOk, Inv, Apply, AllFresh;
    HandlerAt(s, h);
    FirstReady(s, e, h);
    SeatIs(s, h);
    RoomPair(s, h);
    var r := RoomOf(s, h);
    var b := r.seconds[0];
    ProceedMoves(s, e, h);
    ProceedRoom(s, e, h, b);
    ProceedTogether(s.handlers[h], Apply(s, e).handlers[h].pc, h, s.handlers[b], b, r.pipes);
  }

  /** By then ready is closed. */
  lemma FirstReady(s: Relay, e: Step, h: Conn)
    requires Enabled(s, e) && ByFirst(e, h) && h < |s.handlers| && HandlerOk(s, h) && s.handlers[h].role == First
    ensures IsHandler(s, h) && s.handlers[h].room.Some? && RoomOf(s, h).ready
  {
    hide PipeOk, SecondOk;
  }

  /** Its place, and its room, after the step. */
  lemma ProceedRoom(s: Relay, e: Step, h: Conn, b: Conn)
    requires Enabled(s, e) && ByFirst(e, h) && h < |s.handlers| && s.handlers[h].role == First
    requires IsHandler(s, h) && s.handlers[h].room.Some?
    requires RoomOf(s, h).first == Some(h) && RoomOf(s, h).second == Some(b)
    ensures var t := Apply(s, e); var q := s.handlers[h].room.value; var x := s.rooms[q];
      && h < |t.handlers| && q < |t.rooms| && Proceeds(s.handlers[h].pc, t.handlers[h].pc, h, b)
      && t.rooms[q] == x.(done := t.rooms[q].done, pipes := if s.handlers[h].pc == Woken then x.pipes + 1 else x.pipes)
  {
  }

  /** The second client moves on. */
  lemma SecondPairs(s: Relay, e: Step, h: Conn)
    requires PairInv(s) && Enabled(s, e) && Inv(Apply(s, e)) && h < |s.handlers| && s.handlers[h].role == Second
    requires (e.Leave? && e.h == h) || e == Delete(h)
    ensures PairInv(Apply(s, e))
  {
    hide Inv, PairOk, AllFresh, Apply;
    SeatIs(s, h);
    SecondMoves(s, e, h);
    SecondPair(s, e, h);
    MovePairs(s, Apply(s, e), h);
  }

  lemma SecondMoves(s: Relay, e: Step, h: Conn)
    requires Enabled(s, e) && h < |s.handlers| && s.handlers[h].role == Second
    requires (e.Leave? && e.h == h) || e == Delete(h)
    ensures var t := Apply(s, e);
      && t.rooms == s.rooms && |t.handlers| == |s.handlers| && t.handlers == s.handlers[h := t.handlers[h]]
      && t.handlers[h] == s.handlers[h].(pc := t.handlers[h].pc)
      && t.handlers[h].pc != Joining && t.handlers[h].pc != Holding
  {
  }

  lemma SecondPair(s: Relay, e: Step, h: Conn)
    requires PairInv(s) && Enabled(s, e) && h < |s.handlers| && s.handlers[h].role == Second
    requires IsHandler(s, h) && s.handlers[h].room.Some?
    requires (e.Leave? && e.h == h) || e == Delete(h)
    ensures s.handlers[h].room.value < |Apply(s, e).rooms| && PairOk(Apply(s, e), s.handlers[h].room.value)
  {
    hide Inv, Alone, Together, Apply, AllFresh;
    SecondMoves(s, e, h);
    SeatIs(s, h);
    var q := s.handlers[h].room.value;
    if !s.rooms[q].expired {
      RoomPair(s, h);
      var a, pc := s.rooms[q].firsts[0], Apply(s, e).handlers[h].pc;
      SecondTogether(s.handlers[a], a, s.handlers[h], h, s.rooms[q].pipes, pc);
    }
  }

  lemma SecondTogether(x: Handler, a: Conn, y: Handler, b: Conn, pipes: nat, pc: Pc)
    requires Together(x, a, y, b, pipes)
    ensures Together(x, a, y.(pc := pc), b, pipes)
  {
    hide Flow, Heard, FirstHeard;
  }

  // ----- forwarding

  lemma FwdReadPairs(s: Relay, h: Conn, toB: bool, msg: Message)
    requires PairInv(s) && Enabled(s, FwdRead(h, toB, msg)) && Inv(Apply(s, FwdRead(h, toB, msg)))
    ensures PairInv(Apply(s, FwdRead(h, toB, msg)))
  {
    var t := Apply(s, FwdRead(h, toB, msg));
    FwdSeats(s, h);
    var q := s.handlers[h].room.value;
    if !s.rooms[q].expired {
      RoomPair(s, h);
      SeatIs(s, h);
      var b := s.rooms[q].seconds[0];
      ReadTogether(s.handlers[h], h, s.handlers[b], b, s.rooms[q].pipes, toB, msg);
      FwdReadPair(s, h, b, toB, msg);
    }
    FwdReadApart(s, h, toB, msg, q);
    StaysFresh(s, t, h);
    PairLocal(s, t, q);
  }

  /** The ends of a pipe are a first and a second client of the pipe's room. */
  lemma FwdSeats(s: Relay, h: Conn)
    requires Inv(s) && h < |s.handlers| && s.handlers[h].pc.Piping?
    ensures s.handlers[h].role == First && s.handlers[h].room.Some? && IsHandler(s, h)
    ensures PipeOk(s, s.handlers[h].pc, s.handlers[h].room.value)
  {
    hide RoomOk, TableOk, FirstOk, SecondOk;
    assert HandlerOk(s, h);
  }

  lemma FwdReadApart(s: Relay, h: Conn, toB: bool, msg: Message, q: RoomId)
    requires Enabled(s, FwdRead(h, toB, msg)) && s.handlers[h].room == Some(q) && s.handlers[h].role == First
    requires PipeOk(s, s.handlers[h].pc, q)
    ensures var t := Apply(s, FwdRead(h, toB, msg));
      Apart(s, t, q) && OnlyMoves(s, t, h) && t.handlers[h].pc.Piping? && t.rooms == s.rooms
  {
  }

  lemma FwdReadPair(s: Relay, h: Conn, b: Conn, toB: bool, msg: Message)
    requires Enabled(s, FwdRead(h, toB, msg)) && b < |s.handlers| && b != h && s.handlers[h].pc.a == h
    requires s.handlers[h].pc.b == b
    ensures var t := Apply(s, FwdRead(h, toB, msg));
      && t.rooms == s.rooms && |t.handlers| == |s.handlers|
      && t.handlers[h] ==
        (if toB then s.handlers[h].(yielded := s.handlers[h].yielded + [msg]) else s.handlers[h])
          .(pc := SetFwd(s.handlers[h].pc, toB, Carrying(msg)))
      && t.handlers[b] == if toB then s.handlers[b] else s.handlers[b].(yielded := s.handlers[b].yielded + [msg])
  {
  }

  lemma FwdWritePairs(s: Relay, h: Conn, toB: bool)
    requires PairInv(s) && Enabled(s, FwdWrite(h, toB)) && Inv(Apply(s, FwdWrite(h, toB)))
    ensures PairInv(Apply(s, FwdWrite(h, toB)))
  {
    var t := Apply(s, FwdWrite(h, toB));
    FwdSeats(s, h);
    var q := s.handlers[h].room.value;
    if !s.rooms[q].expired {
      RoomPair(s, h);
      SeatIs(s, h);
      var b := s.rooms[q].seconds[0];
      WriteTogether(s.handlers[h], h, s.handlers[b], b, s.rooms[q].pipes, toB, Fwd(s.handlers[h].pc, toB).msg);
      FwdWritePair(s, h, b, toB);
    }
    FwdWriteApart(s, h, toB, q);
    StaysFresh(s, t, h);
    PairLocal(s, t, q);
  }

  lemma FwdWriteApart(s: Relay, h: Conn, toB: bool, q: RoomId)
    requires Enabled(s, FwdWrite(h, toB)) && s.handlers[h].room == Some(q) && s.handlers[h].role == First
    requires PipeOk(s, s.handlers[h].pc, q)
    ensures var t := Apply(s, FwdWrite(h, toB));
      Apart(s, t, q) && OnlyMoves(s, t, h) && t.handlers[h].pc.Piping? && t.rooms == s.rooms
  {
  }

  lemma FwdWritePair(s: Relay, h: Conn, b: Conn, toB: bool)
    requires Enabled(s, FwdWrite(h, toB)) && b < |s.handlers| && b != h && s.handlers[h].pc.a == h
    requires s.handlers[h].pc.b == b
    ensures var t := Apply(s, FwdWrite(h, toB)); var m := Forwarded(Fwd(s.handlers[h].pc, toB).msg);
      && t.rooms == s.rooms && |t.handlers| == |s.handlers|
      && t.handlers[h] ==
        (if toB then s.handlers[h] else s.handlers[h].(out := s.handlers[h].out + [m]))
          .(pc := SetFwd(s.handlers[h].pc, toB, Idle))
      && t.handlers[b] == if toB then s.handlers[b].(out := s.handlers[b].out + [m]) else s.handlers[b]
  {
  }

  // ----- cleanup

  lemma CleanupPairs(s: Relay, e: Step)
    requires PairInv(s) && Enabled(s, e) && Inv(Apply(s, e))
    requires e.Sweep? || e.WatchFire? || e.ExpireTask? || e.DoneTask?
    ensures PairInv(Apply(s, e))
  {
    hide RoomOk, HandlerOk, TableOk, Together, Alone;
    var t := Apply(s, e);
    if e.ExpireTask? {
      assert PairOk(t, e.r);
      PairLocal(s, t, e.r);
    } else if e.DoneTask? {
      PairKept(s, t, e.r);
      PairLocal(s, t, e.r);
    } else {
      PairLocal(s, t, |s.rooms|);
    }
  }

  lemma StepPairs(s: Relay, e: Step)
    requires PairInv(s) && Enabled(s, e)
    ensures PairInv(Apply(s, e))
  {
    hide Apply, PairOk, RoomOk, TableOk, HandlerOk, AllFresh;
    StepKeeps(s, e);
    match e
    case Connect(name) => ConnectPairs(s, name);
    case Register(h) => RegisterPairs(s, h);
    case TakeSlot(h) => TakeSlotPairs(s, h);
    case Greet(h) => GreetPairs(s, h);
    case FwdRead(h, toB, msg) => FwdReadPairs(s, h, toB, msg);
    case FwdWrite(h, toB) => FwdWritePairs(s, h, toB);
    case Sweep(_) => CleanupPairs(s, e);
    case WatchFire(_) => CleanupPairs(s, e);
    case ExpireTask(_, _, _) => CleanupPairs(s, e);
    case DoneTask(_) => CleanupPairs(s, e);
    case Leave(h, _) =>
      HasRole(s, e, h);
      SecondPairs(s, e, h);
    case Delete(h) =>
      HasRole(s, e, h);
      if s.handlers[h].role == First {
        ProceedPairs(s, e, h);
      } else {
        SecondPairs(s, e, h);
      }
    case _ =>
      HasRole(s, e, e.h);
      ProceedPairs(s, e, e.h);
  }

  /** Which client takes which step. */
  lemma HasRole(s: Relay, e: Step, h: Conn)
    requires Inv(s) && Enabled(s, e)
    requires ByFirst(e, h) || (e.Leave? && e.h == h)
    ensures h < |s.handlers|
    ensures e.Leave? ==> s.handlers[h].role == Second
    ensures e.Delete? ==> s.handlers[h].role != NoRole
    ensures !e.Leave? && !e.Delete? ==> s.handlers[h].role == First
  {
    hide FirstOk, SecondOk, PipeOk, RoomOk, TableOk;
    assert HandlerOk(s, h);
  }

  lemma {:induction false} RunPairs(maxRooms: nat, steps: seq<Step>, states: seq<Relay>, n: nat)
    requires IsRun(maxRooms, steps, states) && n <= |steps|
    ensures PairInv(states[n])
  {
    hide *;
    RunShape(maxRooms, steps, states);
    if n > 0 {
      RunPairs(maxRooms, steps, states, n - 1);
      RunStep(maxRooms, steps, states, n);
      StepPairs(states[n - 1], steps[n - 1]);
    } else {
      InitPairs(maxRooms);
    }
  }

  lemma InitPairs(maxRooms: nat)
    ensures PairInv(Init(maxRooms))
  {
  }

  // ----- pairing

  /** A pipe with ends a and b runs for room r, in handler h. */
  predicate Pipes(s: Relay, h: Conn, r: RoomId, a: Conn, b: Conn) {
    && h < |s.handlers| && s.handlers[h].room == Some(r)
    && s.handlers[h].pc.Piping? && s.handlers[h].pc.a == a && s.handlers[h].pc.b == b
  }

  /**
   * What src's connection yielded after its join begins with what dst was forwarded, and at most one message is on
   * its way.
   */
  ghost predicate Streams(src: Handler, dst: Handler) {
    Forwards(dst.out) <= src.yielded && |src.yielded| <= |Forwards(dst.out)| + 1
  }

  /** The control messages of both clients come before anything that is forwarded. */
  ghost predicate ControlsFirst(first: Handler, second: Handler) {
    && (Heard(first.out, [Waiting, PairedSender]) || Heard(first.out, [PairedSender, Waiting]))
    && Heard(second.out, [PairedReceiver])
  }

  /** In a room that never expired, the one pipe ever started joins the one first and the one second client. */
  lemma OnePipe(maxRooms: nat, steps: seq<Step>, states: seq<Relay>, n: nat, r: RoomId)
    requires IsRun(maxRooms, steps, states) && n <= |steps| && r < |states[n].rooms| && !states[n].rooms[r].expired
    ensures var x := states[n].rooms[r];
      && |x.firsts| <= 1 && |x.seconds| <= 1 && x.pipes <= 1
      && (x.pipes == 1 ==> |x.firsts| == 1 && |x.seconds| == 1)
      && (x.firsts != [] ==>
        && x.firsts[0] < |states[n].handlers|
        && (x.pipes == 1 <==> !Early(states[n].handlers[x.firsts[0]].pc)))
      && forall h: Conn, a: Conn, b: Conn :: Pipes(states[n], h, r, a, b) ==>
        x.pipes == 1 && x.firsts == [a] && x.seconds == [b] && h == a
  {
    hide HandlerOk, TableOk, FirstHeard, Heard, Flow;
    RunPairs(maxRooms, steps, states, n);
    var s := states[n];
    var x := s.rooms[r];
    assert RoomOk(s, r) && PairOk(s, r);
    forall h: Conn, a: Conn, b: Conn | Pipes(s, h, r, a, b)
      ensures x.pipes == 1 && x.firsts == [a] && x.seconds == [b] && h == a
    {
      FwdSeats(s, h);
      SeatIs(s, h);
      RoomPair(s, h);
    }
  }

  /** Whoever is in a room that never expired has been forwarded only what the other client sent after its join. */
  lemma PairStreams(maxRooms: nat, steps: seq<Step>, states: seq<Relay>, n: nat, r: RoomId)
    requires IsRun(maxRooms, steps, states) && n <= |steps| && r < |states[n].rooms| && !states[n].rooms[r].expired
    requires states[n].rooms[r].seconds != []
    ensures var s := states[n]; var x := s.rooms[r];
      && x.firsts != [] && x.firsts[0] < |s.handlers| && x.seconds[0] < |s.handlers| && x.firsts[0] != x.seconds[0]
      && Streams(s.handlers[x.firsts[0]], s.handlers[x.seconds[0]])
      && Streams(s.handlers[x.seconds[0]], s.handlers[x.firsts[0]])
      && (s.handlers[x.firsts[0]].pc != Greeting ==> ControlsFirst(s.handlers[x.firsts[0]], s.handlers[x.seconds[0]]))
      && (s.handlers[x.firsts[0]].pc == Greeting ==>
        s.handlers[x.firsts[0]].out == [PairedSender] && s.handlers[x.seconds[0]].out == [PairedReceiver])
  {
    hide HandlerOk, TableOk, Together, Streams, ControlsFirst;
    RunPairs(maxRooms, steps, states, n);
    var s := states[n];
    var x := s.rooms[r];
    assert RoomOk(s, r) && PairOk(s, r);
    TogetherStreams(s.handlers[x.firsts[0]], x.firsts[0], s.handlers[x.seconds[0]], x.seconds[0], x.pipes);
  }

  lemma TogetherStreams(x: Handler, a: Conn, y: Handler, b: Conn, pipes: nat)
    requires Together(x, a, y, b, pipes)
    ensures Streams(x, y) && Streams(y, x)
    ensures x.pc != Greeting ==> ControlsFirst(x, y)
    ensures x.pc == Greeting ==> x.out == [PairedSender] && y.out == [PairedReceiver]
  {
    if x.pc == Greeting {
      assert Forwards(y.out) == [];
      NothingForwarded(y.out, [PairedReceiver]);
    }
  }

  lemma ForwardsLast(out: seq<Out>)
    requires out != [] && out[|out| - 1].Forwarded?
    ensures Forwards(out) != []
  {
  }

  lemma NothingForwarded(out: seq<Out>, controls: seq<Out>)
    requires Heard(out, controls) && Forwards(out) == []
    ensures out == controls
  {
    hide Forwards;
    if |out| > |controls| {
      ForwardsLast(out);
    }
  }

  /** Expiry is for ever: a room that is not expired now never was. */
  lemma {:induction false} NeverWasExpired(
    maxRooms: nat, steps: seq<Step>, states: seq<Relay>, m: nat, n: nat, r: RoomId)
    requires IsRun(maxRooms, steps, states) && m <= n <= |steps| && r < |states[m].rooms|
    ensures r < |states[n].rooms| && (states[m].rooms[r].expired ==> states[n].rooms[r].expired)
    decreases n
  {
    hide *;
    RunShape(maxRooms, steps, states);
    if m < n {
      NeverWasExpired(maxRooms, steps, states, m, n - 1, r);
      RunStep(maxRooms, steps, states, n);
      ExpiredStays(states[n - 1], steps[n - 1], r);
    }
  }

  lemma ExpiredStays(s: Relay, e: Step, r: RoomId)
    requires Enabled(s, e) && r < |s.rooms|
    ensures r < |Apply(s, e).rooms| && (s.rooms[r].expired ==> Apply(s, e).rooms[r].expired)
  {
    hide Apply;
    if e.TakeSlot? {
      TakeSlotExpired(s, e.h, r);
    } else if e.FwdRead? || e.FwdWrite? {
      ForwardExpired(s, e);
    } else {
      OtherExpired(s, e, r);
    }
  }

  lemma TakeSlotExpired(s: Relay, h: Conn, r: RoomId)
    requires Enabled(s, TakeSlot(h)) && r < |s.rooms|
    ensures var t := Apply(s, TakeSlot(h)); r < |t.rooms| && (s.rooms[r].expired ==> t.rooms[r].expired)
  {
  }

  lemma ForwardExpired(s: Relay, e: Step)
    requires Enabled(s, e) && (e.FwdRead? || e.FwdWrite?)
    ensures Apply(s, e).rooms == s.rooms
  {
  }

  lemma OtherExpired(s: Relay, e: Step, r: RoomId)
    requires Enabled(s, e) && r < |s.rooms| && !e.TakeSlot? && !e.FwdRead? && !e.FwdWrite?
    ensures r < |Apply(s, e).rooms| && (s.rooms[r].expired ==> Apply(s, e).rooms[r].expired)
  {
    hide DoRegister;
    if e.Register? {
      RegisterExpired(s, e.h, r);
    }
  }

  lemma RegisterExpired(s: Relay, h: Conn, r: RoomId)
    requires Enabled(s, Register(h)) && r < |s.rooms|
    ensures var t := DoRegister(s, h); r < |t.rooms| && t.rooms[r] == s.rooms[r]
  {
  }
}
