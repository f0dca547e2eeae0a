/**
 * The two directions of a pipe in the room machine are links: each step of a room that never expired reads, writes or
 * breaks the link of a direction, or leaves it alone. So what is proved of a link holds of the relay's own machine.
 */
module RoomLink {
  import opened Bytes
  import opened Rooms
  import opened RoomInvariant
  import opened RoomPairing
  import opened RoomSockets
  import opened Link

  /** The link agrees with direction `lane`, which reads from src and writes to dst. */
  ghost predicate Mirrors(l: Link<Message>, src: Handler, dst: Handler, lane: Forward) {
    && l.pushed == src.yielded + l.up
    && l.got + l.down == Forwards(dst.out)
    && (l.open <==> !lane.Ended?)
    && (lane == Idle ==> l.held == None)
    && (lane.Carrying? ==> l.held == Some(lane.msg))
  }

  /** Connections a and b are the clients of room r, which has not expired. */
  ghost predicate PairOf(s: Relay, r: RoomId, a: Conn, b: Conn) {
    r < |s.rooms| && !s.rooms[r].expired && s.rooms[r].firsts == [a] && s.rooms[r].seconds == [b]
  }

  /** The link agrees with the direction from a to b, or from b to a. */
  ghost predicate Agrees(s: Relay, l: Link<Message>, a: Conn, b: Conn, toB: bool) {
    && a < |s.handlers| && b < |s.handlers|
    && var x := s.handlers[a]; var y := s.handlers[b];
       Mirrors(l, if toB then x else y, if toB then y else x, Lane(x.pc, toB))
  }

  /** What a step of the relay is for the link of a direction. */
  function StepOf(l: Link<Message>, e: Step, a: Conn, toB: bool): Option<LinkStep<Message>> {
    match e
    case FwdRead(h, d, _) => if h == a && d == toB then Some(Read) else None
    case FwdWrite(h, d) => if h == a && d == toB then Some(Write) else None
    case FwdEnd(h, d, _) => if h == a && d == toB then Some(Break(|l.down|)) else None
    case _ => None
  }

  /** A connection yields what its client sent, in order: the relay reads the head of what is under way. */
  predicate Yields(l: Link<Message>, e: Step, a: Conn, toB: bool) {
    e.FwdRead? && e.h == a && e.toB == toB ==> l.up != [] && e.msg == l.up[0]
  }

  // ----- what a step does to the talk of a connection

  predicate SameTalk(x: Handler, y: Handler) {
    x.yielded == y.yielded && Forwards(x.out) == Forwards(y.out)
  }

  lemma TalkAppend(x: Handler, y: Handler)
    requires y.yielded == x.yielded
    requires y.out == x.out || exists m: Out :: !m.Forwarded? && y.out == x.out + [m]
    ensures SameTalk(x, y)
  {
    if y.out != x.out {
      var m: Out :| !m.Forwarded? && y.out == x.out + [m];
      ForwardsAppend(x.out, m);
    }
  }

  ghost predicate Appends(x: Handler, y: Handler) {
    y.yielded == x.yielded && (y.out == x.out || exists m: Out :: !m.Forwarded? && y.out == x.out + [m])
  }

  /** Only forwarding changes what is yielded or forwarded. */
  lemma OtherTalk(s: Relay, e: Step, c: Conn)
    requires Enabled(s, e) && !e.FwdRead? && !e.FwdWrite? && c < |s.handlers|
    requires e.TakeSlot? ==> RoomOf(s, e.h).first != Some(e.h)
    ensures c < |Apply(s, e).handlers| && Appends(s.handlers[c], Apply(s, e).handlers[c])
  {
    if e.TakeSlot? {
      TakeSlotTalk(s, e.h, c);
    } else {
      MoveTalk(s, e, c);
    }
  }

  lemma TakeSlotTalk(s: Relay, h: Conn, c: Conn)
    requires Enabled(s, TakeSlot(h)) && c < |s.handlers| && RoomOf(s, h).first != Some(h)
    ensures c < |Apply(s, TakeSlot(h)).handlers| && Appends(s.handlers[c], Apply(s, TakeSlot(h)).handlers[c])
  {
    var y := Apply(s, TakeSlot(h)).handlers[c];
    assert y.out == s.handlers[c].out || y.out == s.handlers[c].out + [PairedSender]
      || y.out == s.handlers[c].out + [PairedReceiver] || y.out == s.handlers[c].out + [Full];
  }

  lemma MoveTalk(s: Relay, e: Step, c: Conn)
    requires Enabled(s, e) && !e.FwdRead? && !e.FwdWrite? && !e.TakeSlot? && c < |s.handlers|
    ensures c < |Apply(s, e).handlers| && Appends(s.handlers[c], Apply(s, e).handlers[c])
  {
    hide Appends;
    if e.Register? || e.Greet? {
      SpeakTalk(s, e, c);
    } else if Actor(e).Some? {
      SilentTalk(s, e, c);
    } else {
      CleanupTalk(s, e, c);
    }
  }

  lemma SpeakTalk(s: Relay, e: Step, c: Conn)
    requires Enabled(s, e) && (e.Register? || e.Greet?) && c < |s.handlers|
    ensures c < |Apply(s, e).handlers| && Appends(s.handlers[c], Apply(s, e).handlers[c])
  {
    var y := Apply(s, e).handlers[c];
    assert y.out == s.handlers[c].out || y.out == s.handlers[c].out + [Busy] || y.out == s.handlers[c].out + [Waiting];
  }

  lemma SilentTalk(s: Relay, e: Step, c: Conn)
    requires Enabled(s, e) && !e.FwdRead? && !e.FwdWrite? && !e.TakeSlot? && !e.Register? && !e.Greet?
    requires c < |s.handlers| && Actor(e).Some?
    ensures c < |Apply(s, e).handlers| && Appends(s.handlers[c], Apply(s, e).handlers[c])
  {
  }

  lemma CleanupTalk(s: Relay, e: Step, c: Conn)
    requires Enabled(s, e) && c < |s.handlers| && Actor(e).None?
    ensures c < |Apply(s, e).handlers| && Appends(s.handlers[c], Apply(s, e).handlers[c])
  {
  }

  /** The newcomer is not yet in a slot. */
  lemma NotYet(s: Relay, h: Conn)
    requires Inv(s) && Enabled(s, TakeSlot(h))
    ensures s.handlers[h].room.Some? && RoomOf(s, h).first != Some(h)
  {
    assert HandlerOk(s, h) && RoomOk(s, s.handlers[h].room.value);
  }

  lemma StepTalk(s: Relay, e: Step, c: Conn)
    requires Inv(s) && Enabled(s, e) && !e.FwdRead? && !e.FwdWrite? && c < |s.handlers|
    ensures c < |Apply(s, e).handlers| && SameTalk(s.handlers[c], Apply(s, e).handlers[c])
  {
    hide Inv, Enabled, Apply, SameTalk, RoomOf;
    if e.TakeSlot? {
      NotYet(s, e.h);
    }
    OtherTalk(s, e, c);
    TalkAppend(s.handlers[c], Apply(s, e).handlers[c]);
  }

  // ----- what a step does to the first client's place

  /** A step of the first client, forwarding and ends aside, does not change which directions run. */
  lemma OwnLanes(s: Relay, e: Step, a: Conn, r: RoomId, toB: bool)
    requires Inv(s) && Enabled(s, e) && a < |s.handlers| && Actor(e) == Some(a) && !e.FwdRead? && !e.FwdWrite?
    requires !e.FwdEnd?
    requires s.handlers[a].role == First && s.handlers[a].room == Some(r) && r < |s.rooms|
    requires s.rooms[r].first.Some? && s.rooms[r].second.Some?
    ensures a < |Apply(s, e).handlers| && Lane(Apply(s, e).handlers[a].pc, toB) == Lane(s.handlers[a].pc, toB)
  {
    hide RoomOk, TableOk, PipeOk, SecondOk;
    assert HandlerOk(s, a);
  }

  /** In a room that did not expire, the pair is seated as the pairing invariant says. */
  lemma Seated(s: Relay, r: RoomId, a: Conn, b: Conn)
    requires Inv(s) && PairOf(s, r, a, b)
    ensures InRoom(s, a, r, First) && InRoom(s, b, r, Second) && a != b
    ensures s.rooms[r].first == Some(a) && s.rooms[r].second == Some(b)
  {
    assert RoomOk(s, r);
    assert a in s.rooms[r].firsts && b in s.rooms[r].seconds;
  }

  /** A pipe other than the pair's has other ends. */
  lemma OtherPipe(s: Relay, h: Conn, r: RoomId, a: Conn, b: Conn)
    requires Inv(s) && PairOf(s, r, a, b) && h != a && InPipe(s, h)
    ensures s.handlers[h].pc.a != a && s.handlers[h].pc.a != b && s.handlers[h].pc.b != a && s.handlers[h].pc.b != b
    ensures h != b
  {
    Seated(s, r, a, b);
    FwdSeats(s, h);
    SeatIs(s, h);
  }

  /** The pair's own pipe has the pair as its ends. */
  lemma OwnPipe(s: Relay, r: RoomId, a: Conn, b: Conn)
    requires PairInv(s) && PairOf(s, r, a, b) && InPipe(s, a)
    ensures s.handlers[a].pc.a == a && s.handlers[a].pc.b == b && a != b && b < |s.handlers|
  {
    hide PairOk, Together, RoomOk, HandlerOk;
    FwdSeats(s, a);
    Seated(s, r, a, b);
    RoomPair(s, a);
    TogetherEnds(s.handlers[a], a, s.handlers[b], b, s.rooms[r].pipes);
  }

  lemma TogetherEnds(x: Handler, a: Conn, y: Handler, b: Conn, pipes: nat)
    requires Together(x, a, y, b, pipes) && x.pc.Piping?
    ensures x.pc.a == a && x.pc.b == b
  {
  }

  // ----- each step is a step of the link, or none

  lemma TalkMirrors(l: Link<Message>, src: Handler, dst: Handler, u: Handler, v: Handler, lane: Forward)
    requires Mirrors(l, src, dst, lane) && SameTalk(src, u) && SameTalk(dst, v)
    ensures Mirrors(l, u, v, lane)
    ensures Mirrors(l.(open := false, down := l.down[..|l.down|]), u, v, Ended)
  {
    assert l.down[..|l.down|] == l.down;
  }

  lemma ReadMirrors(l: Link<Message>, src: Handler, dst: Handler, u: Handler, v: Handler, m: Message)
    requires Mirrors(l, src, dst, Idle) && l.up != [] && l.up[0] == m
    requires u.yielded == src.yielded + [m] && v.out == dst.out
    ensures LinkEnabled(l, Read) && Mirrors(LinkApply(l, Read), u, v, Carrying(m))
  {
    hide Forwards;
    assert [l.up[0]] + l.up[1..] == l.up;
  }

  lemma SameMirrors(l: Link<Message>, src: Handler, dst: Handler, u: Handler, v: Handler, lane: Forward)
    requires Mirrors(l, src, dst, lane) && u.yielded == src.yielded && v.out == dst.out
    ensures Mirrors(l, u, v, lane)
  {
    hide Forwards;
  }

  lemma WriteMirrors(l: Link<Message>, src: Handler, dst: Handler, u: Handler, v: Handler, m: Message)
    requires Mirrors(l, src, dst, Carrying(m))
    requires u.yielded == src.yielded && v.out == dst.out + [Forwarded(m)]
    ensures LinkEnabled(l, Write) && Mirrors(LinkApply(l, Write), u, v, Idle)
  {
    ForwardsAppend(dst.out, Forwarded(m));
    hide Forwards;
    assert l.got + (l.down + [m]) == (l.got + l.down) + [m];
  }

  /** The step of the relay, and the one it is for the link. */
  ghost predicate Simulates(
    s: Relay, e: Step, t: Relay, l: Link<Message>, a: Conn, b: Conn, toB: bool)
  {
    match StepOf(l, e, a, toB)
    case Some(x) => LinkEnabled(l, x) && Agrees(t, LinkApply(l, x), a, b, toB)
    case None => Agrees(t, l, a, b, toB)
  }

  lemma ForwardElsewhere(s: Relay, e: Step, l: Link<Message>, r: RoomId, a: Conn, b: Conn, toB: bool)
    requires Inv(s) && PairOf(s, r, a, b) && Enabled(s, e) && (e.FwdRead? || e.FwdWrite?) && e.h != a
    requires Agrees(s, l, a, b, toB)
    ensures Simulates(s, e, Apply(s, e), l, a, b, toB)
  {
    hide Inv, Mirrors;
    OtherPipe(s, e.h, r, a, b);
    Elsewhere(s, e, a);
    Elsewhere(s, e, b);
  }

  lemma Elsewhere(s: Relay, e: Step, c: Conn)
    requires Enabled(s, e) && (e.FwdRead? || e.FwdWrite?) && c < |s.handlers|
    requires s.handlers[e.h].pc.a != c && s.handlers[e.h].pc.b != c
    ensures c < |Apply(s, e).handlers| && SameHandler(s.handlers[c], Apply(s, e).handlers[c], e.h == c)
  {
  }

  ghost predicate SameHandler(x: Handler, y: Handler, own: bool) {
    x.yielded == y.yielded && x.out == y.out && (!own ==> x == y)
  }

  lemma ReadSimulates(s: Relay, l: Link<Message>, a: Conn, b: Conn, toB: bool, d: bool, msg: Message)
    requires Enabled(s, FwdRead(a, d, msg)) && b < |s.handlers| && b != a
    requires s.handlers[a].pc.a == a && s.handlers[a].pc.b == b
    requires Agrees(s, l, a, b, toB) && Yields(l, FwdRead(a, d, msg), a, toB)
    ensures Simulates(s, FwdRead(a, d, msg), Apply(s, FwdRead(a, d, msg)), l, a, b, toB)
  {
    hide Apply, Mirrors, LinkApply, LinkEnabled, Forwards;
    FwdReadPair(s, a, b, d, msg);
    var x, y, t := s.handlers[a], s.handlers[b], Apply(s, FwdRead(a, d, msg));
    var u, v := t.handlers[a], t.handlers[b];
    if d != toB {
      SameMirrors(
        l, if toB then x else y, if toB then y else x, if toB then u else v, if toB then v else u, Lane(x.pc, toB));
    } else {
      ReadMirrors(l, if toB then x else y, if toB then y else x, if toB then u else v, if toB then v else u, msg);
    }
  }

  lemma WriteSimulates(s: Relay, l: Link<Message>, a: Conn, b: Conn, toB: bool, d: bool)
    requires Enabled(s, FwdWrite(a, d)) && b < |s.handlers| && b != a
    requires s.handlers[a].pc.a == a && s.handlers[a].pc.b == b
    requires Agrees(s, l, a, b, toB)
    ensures Simulates(s, FwdWrite(a, d), Apply(s, FwdWrite(a, d)), l, a, b, toB)
  {
    hide Apply, Mirrors, LinkApply, LinkEnabled, Forwards;
    FwdWritePair(s, a, b, d);
    var x, y, t := s.handlers[a], s.handlers[b], Apply(s, FwdWrite(a, d));
    var u, v := t.handlers[a], t.handlers[b];
    if d != toB {
      SameMirrors(
        l, if toB then x else y, if toB then y else x, if toB then u else v, if toB then v else u, Lane(x.pc, toB));
    } else {
      WriteMirrors(
        l, if toB then x else y, if toB then y else x, if toB then u else v, if toB then v else u, Fwd(x.pc, d).msg);
    }
  }

  lemma EndSimulates(s: Relay, l: Link<Message>, a: Conn, b: Conn, toB: bool, d: bool, left: nat)
    requires Inv(s) && Enabled(s, FwdEnd(a, d, left)) && Agrees(s, l, a, b, toB) && a != b
    ensures Simulates(s, FwdEnd(a, d, left), Apply(s, FwdEnd(a, d, left)), l, a, b, toB)
  {
    var e := FwdEnd(a, d, left);
    EndLanes(s, a, d, left, toB);
    hide Inv, Enabled, Apply, Mirrors, SameTalk, Lane;
    StepTalk(s, e, a);
    StepTalk(s, e, b);
    var x, y, u, v := s.handlers[a], s.handlers[b], Apply(s, e).handlers[a], Apply(s, e).handlers[b];
    TalkMirrors(l, if toB then x else y, if toB then y else x, if toB then u else v, if toB then v else u,
      Lane(x.pc, toB));
  }

  lemma EndLanes(s: Relay, a: Conn, d: bool, left: nat, toB: bool)
    requires Enabled(s, FwdEnd(a, d, left)) && a < |s.handlers|
    ensures var t := Apply(s, FwdEnd(a, d, left));
      a < |t.handlers| && Lane(t.handlers[a].pc, toB) == if d == toB then Ended else Lane(s.handlers[a].pc, toB)
  {
  }

  lemma OtherSimulates(s: Relay, e: Step, l: Link<Message>, r: RoomId, a: Conn, b: Conn, toB: bool)
    requires Inv(s) && PairOf(s, r, a, b) && Enabled(s, e) && Agrees(s, l, a, b, toB)
    requires !e.FwdRead? && !e.FwdWrite? && (e.FwdEnd? ==> e.h != a)
    ensures Simulates(s, e, Apply(s, e), l, a, b, toB)
  {
    Seated(s, r, a, b);
    hide Inv, Enabled, Apply, Mirrors, SameTalk, Lane;
    StepTalk(s, e, a);
    StepTalk(s, e, b);
    if Actor(e) == Some(a) {
      OwnLanes(s, e, a, r, toB);
    } else {
      OtherStep(s, e, a);
    }
    var x, y, u, v := s.handlers[a], s.handlers[b], Apply(s, e).handlers[a], Apply(s, e).handlers[b];
    TalkMirrors(l, if toB then x else y, if toB then y else x, if toB then u else v, if toB then v else u,
      Lane(x.pc, toB));
  }

  /** Every step of the relay is, for each direction of a pair that never expired, one step of its link or none. */
  lemma StepSimulates(s: Relay, e: Step, l: Link<Message>, r: RoomId, a: Conn, b: Conn, toB: bool)
    requires PairInv(s) && PairOf(s, r, a, b) && Enabled(s, e) && Agrees(s, l, a, b, toB) && Yields(l, e, a, toB)
    ensures Simulates(s, e, Apply(s, e), l, a, b, toB)
  {
    hide Inv, Apply, Agrees, Simulates, Yields, AllFresh, PairOk, InPipe;
    Seated(s, r, a, b);
    if (e.FwdRead? || e.FwdWrite?) && e.h != a {
      ForwardElsewhere(s, e, l, r, a, b, toB);
    } else if e.FwdRead? {
      OwnPipe(s, r, a, b);
      ReadSimulates(s, l, a, b, toB, e.toB, e.msg);
    } else if e.FwdWrite? {
      OwnPipe(s, r, a, b);
      WriteSimulates(s, l, a, b, toB, e.toB);
    } else if e.FwdEnd? && e.h == a {
      EndSimulates(s, l, a, b, toB, e.toB, e.left);
    } else {
      OtherSimulates(s, e, l, r, a, b, toB);
    }
  }

  /** The links of a pair begin when its second client joins: empty, or holding what the client sends from then on. */
  lemma LinkBegins(s: Relay, l: Link<Message>, r: RoomId, a: Conn, b: Conn, toB: bool)
    requires PairInv(s) && PairOf(s, r, a, b) && a < |s.handlers| && Early(s.handlers[a].pc)
    requires l == NewLink().(pushed := l.up, up := l.up)
    ensures Agrees(s, l, a, b, toB)
  {
    Seated(s, r, a, b);
    hide Inv, Forwards, FirstHeard, Heard;
    assert PairOk(s, r);
  }

  /** The client at the sending end adds to its link, the one at the receiving end takes from it. */
  predicate ByClient(x: LinkStep<Message>) {
    x.Push? || x.Deliver?
  }

  /** Neither disturbs the relay. */
  lemma ClientsAgree(s: Relay, l: Link<Message>, x: LinkStep<Message>, a: Conn, b: Conn, toB: bool)
    requires Agrees(s, l, a, b, toB) && ByClient(x) && LinkEnabled(l, x)
    ensures Agrees(s, LinkApply(l, x), a, b, toB)
  {
    hide Forwards, Lane;
    var k := LinkApply(l, x);
    var src := s.handlers[if toB then a else b];
    if x.Push? {
      assert src.yielded + (l.up + [x.m]) == (src.yielded + l.up) + [x.m];
    } else {
      assert k.got + k.down == l.got + l.down;
    }
  }

  // ----- over a run

  lemma ClientsKept(s: Relay, e: Step, r: RoomId)
    requires Enabled(s, e) && r < |s.rooms|
    ensures r < |Apply(s, e).rooms|
    ensures s.rooms[r].firsts <= Apply(s, e).rooms[r].firsts && s.rooms[r].seconds <= Apply(s, e).rooms[r].seconds
  {
    hide Apply;
    if e.FwdRead? || e.FwdWrite? {
      ForwardExpired(s, e);
    } else if e.TakeSlot? {
      TakeSlotClients(s, e.h, r);
    } else if e.Register? {
      RegisterClients(s, e.h, r);
    } else if Actor(e).Some? {
      OtherClients(s, e, r);
    } else {
      CleanupClients(s, e, r);
    }
  }

  lemma CleanupClients(s: Relay, e: Step, r: RoomId)
    requires Enabled(s, e) && r < |s.rooms| && Actor(e).None?
    ensures r < |Apply(s, e).rooms| && Apply(s, e).rooms[r].firsts == s.rooms[r].firsts
    ensures Apply(s, e).rooms[r].seconds == s.rooms[r].seconds
  {
  }

  lemma TakeSlotClients(s: Relay, h: Conn, r: RoomId)
    requires Enabled(s, TakeSlot(h)) && r < |s.rooms|
    ensures var t := Apply(s, TakeSlot(h));
      r < |t.rooms| && s.rooms[r].firsts <= t.rooms[r].firsts && s.rooms[r].seconds <= t.rooms[r].seconds
  {
    var x, y := s.rooms[r], Apply(s, TakeSlot(h)).rooms[r];
    assert y == x || y == WithFirst(x, h) || y == WithSecond(x, h) by {
      hide WithFirst, WithSecond;
    }
  }

  lemma RegisterClients(s: Relay, h: Conn, r: RoomId)
    requires Enabled(s, Register(h)) && r < |s.rooms|
    ensures var t := Apply(s, Register(h));
      r < |t.rooms| && s.rooms[r].firsts <= t.rooms[r].firsts && s.rooms[r].seconds <= t.rooms[r].seconds
  {
  }

  lemma OtherClients(s: Relay, e: Step, r: RoomId)
    requires Enabled(s, e) && r < |s.rooms| && !e.TakeSlot? && !e.Register? && !e.FwdRead? && !e.FwdWrite?
    requires Actor(e).Some?
    ensures r < |Apply(s, e).rooms| && Apply(s, e).rooms[r].firsts == s.rooms[r].firsts
    ensures Apply(s, e).rooms[r].seconds == s.rooms[r].seconds
  {
  }

  lemma PairStays(s: Relay, e: Step, r: RoomId, a: Conn, b: Conn)
    requires Inv(s) && PairOf(s, r, a, b) && Enabled(s, e)
    requires r < |Apply(s, e).rooms| && !Apply(s, e).rooms[r].expired
    ensures PairOf(Apply(s, e), r, a, b)
  {
    hide Inv, Apply, Enabled;
    ClientsKept(s, e, r);
    StepKeeps(s, e);
    RoomAt(Apply(s, e), r);
    var x := Apply(s, e).rooms[r];
    assert x.firsts[..1] == [a] && x.seconds[..1] == [b];
  }

  lemma YieldedGrows(s: Relay, e: Step, c: Conn)
    requires Inv(s) && Enabled(s, e) && c < |s.handlers|
    ensures c < |Apply(s, e).handlers| && s.handlers[c].yielded <= Apply(s, e).handlers[c].yielded
  {
    hide Inv, Apply, Enabled;
    if e.FwdRead? || e.FwdWrite? {
      ForwardYielded(s, e, c);
    } else {
      StepTalk(s, e, c);
    }
  }

  lemma ForwardYielded(s: Relay, e: Step, c: Conn)
    requires Enabled(s, e) && (e.FwdRead? || e.FwdWrite?) && c < |s.handlers|
    ensures c < |Apply(s, e).handlers| && s.handlers[c].yielded <= Apply(s, e).handlers[c].yielded
  {
  }

  /** A link that holds all its client will ever send. */
  function Loaded(sent: seq<Message>): Link<Message> {
    NewLink().(pushed := sent, up := sent)
  }

  /** The link after one step of the relay. */
  ghost predicate Follows(l: Link<Message>, e: Step, a: Conn, toB: bool, k: Link<Message>) {
    match StepOf(l, e, a, toB)
    case Some(x) => LinkEnabled(l, x) && k == LinkApply(l, x)
    case None => k == l
  }

  /** links is a run of the link that goes with states[m..n]. */
  ghost predicate LinkRun(
    steps: seq<Step>, states: seq<Relay>, m: nat, n: nat, links: seq<Link<Message>>, sent: seq<Message>,
    a: Conn, b: Conn, toB: bool)
    requires m <= n <= |steps| && |states| == |steps| + 1
  {
    && |links| == n - m + 1 && links[0] == Loaded(sent)
    && (forall i :: 0 <= i <= n - m ==> Agrees(states[m + i], links[i], a, b, toB) && links[i].pushed == sent)
    && (forall i :: 0 <= i < n - m ==> Follows(links[i], steps[m + i], a, toB, links[i + 1]))
  }

  /** One more step. */
  lemma LinkFollows(
    s: Relay, e: Step, t: Relay, l: Link<Message>, r: RoomId, a: Conn, b: Conn, toB: bool, sent: seq<Message>)
    returns (k: Link<Message>)
    requires PairInv(s) && PairOf(s, r, a, b) && Enabled(s, e) && t == Apply(s, e)
    requires Agrees(s, l, a, b, toB) && l.pushed == sent
    requires (if toB then a else b) < |t.handlers| && t.handlers[if toB then a else b].yielded <= sent
    ensures Follows(l, e, a, toB, k) && Agrees(t, k, a, b, toB) && k.pushed == sent
  {
    YieldsNext(s, e, l, r, a, b, toB, sent);
    StepSimulates(s, e, l, r, a, b, toB);
    hide PairInv, Enabled, Apply, Agrees;
    var x := StepOf(l, e, a, toB);
    k := if x.Some? then LinkApply(l, x.value) else l;
  }

  lemma YieldsNext(
    s: Relay, e: Step, l: Link<Message>, r: RoomId, a: Conn, b: Conn, toB: bool, sent: seq<Message>)
    requires PairInv(s) && PairOf(s, r, a, b) && Enabled(s, e) && Agrees(s, l, a, b, toB) && l.pushed == sent
    requires (if toB then a else b) < |Apply(s, e).handlers|
    requires Apply(s, e).handlers[if toB then a else b].yielded <= sent
    ensures Yields(l, e, a, toB)
  {
    if e.FwdRead? && e.h == a && e.toB == toB {
      OwnPipe(s, r, a, b);
      FwdReadPair(s, a, b, toB, e.msg);
      hide PairInv, Enabled, Apply, Forwards, Lane;
      var src := s.handlers[if toB then a else b];
      assert sent[|src.yielded|] == e.msg;
    }
  }

  /**
   * In a room that has not expired by the end of the run, each direction of the pair is a link that starts with what
   * its client will send, and every step of the relay is one step of that link or none.
   */
  lemma {:induction false} RunLinks(
    maxRooms: nat, steps: seq<Step>, states: seq<Relay>, m: nat, n: nat, r: RoomId, a: Conn, b: Conn, toB: bool,
    sent: seq<Message>) returns (links: seq<Link<Message>>)
    requires IsRun(maxRooms, steps, states) && m <= n <= |steps|
    requires PairOf(states[m], r, a, b) && a < |states[m].handlers| && Early(states[m].handlers[a].pc)
    requires r < |states[n].rooms| && !states[n].rooms[r].expired
    requires (if toB then a else b) < |states[n].handlers|
    requires states[n].handlers[if toB then a else b].yielded <= sent
    ensures |states| == |steps| + 1 && LinkRun(steps, states, m, n, links, sent, a, b, toB)
    ensures PairOf(states[n], r, a, b)
    decreases n
  {
    hide PairInv, Inv, Enabled, Apply, Agrees, IsRun, Follows, Early;
    RunShape(maxRooms, steps, states);
    if m == n {
      links := [Loaded(sent)];
      RunPairs(maxRooms, steps, states, m);
      LinkBegins(states[m], links[0], r, a, b, toB);
    } else {
      RunPairs(maxRooms, steps, states, n - 1);
      RunInv(maxRooms, steps, states, n - 1);
      RunStep(maxRooms, steps, states, n);
      Earlier(maxRooms, steps, states, m, n, r, a, b, toB);
      var before := RunLinks(maxRooms, steps, states, m, n - 1, r, a, b, toB, sent);
      PairStays(states[n - 1], steps[n - 1], r, a, b);
      var k := LinkFollows(states[n - 1], steps[n - 1], states[n], before[n - 1 - m], r, a, b, toB, sent);
      links := before + [k];
      LinkRunOn(steps, states, m, n, before, k, sent, a, b, toB);
    }
  }

  lemma LinkRunOn(
    steps: seq<Step>, states: seq<Relay>, m: nat, n: nat, before: seq<Link<Message>>, k: Link<Message>,
    sent: seq<Message>, a: Conn, b: Conn, toB: bool)
    requires m < n <= |steps| && |states| == |steps| + 1
    requires LinkRun(steps, states, m, n - 1, before, sent, a, b, toB)
    requires Agrees(states[n], k, a, b, toB) && k.pushed == sent
    requires Follows(before[n - 1 - m], steps[n - 1], a, toB, k)
    ensures LinkRun(steps, states, m, n, before + [k], sent, a, b, toB)
  {
    hide Agrees, Follows;
    var links := before + [k];
    forall i | 0 <= i < n - m ensures Follows(links[i], steps[m + i], a, toB, links[i + 1]) {
      if i < n - m - 1 {
        assert links[i] == before[i] && links[i + 1] == before[i + 1];
      }
    }
  }

  /** The state before had the same pair, not expired, and its client had yielded no more. */
  lemma Earlier(
    maxRooms: nat, steps: seq<Step>, states: seq<Relay>, m: nat, n: nat, r: RoomId, a: Conn, b: Conn, toB: bool)
    requires IsRun(maxRooms, steps, states) && m < n <= |steps|
    requires PairOf(states[m], r, a, b) && a < |states[m].handlers|
    requires r < |states[n].rooms| && !states[n].rooms[r].expired && (if toB then a else b) < |states[n].handlers|
    ensures r < |states[n - 1].rooms| && !states[n - 1].rooms[r].expired
    ensures (if toB then a else b) < |states[n - 1].handlers|
    ensures states[n - 1].handlers[if toB then a else b].yielded <= states[n].handlers[if toB then a else b].yielded
  {
    hide PairInv, Inv, Enabled, Apply, IsRun;
    RunShape(maxRooms, steps, states);
    RunStep(maxRooms, steps, states, n);
    RunInv(maxRooms, steps, states, m);
    RunInv(maxRooms, steps, states, n - 1);
    NeverWasExpired(maxRooms, steps, states, m, n - 1, r);
    ExpiredStays(states[n - 1], steps[n - 1], r);
    Seated(states[m], r, a, b);
    HandlersGrow(maxRooms, steps, states, m, n - 1);
    YieldedGrows(states[n - 1], steps[n - 1], if toB then a else b);
  }

  lemma {:induction false} HandlersGrow(maxRooms: nat, steps: seq<Step>, states: seq<Relay>, m: nat, n: nat)
    requires IsRun(maxRooms, steps, states) && m <= n <= |steps|
    ensures |states| == |steps| + 1 && |states[m].handlers| <= |states[n].handlers|
    decreases n
  {
    hide *;
    RunShape(maxRooms, steps, states);
    if m < n {
      HandlersGrow(maxRooms, steps, states, m, n - 1);
      RunStep(maxRooms, steps, states, n);
      StepGrows(states[n - 1], steps[n - 1]);
    }
  }

  lemma StepGrows(s: Relay, e: Step)
    requires Enabled(s, e)
    ensures |s.handlers| <= |Apply(s, e).handlers|
  {
    hide Apply, Enabled;
    StepOthers(s, e);
  }

  /** And what is proved of links holds there: nothing is delivered that was not sent, in order, none twice. */
  lemma {:induction false} LinkRunOk(
    steps: seq<Step>, states: seq<Relay>, m: nat, n: nat, links: seq<Link<Message>>, sent: seq<Message>,
    a: Conn, b: Conn, toB: bool, i: nat)
    requires m <= n <= |steps| && |states| == |steps| + 1
    requires LinkRun(steps, states, m, n, links, sent, a, b, toB) && i <= n - m
    ensures LinkOk(links[i])
  {
    hide Agrees, LinkApply, LinkEnabled;
    if i == 0 {
      assert [] + [] + [] + sent == sent;
    } else {
      LinkRunOk(steps, states, m, n, links, sent, a, b, toB, i - 1);
      assert Follows(links[i - 1], steps[m + (i - 1)], a, toB, links[i - 1 + 1]);
      var x := StepOf(links[i - 1], steps[m + (i - 1)], a, toB);
      if x.Some? {
        LinkStepOk(links[i - 1], x.value);
      }
    }
  }
}
