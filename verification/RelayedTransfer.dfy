/**
 * The sender, the relay's own room machine and the receiver together. The clients touch the relay only through their
 * connections: a pipe reads what a client sent, in order, and a client takes what was forwarded to it, in order. The
 * safety of the shutdown is carried over from the links to this machine.
 */
module RelayedTransfer {
  import opened Bytes
  import opened Limits
  import opened Aead
  import opened Batch
  import opened Receiver
  import opened Reception
  import opened RoundTrip
  import opened ReceivePath
  import opened Link
  import opened Rooms
  import opened RoomPairing
  import opened RoomLink
  import Shutdown
  import RoomInvariant

  type Msg = Shutdown.Msg

  /** How the clients' messages look to the relay, which does not read them. */
  datatype Coding = Coding(enc: Msg -> Message, dec: Message -> Msg)
  {
    ghost predicate Sound() {
      forall m :: dec(enc(m)) == m
    }
  }

  /** Room r with its two connections, and which of them is the sender's. */
  datatype Place = Place(r: RoomId, a: Conn, b: Conn, senderFirst: bool)
  {
    function From(): Conn {
      if senderFirst then a else b
    }

    function To(): Conn {
      if senderFirst then b else a
    }
  }

  /** A client's end of its connection: what it sent and no pipe has read yet, and how much it has taken. */
  datatype Client = Client(outbox: seq<Msg>, taken: nat)

  datatype Joint = Joint(
    relay: Relay, sender: Client, receiver: Client, sent: nat, doneSent: bool, senderClosed: bool, path: Path)

  datatype JointStep =
    | RelayStep(e: Rooms.Step)     // a handler, a pipe or cleanup
    | SenderSends                  // the next frame
    | SenderIsDone                 // transfer-done
    | SenderTakes
    | ReceiverTakes
    | ReceiverRuns(event: ReceivePath.Event)

  /** The step reads a message from connection c. */
  predicate ReadsFrom(s: Relay, e: Rooms.Step, c: Conn) {
    e.FwdRead? && InPipe(s, e.h) && Src(s.handlers[e.h].pc, e.toB) == c
  }

  /** What was forwarded to connection c so far. */
  function Inbox(s: Relay, c: Conn): seq<Message> {
    if c < |s.handlers| then Forwards(s.handlers[c].out) else []
  }

  /** A pipe reads what the client sent, and nothing else. */
  predicate FeedsFrom(code: Coding, s: Relay, e: Rooms.Step, c: Conn, client: Client) {
    ReadsFrom(s, e, c) ==> client.outbox != [] && e.msg == code.enc(client.outbox[0])
  }

  function AfterStep(s: Relay, e: Rooms.Step, c: Conn, client: Client): Client {
    if ReadsFrom(s, e, c) && client.outbox != [] then client.(outbox := client.outbox[1..]) else client
  }

  predicate CanStep(frames: seq<Frame>, p: Place, code: Coding, j: Joint, x: JointStep) {
    match x
    case RelayStep(e) =>
      && Rooms.Enabled(j.relay, e)
      && FeedsFrom(code, j.relay, e, p.From(), j.sender) && FeedsFrom(code, j.relay, e, p.To(), j.receiver)
    case SenderSends => j.sent < |frames|
    case SenderIsDone => j.sent == |frames| && !j.doneSent
    case SenderTakes => j.sender.taken < |Inbox(j.relay, p.From())|
    case ReceiverTakes => j.receiver.taken < |Inbox(j.relay, p.To())|
    case ReceiverRuns(e) => (e == Bind(Mode.Relay) || e.SetupDone? || e.Run?) && ReceivePath.Enabled(j.path, e)
  }

  function Push(c: Client, m: Msg): Client {
    c.(outbox := c.outbox + [m])
  }

  function Took(c: Client): Client {
    c.(taken := c.taken + 1)
  }

  function DoStep(c: Session, frames: seq<Frame>, p: Place, code: Coding, j: Joint, x: JointStep): Joint
    requires CanStep(frames, p, code, j, x)
  {
    match x
    case RelayStep(e) =>
      j.(relay := Rooms.Apply(j.relay, e), sender := AfterStep(j.relay, e, p.From(), j.sender),
         receiver := AfterStep(j.relay, e, p.To(), j.receiver))
    case SenderSends => j.(sender := Push(j.sender, Shutdown.Data(frames[j.sent])), sent := j.sent + 1)
    case SenderIsDone => j.(sender := Push(j.sender, Shutdown.TransferDone), doneSent := true)
    case SenderTakes =>
      var m := code.dec(Inbox(j.relay, p.From())[j.sender.taken]);
      j.(sender := Took(j.sender), senderClosed := j.senderClosed || m == Shutdown.TransferAck)
    case ReceiverTakes =>
      var m := code.dec(Inbox(j.relay, p.To())[j.receiver.taken]);
      j.(receiver := Took(j.receiver),
         path := if m.Data? then ReceivePath.Apply(c, j.path, WsBinary(m.frame)) else j.path)
    case ReceiverRuns(e) =>
      var path := ReceivePath.Apply(c, j.path, e);
      j.(path := path,
         receiver := if path.acks > j.path.acks then Push(j.receiver, Shutdown.TransferAck) else j.receiver)
  }

  /** The transfer begins while the pair's pipe has nothing in its hands and both clients have taken what came. */
  ghost predicate Begins(p: Place, j: Joint) {
    && PairOf(j.relay, p.r, p.a, p.b) && p.a < |j.relay.handlers|
    && Lane(j.relay.handlers[p.a].pc, true) == Idle && Lane(j.relay.handlers[p.a].pc, false) == Idle
    && j == Joint(
      j.relay, Client([], |Inbox(j.relay, p.From())|), Client([], |Inbox(j.relay, p.To())|), 0, false, false, FRESH)
  }

  // ----- the links behind it

  function Enc(code: Coding, ms: seq<Msg>): (r: seq<Message>)
    ensures |r| == |ms| && forall i :: 0 <= i < |r| ==> r[i] == code.enc(ms[i])
  {
    seq(|ms|, i requires 0 <= i < |ms| => code.enc(ms[i]))
  }

  /** The link of a direction as the relay sees it: after all that went through the pipe before the transfer. */
  function Seen(code: Coding, pre: seq<Message>, l: Link<Msg>): Link<Message> {
    Link(
      pre + Enc(code, l.pushed), Enc(code, l.up), if l.held.Some? then Some(code.enc(l.held.value)) else None,
      Enc(code, l.down), pre + Enc(code, l.got), l.open)
  }

  /** A direction of the joint machine is that link. */
  ghost predicate Carried(
    code: Coding, s: Relay, p: Place, toB: bool, pre: seq<Message>, l: Link<Msg>, from: Client, to: Client)
  {
    && from.outbox == l.up && to.taken == |pre| + |l.got|
    && Agrees(s, Seen(code, pre, l), p.a, p.b, toB)
  }

  /** What went through before the transfer, in both directions. */
  datatype Before = Before(forth: seq<Message>, back: seq<Message>)

  ghost predicate Related(code: Coding, p: Place, before: Before, j: Joint, s: Shutdown.System) {
    && s.sent == j.sent && s.doneSent == j.doneSent && s.senderClosed == j.senderClosed && s.path == j.path
    && Carried(code, j.relay, p, p.senderFirst, before.forth, s.forth, j.sender, j.receiver)
    && Carried(code, j.relay, p, !p.senderFirst, before.back, s.back, j.receiver, j.sender)
  }

  function Coded(code: Coding, x: LinkStep<Msg>): LinkStep<Message> {
    match x
    case Push(m) => LinkStep<Message>.Push(code.enc(m))
    case Read => Read
    case Write => Write
    case Deliver => Deliver
    case Break(kept) => Break(kept)
  }

  lemma EncAppend(code: Coding, ms: seq<Msg>, m: Msg)
    ensures Enc(code, ms + [m]) == Enc(code, ms) + [code.enc(m)]
  {
  }

  /** Coding commutes with the steps of a link. */
  lemma SeenApply(code: Coding, pre: seq<Message>, l: Link<Msg>, x: LinkStep<Msg>)
    requires LinkEnabled(l, x)
    ensures LinkEnabled(Seen(code, pre, l), Coded(code, x))
    ensures LinkApply(Seen(code, pre, l), Coded(code, x)) == Seen(code, pre, LinkApply(l, x))
  {
    var k := LinkApply(l, x);
    match x
    case Push(m) =>
      EncAppend(code, l.pushed, m);
      EncAppend(code, l.up, m);
      assert pre + (Enc(code, l.pushed) + [code.enc(m)]) == pre + Enc(code, l.pushed) + [code.enc(m)];
    case Read => assert Enc(code, k.up) == Enc(code, l.up)[1..];
    case Write => EncAppend(code, l.down, l.held.value);
    case Deliver =>
      EncAppend(code, l.got, l.down[0]);
      assert Enc(code, k.down) == Enc(code, l.down)[1..];
      assert pre + (Enc(code, l.got) + [code.enc(l.down[0])]) == pre + Enc(code, l.got) + [code.enc(l.down[0])];
    case Break(kept) => assert Enc(code, k.down) == Enc(code, l.down)[..kept];
  }

  /** The step of the link behind a step of the relay. */
  function Behind(l: Link<Msg>, e: Rooms.Step, a: Conn, toB: bool): Option<LinkStep<Msg>> {
    match e
    case FwdRead(h, d, _) => if h == a && d == toB then Some(Read) else None
    case FwdWrite(h, d) => if h == a && d == toB then Some(Write) else None
    case FwdEnd(h, d, _) => if h == a && d == toB then Some(Break(|l.down|)) else None
    case _ => None
  }

  lemma BehindCoded(code: Coding, pre: seq<Message>, l: Link<Msg>, e: Rooms.Step, a: Conn, toB: bool)
    ensures var x := Behind(l, e, a, toB); var y := StepOf(Seen(code, pre, l), e, a, toB);
      (x.Some? <==> y.Some?) && (x.Some? ==> y.value == Coded(code, x.value))
    ensures var x := Behind(l, e, a, toB);
      x.Some? && LinkEnabled(Seen(code, pre, l), Coded(code, x.value)) ==> LinkEnabled(l, x.value)
  {
  }

  // ----- steps of the relay

  /** Only the pair's own pipe reads its connections, each in its direction. */
  lemma ReadsOwn(s: Relay, p: Place, e: Rooms.Step, toB: bool)
    requires PairInv(s) && PairOf(s, p.r, p.a, p.b) && Rooms.Enabled(s, e)
    ensures ReadsFrom(s, e, if toB then p.a else p.b) <==> e.FwdRead? && e.h == p.a && e.toB == toB
  {
    hide PairInv;
    InvOf(s);
    Seated(s, p.r, p.a, p.b);
    if e.FwdRead? {
      if e.h == p.a {
        OwnPipe(s, p.r, p.a, p.b);
      } else {
        OtherPipe(s, e.h, p.r, p.a, p.b);
      }
    }
  }

  lemma InvOf(s: Relay)
    requires PairInv(s)
    ensures RoomInvariant.Inv(s)
  {
  }

  function LinkAfter(l: Link<Msg>, e: Rooms.Step, a: Conn, toB: bool): Link<Msg> {
    var x := Behind(l, e, a, toB);
    if x.Some? && LinkEnabled(l, x.value) then LinkApply(l, x.value) else l
  }

  lemma CarriedOn(
    code: Coding, s: Relay, p: Place, toB: bool, pre: seq<Message>, l: Link<Msg>, from: Client, to: Client,
    e: Rooms.Step)
    requires PairInv(s) && PairOf(s, p.r, p.a, p.b) && Rooms.Enabled(s, e)
    requires Carried(code, s, p, toB, pre, l, from, to)
    requires FeedsFrom(code, s, e, if toB then p.a else p.b, from)
    ensures Behind(l, e, p.a, toB).Some? ==> LinkEnabled(l, Behind(l, e, p.a, toB).value)
    ensures Carried(code, Rooms.Apply(s, e), p, toB, pre, LinkAfter(l, e, p.a, toB),
      AfterStep(s, e, if toB then p.a else p.b, from), to)
  {
    hide PairInv, PairOf, Rooms.Enabled, Rooms.Apply, Agrees, ReadsFrom, LinkApply, LinkEnabled, Simulates;
    ReadsOwn(s, p, e, toB);
    SimulatesSeen(code, s, p, toB, pre, l, e);
    BehindCoded(code, pre, l, e, p.a, toB);
    LinkAfterUp(l, e, p.a, toB);
    var x := Behind(l, e, p.a, toB);
    if x.Some? {
      SimulatesSome(code, s, p, toB, pre, l, e);
      SeenApply(code, pre, l, x.value);
    } else {
      SimulatesNone(code, s, p, toB, pre, l, e);
    }
  }

  lemma SimulatesSeen(
    code: Coding, s: Relay, p: Place, toB: bool, pre: seq<Message>, l: Link<Msg>, e: Rooms.Step)
    requires PairInv(s) && PairOf(s, p.r, p.a, p.b) && Rooms.Enabled(s, e)
    requires Agrees(s, Seen(code, pre, l), p.a, p.b, toB)
    requires e.FwdRead? && e.h == p.a && e.toB == toB ==> l.up != [] && e.msg == code.enc(l.up[0])
    ensures Simulates(s, e, Rooms.Apply(s, e), Seen(code, pre, l), p.a, p.b, toB)
  {
    hide PairInv, PairOf, Rooms.Enabled, Rooms.Apply, Agrees, Simulates;
    StepSimulates(s, e, Seen(code, pre, l), p.r, p.a, p.b, toB);
  }

  lemma SimulatesSome(
    code: Coding, s: Relay, p: Place, toB: bool, pre: seq<Message>, l: Link<Msg>, e: Rooms.Step)
    requires Rooms.Enabled(s, e) && Simulates(s, e, Rooms.Apply(s, e), Seen(code, pre, l), p.a, p.b, toB)
    requires Behind(l, e, p.a, toB).Some?
    ensures var y := Coded(code, Behind(l, e, p.a, toB).value);
      && LinkEnabled(Seen(code, pre, l), y)
      && Agrees(Rooms.Apply(s, e), LinkApply(Seen(code, pre, l), y), p.a, p.b, toB)
  {
    hide Rooms.Enabled, Rooms.Apply, Agrees, LinkApply, LinkEnabled;
    BehindCoded(code, pre, l, e, p.a, toB);
  }

  lemma SimulatesNone(
    code: Coding, s: Relay, p: Place, toB: bool, pre: seq<Message>, l: Link<Msg>, e: Rooms.Step)
    requires Rooms.Enabled(s, e) && Simulates(s, e, Rooms.Apply(s, e), Seen(code, pre, l), p.a, p.b, toB)
    requires Behind(l, e, p.a, toB).None?
    ensures Agrees(Rooms.Apply(s, e), Seen(code, pre, l), p.a, p.b, toB)
  {
    hide Rooms.Enabled, Rooms.Apply, Agrees, LinkApply, LinkEnabled;
    BehindCoded(code, pre, l, e, p.a, toB);
  }

  lemma LinkAfterUp(l: Link<Msg>, e: Rooms.Step, a: Conn, toB: bool)
    ensures var k := LinkAfter(l, e, a, toB);
      k.got == l.got && (!(e.FwdRead? && e.h == a && e.toB == toB) ==> k.up == l.up)
    ensures e.FwdRead? && e.h == a && e.toB == toB && LinkEnabled(l, Read) ==> LinkAfter(l, e, a, toB).up == l.up[1..]
  {
  }

  /** A client's own step at its end leaves the other end of a direction alone. */
  lemma SameEnds(
    code: Coding, s: Relay, p: Place, toB: bool, pre: seq<Message>, l: Link<Msg>, from: Client, to: Client,
    from': Client, to': Client)
    requires Carried(code, s, p, toB, pre, l, from, to) && from'.outbox == from.outbox && to'.taken == to.taken
    ensures Carried(code, s, p, toB, pre, l, from', to')
  {
  }

  lemma RelayRelated(
    c: Session, frames: seq<Frame>, p: Place, code: Coding, before: Before, j: Joint, s: Shutdown.System, e: Rooms.Step)
    returns (t: Shutdown.System)
    requires PairInv(j.relay) && PairOf(j.relay, p.r, p.a, p.b)
    requires Related(code, p, before, j, s) && Shutdown.Inv(c, frames, s)
    requires CanStep(frames, p, code, j, RelayStep(e))
    ensures Related(code, p, before, DoStep(c, frames, p, code, j, RelayStep(e)), t) && Shutdown.Inv(c, frames, t)
  {
    hide PairInv, PairOf, Rooms.Enabled, Rooms.Apply, Carried, FeedsFrom, AfterStep, LinkAfter, Behind;
    hide Shutdown.Inv, LinkEnabled;
    CarriedOn(code, j.relay, p, p.senderFirst, before.forth, s.forth, j.sender, j.receiver, e);
    CarriedOn(code, j.relay, p, !p.senderFirst, before.back, s.back, j.receiver, j.sender, e);
    t := s.(
      forth := LinkAfter(s.forth, e, p.a, p.senderFirst), back := LinkAfter(s.back, e, p.a, !p.senderFirst));
    LinksKeep(c, frames, s, e, p.a, p.senderFirst);
    var k := DoStep(c, frames, p, code, j, RelayStep(e));
    AfterStepTaken(j.relay, e, p.From(), j.sender);
    AfterStepTaken(j.relay, e, p.To(), j.receiver);
    SameEnds(code, k.relay, p, p.senderFirst, before.forth, t.forth, k.sender, j.receiver, k.sender, k.receiver);
    SameEnds(code, k.relay, p, !p.senderFirst, before.back, t.back, k.receiver, j.sender, k.receiver, k.sender);
  }

  lemma AfterStepTaken(s: Relay, e: Rooms.Step, c: Conn, client: Client)
    ensures AfterStep(s, e, c, client).taken == client.taken
  {
  }

  /** A step of the relay moves at most one of the two links. */
  lemma LinksKeep(c: Session, frames: seq<Frame>, s: Shutdown.System, e: Rooms.Step, a: Conn, toB: bool)
    requires Shutdown.Inv(c, frames, s)
    ensures Shutdown.Inv(c, frames, s.(forth := LinkAfter(s.forth, e, a, toB), back := LinkAfter(s.back, e, a, !toB)))
  {
    hide Shutdown.Inv;
    var x, y := Behind(s.forth, e, a, toB), Behind(s.back, e, a, !toB);
    assert x.None? || y.None?;
    if x.Some? && LinkEnabled(s.forth, x.value) {
      Shutdown.PipeKeeps(c, frames, s, true, x.value);
    } else if y.Some? && LinkEnabled(s.back, y.value) {
      Shutdown.PipeKeeps(c, frames, s, false, y.value);
    }
  }

  // ----- steps of the clients

  lemma PushCarried(
    code: Coding, s: Relay, p: Place, toB: bool, pre: seq<Message>, l: Link<Msg>, from: Client, to: Client, m: Msg)
    requires Carried(code, s, p, toB, pre, l, from, to)
    ensures Carried(code, s, p, toB, pre, LinkApply(l, LinkStep<Msg>.Push(m)), Push(from, m), to)
  {
    hide Agrees, Seen;
    SeenApply(code, pre, l, LinkStep<Msg>.Push(m));
    ClientsAgree(s, Seen(code, pre, l), LinkStep<Message>.Push(code.enc(m)), p.a, p.b, toB);
  }

  /** What a client takes is what its link delivers. */
  lemma TakeCarried(
    code: Coding, s: Relay, p: Place, toB: bool, pre: seq<Message>, l: Link<Msg>, from: Client, to: Client)
    requires Carried(code, s, p, toB, pre, l, from, to)
    requires to.taken < |Inbox(s, if toB then p.b else p.a)|
    ensures l.down != [] && Inbox(s, if toB then p.b else p.a)[to.taken] == code.enc(l.down[0])
    ensures Carried(code, s, p, toB, pre, LinkApply(l, Deliver), from, Took(to))
  {
    InboxIs(code, s, p, toB, pre, l);
    hide Agrees, Seen;
    SeenApply(code, pre, l, Deliver);
    ClientsAgree(s, Seen(code, pre, l), Deliver, p.a, p.b, toB);
  }

  lemma InboxIs(code: Coding, s: Relay, p: Place, toB: bool, pre: seq<Message>, l: Link<Msg>)
    requires Agrees(s, Seen(code, pre, l), p.a, p.b, toB)
    ensures Inbox(s, if toB then p.b else p.a) == pre + Enc(code, l.got) + Enc(code, l.down)
  {
  }

  /** The action of the shutdown behind a client's step. */
  function ActionOf(x: JointStep): Shutdown.Action
    requires !x.RelayStep?
  {
    match x
    case SenderSends => Shutdown.SendFrame
    case SenderIsDone => Shutdown.SendDone
    case SenderTakes => Shutdown.SenderGets
    case ReceiverTakes => Shutdown.ReceiverGets
    case ReceiverRuns(e) => Shutdown.ReceiverRuns(e)
  }

  lemma ClientRelated(
    c: Session, frames: seq<Frame>, p: Place, code: Coding, before: Before, j: Joint, s: Shutdown.System, x: JointStep)
    requires code.Sound() && Related(code, p, before, j, s) && CanStep(frames, p, code, j, x) && !x.RelayStep?
    ensures Shutdown.CanAct(frames, s, ActionOf(x))
    ensures Related(code, p, before, DoStep(c, frames, p, code, j, x), Shutdown.Act(c, frames, s, ActionOf(x)))
  {
    match x
    case SenderSends => SendsRelated(c, frames, p, code, before, j, s, x, Shutdown.Data(frames[j.sent]));
    case SenderIsDone => SendsRelated(c, frames, p, code, before, j, s, x, Shutdown.TransferDone);
    case SenderTakes => SenderTakesRelated(c, frames, p, code, before, j, s);
    case ReceiverTakes => ReceiverTakesRelated(c, frames, p, code, before, j, s);
    case ReceiverRuns(e) => RunsRelated(c, frames, p, code, before, j, s, e);
  }

  lemma SendsRelated(
    c: Session, frames: seq<Frame>, p: Place, code: Coding, before: Before, j: Joint, s: Shutdown.System, x: JointStep,
    m: Msg)
    requires Related(code, p, before, j, s) && CanStep(frames, p, code, j, x)
    requires (x.SenderSends? && m == Shutdown.Data(frames[j.sent])) || (x.SenderIsDone? && m == Shutdown.TransferDone)
    ensures Shutdown.CanAct(frames, s, ActionOf(x))
    ensures Related(code, p, before, DoStep(c, frames, p, code, j, x), Shutdown.Act(c, frames, s, ActionOf(x)))
  {
    hide Carried;
    PushCarried(code, j.relay, p, p.senderFirst, before.forth, s.forth, j.sender, j.receiver, m);
    SameEnds(
      code, j.relay, p, !p.senderFirst, before.back, s.back, j.receiver, j.sender, j.receiver, Push(j.sender, m));
  }

  lemma SenderTakesRelated(
    c: Session, frames: seq<Frame>, p: Place, code: Coding, before: Before, j: Joint, s: Shutdown.System)
    requires code.Sound() && Related(code, p, before, j, s) && CanStep(frames, p, code, j, SenderTakes)
    ensures Shutdown.CanAct(frames, s, Shutdown.SenderGets)
    ensures Related(
      code, p, before, DoStep(c, frames, p, code, j, SenderTakes), Shutdown.Act(c, frames, s, Shutdown.SenderGets))
  {
    hide Carried, Inbox;
    TakeCarried(code, j.relay, p, !p.senderFirst, before.back, s.back, j.receiver, j.sender);
    SameEnds(
      code, j.relay, p, p.senderFirst, before.forth, s.forth, j.sender, j.receiver, Took(j.sender), j.receiver);
    assert code.dec(code.enc(s.back.down[0])) == s.back.down[0];
  }

  lemma ReceiverTakesRelated(
    c: Session, frames: seq<Frame>, p: Place, code: Coding, before: Before, j: Joint, s: Shutdown.System)
    requires code.Sound() && Related(code, p, before, j, s) && CanStep(frames, p, code, j, ReceiverTakes)
    ensures Shutdown.CanAct(frames, s, Shutdown.ReceiverGets)
    ensures Related(
      code, p, before, DoStep(c, frames, p, code, j, ReceiverTakes), Shutdown.Act(c, frames, s, Shutdown.ReceiverGets))
  {
    hide Carried, Inbox, ReceivePath.Apply;
    TakeCarried(code, j.relay, p, p.senderFirst, before.forth, s.forth, j.sender, j.receiver);
    SameEnds(
      code, j.relay, p, !p.senderFirst, before.back, s.back, j.receiver, j.sender, Took(j.receiver), j.sender);
    assert code.dec(code.enc(s.forth.down[0])) == s.forth.down[0];
  }

  lemma RunsRelated(
    c: Session, frames: seq<Frame>, p: Place, code: Coding, before: Before, j: Joint, s: Shutdown.System,
    e: ReceivePath.Event)
    requires Related(code, p, before, j, s) && CanStep(frames, p, code, j, ReceiverRuns(e))
    ensures Shutdown.CanAct(frames, s, Shutdown.ReceiverRuns(e))
    ensures Related(
      code, p, before, DoStep(c, frames, p, code, j, ReceiverRuns(e)),
      Shutdown.Act(c, frames, s, Shutdown.ReceiverRuns(e)))
  {
    hide Carried, ReceivePath.Apply, ReceivePath.Enabled;
    var m := Shutdown.TransferAck;
    PushCarried(code, j.relay, p, !p.senderFirst, before.back, s.back, j.receiver, j.sender, m);
    SameEnds(
      code, j.relay, p, p.senderFirst, before.forth, s.forth, j.sender, j.receiver, j.sender, Push(j.receiver, m));
  }

  // ----- whole runs

  /**
   * js[n] is the machine after n steps. The relay starts in a state some run of it reaches, and the room does not
   * expire.
   */
  ghost predicate IsJointRun(
    c: Session, frames: seq<Frame>, p: Place, code: Coding, steps: seq<JointStep>, js: seq<Joint>)
  {
    && |js| == |steps| + 1 && Begins(p, js[0]) && Reached(js[0].relay)
    && (forall n :: 0 <= n < |steps| ==>
      CanStep(frames, p, code, js[n], steps[n]) && js[n + 1] == DoStep(c, frames, p, code, js[n], steps[n]))
    && (forall n :: 0 <= n < |js| ==> Lives(js[n].relay, p.r))
  }

  ghost predicate Reached(s: Relay) {
    exists maxRooms, steps, states :: Rooms.IsRun(maxRooms, steps, states) && states[|steps|] == s
  }

  predicate Lives(s: Relay, r: RoomId) {
    r < |s.rooms| && !s.rooms[r].expired
  }

  lemma ReachedPairs(s: Relay)
    requires Reached(s)
    ensures PairInv(s)
  {
    var maxRooms, steps, states :| Rooms.IsRun(maxRooms, steps, states) && states[|steps|] == s;
    hide *;
    RunPairs(maxRooms, steps, states, |steps|);
  }

  /** At the start the links are empty, behind what went through the pipe before. */
  lemma StartRelated(p: Place, code: Coding, j: Joint) returns (before: Before)
    requires PairInv(j.relay) && Begins(p, j)
    ensures Related(code, p, before, j, Shutdown.START_SYSTEM)
  {
    var s := j.relay;
    InvOf(s);
    Seated(s, p.r, p.a, p.b);
    before := Before(Inbox(s, p.To()), Inbox(s, p.From()));
    StartFlows(s, p, true);
    StartFlows(s, p, false);
    hide PairInv, Forwards, PairOf;
  }

  lemma StartFlows(s: Relay, p: Place, toB: bool)
    requires PairInv(s) && PairOf(s, p.r, p.a, p.b) && p.a < |s.handlers| && p.b < |s.handlers|
    requires Lane(s.handlers[p.a].pc, toB) == Idle
    ensures s.handlers[if toB then p.a else p.b].yielded == Inbox(s, if toB then p.b else p.a)
  {
    hide Forwards, Heard, FirstHeard, AllFresh;
    InvOf(s);
    assert PairOk(s, p.r);
  }

  lemma StepRelated(
    b: Batch, frames: seq<Frame>, p: Place, code: Coding, before: Before, j: Joint, s: Shutdown.System, x: JointStep)
    returns (t: Shutdown.System)
    requires ValidBatch(b) && Carries(b, frames) && code.Sound()
    requires PairInv(j.relay) && PairOf(j.relay, p.r, p.a, p.b)
    requires Related(code, p, before, j, s) && Shutdown.Inv(SessionOf(b), frames, s)
    requires CanStep(frames, p, code, j, x)
    ensures Related(code, p, before, DoStep(SessionOf(b), frames, p, code, j, x), t)
    ensures Shutdown.Inv(SessionOf(b), frames, t)
  {
    hide *;
    if x.RelayStep? {
      t := RelayRelated(SessionOf(b), frames, p, code, before, j, s, x.e);
    } else {
      ClientRelated(SessionOf(b), frames, p, code, before, j, s, x);
      Shutdown.ActKeeps(b, frames, s, ActionOf(x));
      t := Shutdown.Act(SessionOf(b), frames, s, ActionOf(x));
    }
  }

  lemma RelayLives(
    c: Session, frames: seq<Frame>, p: Place, code: Coding, j: Joint, x: JointStep)
    requires PairInv(j.relay) && PairOf(j.relay, p.r, p.a, p.b) && CanStep(frames, p, code, j, x)
    requires Lives(DoStep(c, frames, p, code, j, x).relay, p.r)
    ensures PairInv(DoStep(c, frames, p, code, j, x).relay)
    ensures PairOf(DoStep(c, frames, p, code, j, x).relay, p.r, p.a, p.b)
  {
    hide PairInv, PairOf, Rooms.Apply, Rooms.Enabled, ReceivePath.Apply;
    if x.RelayStep? {
      InvOf(j.relay);
      StepPairs(j.relay, x.e);
      PairStays(j.relay, x.e, p.r, p.a, p.b);
    }
  }

  lemma RunStep(
    c: Session, frames: seq<Frame>, p: Place, code: Coding, steps: seq<JointStep>, js: seq<Joint>, n: nat)
    requires IsJointRun(c, frames, p, code, steps, js) && 0 < n <= |steps|
    ensures |js| == |steps| + 1 && CanStep(frames, p, code, js[n - 1], steps[n - 1])
    ensures js[n] == DoStep(c, frames, p, code, js[n - 1], steps[n - 1]) && Lives(js[n].relay, p.r)
  {
    hide CanStep, DoStep, Begins, Reached, Lives;
    assert js[n - 1 + 1] == DoStep(c, frames, p, code, js[n - 1], steps[n - 1]);
  }

  lemma RunBegins(
    c: Session, frames: seq<Frame>, p: Place, code: Coding, steps: seq<JointStep>, js: seq<Joint>)
    requires IsJointRun(c, frames, p, code, steps, js)
    ensures |js| == |steps| + 1 && Begins(p, js[0]) && PairInv(js[0].relay)
    ensures PairOf(js[0].relay, p.r, p.a, p.b)
  {
    hide CanStep, DoStep, Lives, PairInv;
    ReachedPairs(js[0].relay);
  }

  /** At every moment the joint machine is a state of the shutdown's system, with its invariant. */
  lemma {:induction false} RunRelated(
    b: Batch, frames: seq<Frame>, p: Place, code: Coding, steps: seq<JointStep>, js: seq<Joint>, n: nat)
    returns (before: Before, s: Shutdown.System)
    requires ValidBatch(b) && Carries(b, frames) && code.Sound()
    requires IsJointRun(SessionOf(b), frames, p, code, steps, js) && n <= |steps|
    ensures |js| == |steps| + 1 && PairInv(js[n].relay) && PairOf(js[n].relay, p.r, p.a, p.b)
    ensures Related(code, p, before, js[n], s) && Shutdown.Inv(SessionOf(b), frames, s)
  {
    hide *;
    RunBegins(SessionOf(b), frames, p, code, steps, js);
    if n == 0 {
      before := StartRelated(p, code, js[0]);
      s := Shutdown.START_SYSTEM;
      Shutdown.StartInv(b, frames);
    } else {
      before, s := RunRelated(b, frames, p, code, steps, js, n - 1);
      RunStep(SessionOf(b), frames, p, code, steps, js, n);
      s := StepRelated(b, frames, p, code, before, js[n - 1], s, steps[n - 1]);
      RelayLives(SessionOf(b), frames, p, code, js[n - 1], steps[n - 1]);
    }
  }

  /**
   * Through the relay's own room machine, whatever the other rooms do: the sender closes only after the receiver has
   * handled every frame without a fault and the user holds every file, and the receiver acknowledges once at most.
   */
  lemma RelayedShutdownSafe(
    b: Batch, frames: seq<Frame>, p: Place, code: Coding, steps: seq<JointStep>, js: seq<Joint>, n: nat)
    requires ValidBatch(b) && Carries(b, frames) && code.Sound()
    requires IsJointRun(SessionOf(b), frames, p, code, steps, js) && n <= |steps|
    ensures |js| == |steps| + 1 && Shutdown.Safe(b, frames, js[n].path, js[n].senderClosed)
  {
    hide Shutdown.Safe, Shutdown.Inv, IsJointRun, Carried, ValidBatch, Carries;
    var before, s := RunRelated(b, frames, p, code, steps, js, n);
    Shutdown.InvSafe(b, frames, s);
  }
}
