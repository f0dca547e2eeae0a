/** The exchange of transfer-done and transfer-ack ends: no run has more than so many steps, link failures aside. */
module ShutdownEnds {
  import opened Bytes
  import opened Limits
  import opened Aead
  import opened Batch
  import opened Receiver
  import opened Reception
  import opened RoundTrip
  import opened ReceivePath
  import opened Link
  import opened Shutdown

  // ----- the steps a message has still before it

  function LinkWeight(l: Link<Msg>, up: nat, held: nat, down: nat): nat {
    up * |l.up| + (if l.held.Some? then held else 0) + down * |l.down|
  }

  function PathWeight(p: Path): nat {
    4 * |p.pendingRelayBinary| + 4 * |Queued(p.chain)|
      + (if p.chain != [] && p.chain[0] == Setup then 1 else 0) + (if p.bound.None? then 1 else 0)
  }

  function SenderWeight(frames: seq<Frame>, s: System): int {
    8 * (|frames| - s.sent) + if s.doneSent then 0 else 8
  }

  /** What is left to do: unsent messages, those on the way, queued frames, and acknowledgements on the way. */
  function Weight(frames: seq<Frame>, s: System): int {
    SenderWeight(frames, s) + LinkWeight(s.forth, 7, 6, 5) + PathWeight(s.path) + LinkWeight(s.back, 3, 2, 1)
  }

  predicate Breaks(a: Action) {
    a.Pipe? && a.step.Break?
  }

  // ----- each step

  /** A step of the pipe brings a message one stage on. */
  lemma PipeLighter(l: Link<Msg>, e: LinkStep<Msg>, up: nat, held: nat, down: nat)
    requires LinkEnabled(l, e) && up > held > down > 0 && !e.Push?
    ensures if e.Break? then LinkWeight(LinkApply(l, e), up, held, down) <= LinkWeight(l, up, held, down)
            else LinkWeight(LinkApply(l, e), up, held, down) < LinkWeight(l, up, held, down)
    ensures e.Deliver? ==> LinkWeight(LinkApply(l, e), up, held, down) == LinkWeight(l, up, held, down) - down
  {
    var k := LinkApply(l, e);
    match e
    case Read => assert up * |l.up| == up * |k.up| + up;
    case Write => assert down * |k.down| == down * |l.down| + down;
    case Deliver => assert down * |l.down| == down * |k.down| + down;
    case Break(kept) => assert down * |k.down| <= down * |l.down|;
  }

  lemma PushHeavier(l: Link<Msg>, m: Msg, up: nat, held: nat, down: nat)
    ensures LinkWeight(LinkApply(l, Push(m)), up, held, down) == LinkWeight(l, up, held, down) + up
  {
  }

  lemma ArrivalHeavier(c: Session, p: Path, frame: Frame)
    ensures PathWeight(Apply(c, p, WsBinary(frame))) <= PathWeight(p) + 4
  {
    hide RunHandle, Queued;
    QueuedOne(p.chain, frame);
    QueuedEmpty();
  }

  lemma BindLighter(c: Session, p: Path)
    requires Enabled(p, Bind(Relay))
    ensures PathWeight(Apply(c, p, Bind(Relay))) < PathWeight(p)
  {
    hide RunHandle, Queued;
    QueuedAppend(p.chain, p.pendingRelayBinary);
  }

  lemma SetupLighter(c: Session, p: Path, ws: seq<Frame>)
    requires Enabled(p, SetupDone) && InOrder(p, ws, [])
    ensures PathWeight(Apply(c, p, SetupDone)) < PathWeight(p)
  {
    hide RunHandle, Queued;
    QueuedCons(Setup, p.chain[1..]);
    assert p.chain == [Setup] + p.chain[1..];
  }

  lemma RunLighter(c: Session, p: Path, env: Env, ws: seq<Frame>)
    requires Enabled(p, Run(env)) && InOrder(p, ws, [])
    ensures PathWeight(Apply(c, p, Run(env))) == PathWeight(p) - 4
  {
    hide Step, IsBatchComplete, Queued;
    QueuedCons(p.chain[0], p.chain[1..]);
    assert p.chain == [p.chain[0]] + p.chain[1..];
  }

  /** One link of the chain, and the acknowledgement it may send. */
  lemma RunsLighter(c: Session, frames: seq<Frame>, s: System, e: Event)
    requires Inv(c, frames, s) && CanAct(frames, s, ReceiverRuns(e))
    requires Apply(c, s.path, e).acks <= s.path.acks + 1 && (!e.Run? ==> Apply(c, s.path, e).acks == s.path.acks)
    ensures Weight(frames, Act(c, frames, s, ReceiverRuns(e))) < Weight(frames, s)
  {
    var ws := frames[..FramesGot(s)];
    match e
    case Bind(_) =>
      BindLighter(c, s.path);
    case SetupDone =>
      SetupLighter(c, s.path, ws);
    case Run(env) =>
      RunLighter(c, s.path, env, ws);
    hide Apply, Enabled, PathWeight, LinkOk, Conserved, LinkWeight;
    PushHeavier(s.back, TransferAck, 3, 2, 1);
  }

  lemma QuietAcks(c: Session, p: Path, e: Event)
    requires Enabled(p, e) && !e.Run?
    ensures Apply(c, p, e).acks == p.acks
  {
  }

  /** The receiver's other step: a message reaches its socket. */
  lemma GetsLighter(c: Session, frames: seq<Frame>, s: System)
    requires CanAct(frames, s, ReceiverGets)
    ensures Weight(frames, Act(c, frames, s, ReceiverGets)) < Weight(frames, s)
  {
    hide Apply, PathWeight, LinkWeight;
    PipeLighter(s.forth, Deliver, 7, 6, 5);
    if s.forth.down[0].Data? {
      ArrivalHeavier(c, s.path, s.forth.down[0].frame);
    }
  }

  lemma SendLighter(c: Session, frames: seq<Frame>, s: System, a: Action)
    requires CanAct(frames, s, a) && (a.SendFrame? || a.SendDone?)
    ensures Weight(frames, Act(c, frames, s, a)) < Weight(frames, s)
  {
    hide PathWeight, LinkWeight;
    PushHeavier(s.forth, if a.SendFrame? then Data(frames[s.sent]) else TransferDone, 7, 6, 5);
  }

  lemma PipesLighter(c: Session, frames: seq<Frame>, s: System, forth: bool, e: LinkStep<Msg>)
    requires CanAct(frames, s, Pipe(forth, e))
    ensures if e.Break? then Weight(frames, Act(c, frames, s, Pipe(forth, e))) <= Weight(frames, s)
            else Weight(frames, Act(c, frames, s, Pipe(forth, e))) < Weight(frames, s)
  {
    hide PathWeight, LinkWeight;
    if forth {
      PipeLighter(s.forth, e, 7, 6, 5);
    } else {
      PipeLighter(s.back, e, 3, 2, 1);
    }
  }

  lemma SenderGetsLighter(c: Session, frames: seq<Frame>, s: System)
    requires CanAct(frames, s, SenderGets)
    ensures Weight(frames, Act(c, frames, s, SenderGets)) < Weight(frames, s)
  {
    hide PathWeight, LinkWeight;
    PipeLighter(s.back, Deliver, 3, 2, 1);
  }

  /** Every action brings the end nearer; only the failure of a link may leave it where it is. */
  lemma ActLighter(b: Batch, frames: seq<Frame>, s: System, a: Action)
    requires ValidBatch(b) && Carries(b, frames)
    requires Inv(SessionOf(b), frames, s) && CanAct(frames, s, a)
    ensures if Breaks(a) then Weight(frames, Act(SessionOf(b), frames, s, a)) <= Weight(frames, s)
            else Weight(frames, Act(SessionOf(b), frames, s, a)) < Weight(frames, s)
  {
    hide Act, Weight, ValidBatch, Carries, Apply, Enabled, LinksOk, Conserved;
    match a
    case SendFrame => SendLighter(SessionOf(b), frames, s, a);
    case SendDone => SendLighter(SessionOf(b), frames, s, a);
    case Pipe(forth, e) => PipesLighter(SessionOf(b), frames, s, forth, e);
    case ReceiverGets => GetsLighter(SessionOf(b), frames, s);
    case SenderGets => SenderGetsLighter(SessionOf(b), frames, s);
    case ReceiverRuns(e) =>
      if e.Run? {
        RunPath(b, frames, s.path, e.env, FramesGot(s));
      } else {
        QuietAcks(SessionOf(b), s.path, e);
      }
      RunsLighter(SessionOf(b), frames, s, e);
  }

  // ----- whole runs

  /** How many of the first n actions are no failures of a link. */
  function Steps(actions: seq<Action>, n: nat): nat
    requires n <= |actions|
  {
    if n == 0 then 0 else Steps(actions, n - 1) + if Breaks(actions[n - 1]) then 0 else 1
  }

  lemma WeightStart(frames: seq<Frame>)
    ensures Weight(frames, START_SYSTEM) == 8 * |frames| + 10
  {
    QueuedEmpty();
  }

  lemma WeightPositive(c: Session, frames: seq<Frame>, s: System)
    requires Inv(c, frames, s)
    ensures Weight(frames, s) >= 0
  {
    hide LinkWeight, PathWeight, Conserved, LinkOk;
  }

  lemma {:induction false} WeightFalls(
    b: Batch, frames: seq<Frame>, actions: seq<Action>, states: seq<System>, n: nat)
    requires ValidBatch(b) && Carries(b, frames)
    requires IsSystemRun(SessionOf(b), frames, actions, states) && n <= |actions|
    ensures Weight(frames, states[n]) + Steps(actions, n) <= 8 * |frames| + 10
  {
    hide Inv, Carries, ValidBatch, Act, CanAct, Weight, Breaks;
    if n == 0 {
      WeightStart(frames);
    } else {
      WeightFalls(b, frames, actions, states, n - 1);
      RunInv(b, frames, actions, states, n - 1);
      ActLighter(b, frames, states[n - 1], actions[n - 1]);
    }
  }

  /** No run has more than 8 steps for each frame and 10 more, failures of a link aside. */
  lemma StepsBounded(b: Batch, frames: seq<Frame>, actions: seq<Action>, states: seq<System>)
    requires ValidBatch(b) && Carries(b, frames)
    requires IsSystemRun(SessionOf(b), frames, actions, states)
    ensures Steps(actions, |actions|) <= 8 * |frames| + 10
  {
    hide Inv, Carries, ValidBatch, Act, CanAct, Weight, Steps;
    WeightFalls(b, frames, actions, states, |actions|);
    RunInv(b, frames, actions, states, |actions|);
    WeightPositive(SessionOf(b), frames, states[|actions|]);
  }

  /** And a run that has used them up is over: the sender has closed, a frame has failed, or a link is broken. */
  lemma RunEnds(b: Batch, frames: seq<Frame>, actions: seq<Action>, states: seq<System>)
    requires ValidBatch(b) && Carries(b, frames)
    requires IsSystemRun(SessionOf(b), frames, actions, states)
    requires Steps(actions, |actions|) == 8 * |frames| + 10
    ensures var s := states[|actions|];
      s.senderClosed || s.path.last.Rejected? || !s.forth.open || !s.back.open
  {
    hide Inv, Carries, ValidBatch, Act, CanAct, Weight, Steps, IsSystemRun, Stuck;
    UsedUp(b, frames, actions, states);
    NoDeadlock(b, frames, actions, states, |actions|);
  }

  lemma UsedUp(b: Batch, frames: seq<Frame>, actions: seq<Action>, states: seq<System>)
    requires ValidBatch(b) && Carries(b, frames)
    requires IsSystemRun(SessionOf(b), frames, actions, states)
    requires Steps(actions, |actions|) == 8 * |frames| + 10
    ensures Stuck(frames, states[|actions|])
  {
    hide Inv, Carries, ValidBatch, Act, CanAct, Weight, Steps;
    var s := states[|actions|];
    WeightFalls(b, frames, actions, states, |actions|);
    RunInv(b, frames, actions, states, |actions|);
    forall a: Action | CanAct(frames, s, a) ensures a.Pipe? && a.step.Break? {
      ActLighter(b, frames, s, a);
      ActKeeps(b, frames, s, a);
      WeightPositive(SessionOf(b), frames, Act(SessionOf(b), frames, s, a));
    }
  }
}
