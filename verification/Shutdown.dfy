/**
 * The end of a transfer over the relay: the sender, the two directions of the relay's pipe and the
 * receiver as one transition system, with links that may break at any moment. The sender closes its
 * socket on transfer-ack; by then everything has been received.
 */
module Shutdown {
  import opened Bytes
  import opened Limits
  import opened Aead
  import opened Batch
  import opened Receiver
  import opened Reception
  import opened RoundTrip
  import opened ReceivePath
  import opened Link

  datatype Msg = Data(frame: Frame) | TransferDone | TransferAck

  // ----- the system

  datatype System = System(sent: nat, doneSent: bool, senderClosed: bool, forth: Link<Msg>, back: Link<Msg>, path: Path)

  const START_SYSTEM := System(0, false, false, NewLink(), NewLink(), FRESH)

  datatype Action =
    | SendFrame                  // transport.send of the next frame
    | SendDone                   // sendAllFiles has returned
    | Pipe(forth: bool, step: LinkStep<Msg>)  // the relay reads, writes or fails
    | ReceiverGets               // a message reaches the receiver's socket
    | ReceiverRuns(e: Event)     // the receiver binds its transport, or its chain advances
    | SenderGets                 // a message reaches the sender's socket

  predicate CanAct(frames: seq<Frame>, s: System, a: Action) {
    match a
    case SendFrame => s.sent < |frames|
    case SendDone => s.sent == |frames| && !s.doneSent
    case Pipe(forth, e) => (e.Read? || e.Write? || e.Break?) && LinkEnabled(if forth then s.forth else s.back, e)
    case ReceiverGets => s.forth.down != []
    case ReceiverRuns(e) => (e == Bind(Relay) || e.SetupDone? || e.Run?) && Enabled(s.path, e)
    case SenderGets => s.back.down != []
  }

  function Act(c: Session, frames: seq<Frame>, s: System, a: Action): System
    requires CanAct(frames, s, a)
  {
    match a
    case SendFrame => s.(sent := s.sent + 1, forth := LinkApply(s.forth, Push(Data(frames[s.sent]))))
    case SendDone => s.(doneSent := true, forth := LinkApply(s.forth, Push(TransferDone)))
    case Pipe(forth, e) => if forth then s.(forth := LinkApply(s.forth, e)) else s.(back := LinkApply(s.back, e))
    case ReceiverGets =>
      var m := s.forth.down[0];
      var t := s.(forth := LinkApply(s.forth, Deliver));
      if m.Data? then t.(path := Apply(c, s.path, WsBinary(m.frame))) else t
    case ReceiverRuns(e) =>
      var path := Apply(c, s.path, e);
      if path.acks > s.path.acks then s.(path := path, back := LinkApply(s.back, Push(TransferAck)))
      else s.(path := path)
    case SenderGets =>
      var t := s.(back := LinkApply(s.back, Deliver));
      if s.back.down[0] == TransferAck then t.(senderClosed := true) else t
  }

  // ----- the invariant

  function Datas(frames: seq<Frame>): (m: seq<Msg>)
    ensures |m| == |frames|
    ensures forall i :: 0 <= i < |m| ==> m[i] == Data(frames[i])
  {
    seq(|frames|, i requires 0 <= i < |frames| => Data(frames[i]))
  }

  function Acks(n: nat): (m: seq<Msg>)
    ensures |m| == n && forall i :: 0 <= i < n ==> m[i] == TransferAck
  {
    seq(n, _ => TransferAck)
  }

  /** How many frames have reached the receiver. */
  function FramesGot(s: System): nat {
    Min(|s.forth.got|, s.sent)
  }

  ghost predicate LinksOk(frames: seq<Frame>, s: System) {
    && s.sent <= |frames| && (s.doneSent ==> s.sent == |frames|)
    && LinkOk(s.forth) && LinkOk(s.back)
    && s.forth.pushed == Datas(frames[..s.sent]) + (if s.doneSent then [TransferDone] else [])
    && s.back.pushed == Acks(s.path.acks)
    && (s.senderClosed <==> s.back.got != [])
  }

  /**
   * The receiver has been given the first frames of the stream, and has acknowledged exactly if it handled them
   * all.
   */
  ghost predicate ReceiverOk(c: Session, frames: seq<Frame>, s: System) {
    && FramesGot(s) <= |frames|
    && (s.path.bound.None? || s.path.bound == Some(Relay))
    && Conserved(c, s.path, frames[..FramesGot(s)], [])
    && s.path.acks == AcksDue(frames, s.path) && Settles(frames, s.path)
  }

  /**
   * The transfer promise resolves exactly when every frame has been handled without a fault; over the relay the
   * receiver then acknowledges and closes, once, and otherwise it never does either.
   */
  ghost predicate Settles(frames: seq<Frame>, p: Path) {
    && (p.settled == Resolved <==> p.handled == frames && p.last.Fulfilled?)
    && p.acks == (if p.bound == Some(Relay) && p.settled == Resolved then 1 else 0)
    && (p.closed <==> p.acks == 1)
  }

  ghost predicate Inv(c: Session, frames: seq<Frame>, s: System) {
    LinksOk(frames, s) && ReceiverOk(c, frames, s)
  }

  // ----- what the receiver knows when its completion test holds

  lemma {:induction false} AfterSame(c: Session, f: seq<Frame>, e: seq<Env>, g: seq<Frame>, h: seq<Env>, n: nat)
    requires n <= |f| == |e| && n <= |g| == |h| && f[..n] == g[..n] && e[..n] == h[..n]
    ensures After(c, f, e, n) == After(c, g, h, n)
  {
    hide Step;
    if n > 0 {
      assert f[..n - 1] == f[..n][..n - 1] && g[..n - 1] == g[..n][..n - 1];
      assert e[..n - 1] == e[..n][..n - 1] && h[..n - 1] == h[..n][..n - 1];
      AfterSame(c, f, e, g, h, n - 1);
      assert f[n - 1] == f[..n][n - 1] == g[n - 1];
      assert e[n - 1] == e[..n][n - 1] == h[n - 1];
    }
  }

  lemma HandledComplete(b: Batch, frames: seq<Frame>, handled: seq<Frame>, envs: seq<Env>)
    requires ValidBatch(b) && Carries(b, frames)
    requires 1 <= |handled| == |envs| && handled <= frames
    requires After(SessionOf(b), handled, envs, |handled|).fault.None?
    ensures IsBatchComplete(After(SessionOf(b), handled, envs, |handled|).state) <==> |handled| == |frames|
  {
    hide *;
    var n := |handled|;
    var padded := Padded(envs, |frames|);
    assert frames[..n] == handled[..n];
    AfterSame(SessionOf(b), handled, envs, frames, padded, n);
    StreamLength(b, frames);
    HonestIs(b, frames, padded);
    CompletionExact(b, frames, padded, n);
  }

  lemma Padded(envs: seq<Env>, m: nat) returns (padded: seq<Env>)
    requires |envs| <= m
    ensures |padded| == m && padded[..|envs|] == envs[..|envs|]
  {
    padded := envs + seq(m - |envs|, _ => Env(Unavailable, Unavailable, true, true, true));
  }

  lemma HonestIs(b: Batch, frames: seq<Frame>, envs: seq<Env>)
    requires ValidBatch(b) && Carries(b, frames) && |envs| == |frames|
    ensures Honest(b, frames, envs)
  {
  }

  lemma StreamLength(b: Batch, frames: seq<Frame>)
    requires ValidBatch(b) && Carries(b, frames)
    ensures |frames| == |b.files| + BatchTotal(b) >= 1
  {
  }

  // ----- every action keeps the invariant

  lemma PrefixIs(frames: seq<Frame>, s: System)
    requires LinksOk(frames, s)
    ensures |s.forth.got| + |s.forth.down| <= |s.forth.pushed|
    ensures forall i :: 0 <= i < |s.forth.got| ==> s.forth.got[i] == s.forth.pushed[i]
    ensures forall i :: 0 <= i < |s.forth.down| ==> s.forth.down[i] == s.forth.pushed[|s.forth.got| + i]
  {
    var all := s.forth.got + s.forth.down;
    assert forall i :: 0 <= i < |all| ==> all[i] == s.forth.pushed[i];
    forall i | 0 <= i < |s.forth.down|
      ensures s.forth.down[i] == s.forth.pushed[|s.forth.got| + i]
    {
      assert s.forth.down[i] == all[|s.forth.got| + i];
    }
  }

  lemma SendKeeps(c: Session, frames: seq<Frame>, s: System, a: Action)
    requires Inv(c, frames, s) && CanAct(frames, s, a) && (a.SendFrame? || a.SendDone?)
    ensures Inv(c, frames, Act(c, frames, s, a))
  {
    hide Conserved, LinkOk;
    PrefixIs2(frames, s);
    if a.SendFrame? {
      LinkStepOk(s.forth, Push(Data(frames[s.sent])));
      assert frames[..s.sent + 1] == frames[..s.sent] + [frames[s.sent]];
      assert Datas(frames[..s.sent + 1]) == Datas(frames[..s.sent]) + [Data(frames[s.sent])];
    } else {
      LinkStepOk(s.forth, Push(TransferDone));
    }
  }

  lemma PrefixIs2(frames: seq<Frame>, s: System)
    requires LinksOk(frames, s)
    ensures |s.forth.got| <= s.sent + if s.doneSent then 1 else 0
  {
    PrefixIs(frames, s);
  }

  lemma PipeKeeps(c: Session, frames: seq<Frame>, s: System, forth: bool, e: LinkStep<Msg>)
    requires Inv(c, frames, s) && CanAct(frames, s, Pipe(forth, e))
    ensures Inv(c, frames, Act(c, frames, s, Pipe(forth, e)))
  {
    hide Conserved, LinkOk;
    LinkStepOk(if forth then s.forth else s.back, e);
  }

  lemma SenderGetsKeeps(c: Session, frames: seq<Frame>, s: System)
    requires Inv(c, frames, s) && CanAct(frames, s, SenderGets)
    ensures Inv(c, frames, Act(c, frames, s, SenderGets))
  {
    hide Conserved, LinkOk;
    LinkStepOk(s.back, Deliver);
    assert (s.back.got + s.back.down)[|s.back.got|] == s.back.down[0];
    assert s.back.down[0] == s.back.pushed[|s.back.got|];
  }

  lemma GetsKeeps(c: Session, frames: seq<Frame>, s: System)
    requires Inv(c, frames, s) && CanAct(frames, s, ReceiverGets)
    ensures Inv(c, frames, Act(c, frames, s, ReceiverGets))
  {
    hide Conserved, LinkOk, RunHandle;
    PrefixIs(frames, s);
    LinkStepOk(s.forth, Deliver);
    var n := |s.forth.got|;
    assert s.forth.down[0] == s.forth.pushed[n];
    if n < s.sent {
      assert s.forth.down[0] == Data(frames[n]);
      assert frames[..n + 1] == frames[..n] + [frames[n]];
      StepConserves(c, s.path, frames[..n], [], WsBinary(frames[n]));
    } else {
      assert s.forth.down[0] == TransferDone;
    }
  }

  /** An event that runs no frame acknowledges nothing. */
  lemma QuietKeeps(c: Session, frames: seq<Frame>, s: System, e: Event)
    requires Inv(c, frames, s) && CanAct(frames, s, ReceiverRuns(e)) && !e.Run?
    ensures Inv(c, frames, Act(c, frames, s, ReceiverRuns(e)))
  {
    hide Conserved, LinkOk, RunHandle;
    StepConserves(c, s.path, frames[..FramesGot(s)], [], e);
  }

  // ----- how the receiver settles, over either transport

  lemma QuietSettles(c: Session, frames: seq<Frame>, p: Path, ws: seq<Frame>, dc: seq<Frame>, e: Event)
    requires InOrder(p, ws, dc) && Settles(frames, p) && Enabled(p, e) && !e.Run? && frames != []
    ensures Settles(frames, Apply(c, p, e))
  {
    hide RunHandle, Queued;
  }

  lemma RunSettles(b: Batch, frames: seq<Frame>, p: Path, env: Env)
    requires ValidBatch(b) && Carries(b, frames) && Replayed(SessionOf(b), p) && Settles(frames, p)
    requires Enabled(p, Run(env)) && RunHandle(SessionOf(b), p, env).handled <= frames
    ensures Settles(frames, RunHandle(SessionOf(b), p, env))
  {
    var c := SessionOf(b);
    RunReplays(c, p, env);
    hide Carries, ValidBatch, After, Step, IsBatchComplete;
    var q := RunHandle(c, p, env);
    if p.last.Fulfilled? && q.last.Fulfilled? {
      OutcomeOf(c, q);
      HandledComplete(b, frames, q.handled, q.envs);
      assert q.handled == frames <==> |q.handled| == |frames|;
    }
  }

  lemma StepSettles(b: Batch, frames: seq<Frame>, p: Path, ws: seq<Frame>, dc: seq<Frame>, e: Event)
    requires ValidBatch(b) && Carries(b, frames) && Conserved(SessionOf(b), p, ws, dc) && Settles(frames, p)
    requires Enabled(p, e) && Apply(SessionOf(b), p, e).handled <= frames
    ensures Settles(frames, Apply(SessionOf(b), p, e))
  {
    hide Carries, ValidBatch, Settles, InOrder, Replayed, RunHandle;
    StreamLength(b, frames);
    if e.Run? {
      RunSettles(b, frames, p, e.env);
    } else {
      QuietSettles(SessionOf(b), frames, p, ws, dc, e);
    }
  }

  lemma FreshSettles(frames: seq<Frame>)
    requires frames != []
    ensures Settles(frames, FRESH)
  {
  }

  /** Frames are only added to those handled. */
  lemma HandledGrows(c: Session, p: Path, e: Event)
    requires Enabled(p, e)
    ensures p.handled <= Apply(c, p, e).handled
  {
    hide Step, IsBatchComplete;
  }

  /** In every run of the receive path, over the relay or a data channel, that has handled only the stream's frames. */
  lemma {:induction false} ReceiverSettles(b: Batch, frames: seq<Frame>, events: seq<Event>, ps: seq<Path>, n: nat)
    requires ValidBatch(b) && Carries(b, frames)
    requires IsRun(SessionOf(b), events, ps) && n <= |events| && ps[n].handled <= frames
    ensures Settles(frames, ps[n])
  {
    hide Carries, ValidBatch, Settles, Conserved, Apply, Enabled;
    if n == 0 {
      StreamLength(b, frames);
      FreshSettles(frames);
    } else {
      OrderConserved(SessionOf(b), events, ps, n - 1);
      HandledGrows(SessionOf(b), ps[n - 1], events[n - 1]);
      ReceiverSettles(b, frames, events, ps, n - 1);
      StepSettles(
        b, frames, ps[n - 1], Arrived(events, n - 1, true), Arrived(events, n - 1, false), events[n - 1]);
    }
  }

  /** How many acknowledgements there must be. */
  function AcksDue(frames: seq<Frame>, p: Path): nat {
    if p.last.Fulfilled? && |p.handled| == |frames| then 1 else 0
  }

  lemma RunKeeps(b: Batch, frames: seq<Frame>, s: System, env: Env)
    requires ValidBatch(b) && Carries(b, frames)
    requires Inv(SessionOf(b), frames, s) && CanAct(frames, s, ReceiverRuns(Run(env)))
    ensures Inv(SessionOf(b), frames, Act(SessionOf(b), frames, s, ReceiverRuns(Run(env))))
  {
    hide Conserved, LinkOk, Apply, Carries, ValidBatch, Enabled, AcksDue, Settles;
    StepConserves(SessionOf(b), s.path, frames[..FramesGot(s)], [], Run(env));
    RunPath(b, frames, s.path, env, FramesGot(s));
    HandledArrived(SessionOf(b), Apply(SessionOf(b), s.path, Run(env)), frames, FramesGot(s));
    StepSettles(b, frames, s.path, frames[..FramesGot(s)], [], Run(env));
    RunBackLink(SessionOf(b), frames, s, env);
  }

  lemma HandledArrived(c: Session, p: Path, frames: seq<Frame>, n: nat)
    requires n <= |frames| && Conserved(c, p, frames[..n], []) && p.bound != Some(P2P)
    ensures p.handled <= frames
  {
    hide Replayed, Queued;
    match p.bound {
      case None =>
      case Some(mode) =>
        assert mode.P2P? || mode.Relay?;
        assert p.handled <= frames[..n];
    }
  }

  /** A link of the chain leaves exactly the acknowledgements that are due. */
  lemma RunPath(b: Batch, frames: seq<Frame>, p: Path, env: Env, n: nat)
    requires ValidBatch(b) && Carries(b, frames) && n <= |frames|
    requires Conserved(SessionOf(b), p, frames[..n], []) && p.bound != Some(P2P) && Enabled(p, Run(env))
    requires p.acks == AcksDue(frames, p)
    ensures var q := Apply(SessionOf(b), p, Run(env));
      q.bound == Some(Relay) && q.acks == AcksDue(frames, q) && p.acks <= q.acks <= p.acks + 1
  {
    hide Conserved, RunHandle, Carries, ValidBatch, Enabled;
    if p.last.Fulfilled? {
      RunAcks(b, frames, p, env, n);
    } else {
      SkipFacts(SessionOf(b), p, frames[..n], env);
    }
  }

  lemma RunBackLink(c: Session, frames: seq<Frame>, s: System, env: Env)
    requires LinksOk(frames, s) && CanAct(frames, s, ReceiverRuns(Run(env)))
    requires s.path.acks <= Apply(c, s.path, Run(env)).acks <= s.path.acks + 1
    ensures LinksOk(frames, Act(c, frames, s, ReceiverRuns(Run(env))))
  {
    hide LinkOk, Apply, Enabled;
    LinkStepOk(s.back, Push(TransferAck));
    assert Acks(s.path.acks) + [TransferAck] == Acks(s.path.acks + 1);
  }

  /** The task of a frame acknowledges exactly when it was the last one of the stream. */
  lemma RunAcks(b: Batch, frames: seq<Frame>, p: Path, env: Env, n: nat)
    requires ValidBatch(b) && Carries(b, frames) && n <= |frames|
    requires Conserved(SessionOf(b), p, frames[..n], []) && p.bound != Some(P2P) && Enabled(p, Run(env))
    requires p.last.Fulfilled?
    ensures |p.handled| < |frames|
    ensures var q := RunHandle(SessionOf(b), p, env);
      && |q.handled| == |p.handled| + 1 && q.bound == p.bound == Some(Relay)
      && q.acks == p.acks + if q.last.Fulfilled? && |q.handled| == |frames| then 1 else 0
  {
    hide *;
    var c := SessionOf(b);
    RunFacts(c, p, frames[..n], env);
    var q := RunHandle(c, p, env);
    if q.last.Fulfilled? {
      HandledComplete(b, frames, q.handled, q.envs);
    }
  }

  lemma RunFacts(c: Session, p: Path, ws: seq<Frame>, env: Env)
    requires Conserved(c, p, ws, []) && p.bound != Some(P2P) && Enabled(p, Run(env)) && p.last.Fulfilled?
    ensures p.bound == Some(Relay) && |p.handled| < |ws|
    ensures var q := RunHandle(c, p, env);
      && q.bound == p.bound && |q.handled| == |p.handled| + 1 == |q.envs| && q.handled <= ws
      && (q.last.Fulfilled? ==> After(c, q.handled, q.envs, |q.handled|) == Outcome(q.rx, None))
      && q.acks == p.acks + if q.last.Fulfilled? && IsBatchComplete(q.rx) then 1 else 0
  {
    hide Step, IsBatchComplete, After, Queued;
    RunReplays(c, p, env);
    RunInOrder(c, p, ws, [], env);
    QueuedCons(p.chain[0], p.chain[1..]);
    assert p.chain == [p.chain[0]] + p.chain[1..];
    match p.bound {
      case None =>
      case Some(mode) => assert mode.P2P? || mode.Relay?;
    }
    var q := RunHandle(c, p, env);
    if q.last.Fulfilled? {
      OutcomeOf(c, q);
    }
  }

  /** A link after a failure acknowledges nothing. */
  lemma SkipFacts(c: Session, p: Path, ws: seq<Frame>, env: Env)
    requires Conserved(c, p, ws, []) && p.bound != Some(P2P) && Enabled(p, Run(env)) && p.last.Rejected?
    ensures p.bound == Some(Relay) && |p.handled| < |ws|
    ensures var q := RunHandle(c, p, env);
      q.bound == p.bound && q.handled == p.handled && q.last == p.last && q.acks == p.acks
  {
    hide After, Queued;
    QueuedCons(p.chain[0], p.chain[1..]);
    assert p.chain == [p.chain[0]] + p.chain[1..];
    match p.bound {
      case None =>
      case Some(mode) => assert mode.P2P? || mode.Relay?;
    }
  }

  lemma OutcomeOf(c: Session, q: Path)
    requires Replayed(c, q) && q.last.Fulfilled?
    ensures After(c, q.handled, q.envs, |q.handled|) == Outcome(q.rx, None)
  {
    hide After;
  }

  lemma ActKeeps(b: Batch, frames: seq<Frame>, s: System, a: Action)
    requires ValidBatch(b) && Carries(b, frames)
    requires Inv(SessionOf(b), frames, s) && CanAct(frames, s, a)
    ensures Inv(SessionOf(b), frames, Act(SessionOf(b), frames, s, a))
  {
    hide Inv, Act, Carries, ValidBatch, Enabled;
    match a
    case SendFrame => SendKeeps(SessionOf(b), frames, s, a);
    case SendDone => SendKeeps(SessionOf(b), frames, s, a);
    case Pipe(forth, e) => PipeKeeps(SessionOf(b), frames, s, forth, e);
    case ReceiverGets => GetsKeeps(SessionOf(b), frames, s);
    case SenderGets => SenderGetsKeeps(SessionOf(b), frames, s);
    case ReceiverRuns(e) =>
      if e.Run? {
        RunKeeps(b, frames, s, e.env);
      } else {
        QuietKeeps(SessionOf(b), frames, s, e);
      }
  }

  // ----- whole runs

  /** states[n] is the system after n actions, each possible in its turn. */
  ghost predicate IsSystemRun(c: Session, frames: seq<Frame>, actions: seq<Action>, states: seq<System>) {
    && |states| == |actions| + 1 && states[0] == START_SYSTEM
    && forall n :: 0 <= n < |actions| ==>
      CanAct(frames, states[n], actions[n]) && states[n + 1] == Act(c, frames, states[n], actions[n])
  }

  lemma {:induction false} RunInv(b: Batch, frames: seq<Frame>, actions: seq<Action>, states: seq<System>, n: nat)
    requires ValidBatch(b) && Carries(b, frames)
    requires IsSystemRun(SessionOf(b), frames, actions, states) && n <= |actions|
    ensures Inv(SessionOf(b), frames, states[n])
  {
    hide Inv, Carries, ValidBatch, Act, CanAct;
    if n == 0 {
      StartInv(b, frames);
    } else {
      RunInv(b, frames, actions, states, n - 1);
      ActKeeps(b, frames, states[n - 1], actions[n - 1]);
    }
  }

  lemma StartInv(b: Batch, frames: seq<Frame>)
    requires ValidBatch(b) && Carries(b, frames)
    ensures Inv(SessionOf(b), frames, START_SYSTEM)
  {
    hide Conserved, Carries;
    StreamLength(b, frames);
    FreshConserved(SessionOf(b));
    assert frames[..0] == [];
    assert Datas([]) == [];
  }

  /** The receiver acknowledges at most once, exactly if it handled every frame; the sender closes only after that. */
  ghost predicate Safe(b: Batch, frames: seq<Frame>, p: Path, senderClosed: bool) {
    && b.files != [] && p.acks <= 1
    && (p.acks == 1 <==> p.handled == frames && p.last.Fulfilled?)
    && (senderClosed ==> p.acks == 1)
    && (p.settled == Resolved <==> p.acks == 1) && (p.closed <==> p.acks == 1)
    && (p.acks == 1 ==> |p.envs| == |Stream(b)| && p.rx.delivered == Expected(b, p.envs, |b.files|))
  }

  lemma InvSafe(b: Batch, frames: seq<Frame>, s: System)
    requires ValidBatch(b) && Carries(b, frames) && Inv(SessionOf(b), frames, s)
    ensures Safe(b, frames, s.path, s.senderClosed)
  {
    StreamLength(b, frames);
    AckedAll(SessionOf(b), frames, s);
    if s.path.acks == 1 {
      OutcomeOf(SessionOf(b), s.path);
      DeliversAll(b, frames, s.path.envs);
    }
  }

  /**
   * In every run, at every moment: the receiver has acknowledged at most once; and once the sender has
   * closed its socket, the receiver has handled every frame, without a fault, and the user holds every file.
   */
  lemma ShutdownSafe(b: Batch, frames: seq<Frame>, actions: seq<Action>, states: seq<System>, n: nat)
    requires ValidBatch(b) && Carries(b, frames)
    requires IsSystemRun(SessionOf(b), frames, actions, states) && n <= |actions|
    ensures Safe(b, frames, states[n].path, states[n].senderClosed)
  {
    hide Safe, Inv, Carries, ValidBatch;
    RunInv(b, frames, actions, states, n);
    InvSafe(b, frames, states[n]);
  }

  lemma AckedAll(c: Session, frames: seq<Frame>, s: System)
    requires Inv(c, frames, s)
    ensures s.path.acks <= 1 && Replayed(c, s.path) && |s.path.handled| == |s.path.envs|
    ensures s.path.acks == 1 <==> |frames| == |s.path.handled| && s.path.last.Fulfilled?
    ensures |frames| > 0 && s.path.acks == 1 ==> s.path.handled == frames
    ensures s.senderClosed ==> s.path.acks == 1
  {
    hide After, Queued;
    if s.path.acks == 1 && |frames| > 0 {
      assert s.path.handled <= frames[..FramesGot(s)];
    }
  }

  /** Replaying the skipped frames too, in any circumstances, would change nothing: the first failure is the outcome. */
  lemma SkippedChangeNothing(c: Session, p: Path, envs: seq<Env>)
    requires Replayed(c, p) && |envs| == |p.skipped|
    ensures After(c, p.handled + p.skipped, p.envs + envs, |p.handled| + |p.skipped|).state == p.rx
    ensures PromiseOf(After(c, p.handled + p.skipped, p.envs + envs, |p.handled| + |p.skipped|)) == p.last
  {
    hide After;
    var n := |p.handled|;
    var frames, all := p.handled + p.skipped, p.envs + envs;
    assert frames[..n] == p.handled[..n] && all[..n] == p.envs[..n];
    AfterSame(c, frames, all, p.handled, p.envs, n);
    if p.last.Rejected? {
      FaultStays(c, frames, all, n, n + |p.skipped|);
    }
  }

  // ----- and it cannot get stuck

  /** Nothing can happen any more, except that a link breaks. */
  ghost predicate Stuck(frames: seq<Frame>, s: System) {
    forall a: Action :: CanAct(frames, s, a) ==> a.Pipe? && a.step.Break?
  }

  lemma StuckLinks(frames: seq<Frame>, s: System)
    requires Stuck(frames, s) && LinksOk(frames, s) && s.forth.open && s.back.open
    ensures s.doneSent && s.sent == |frames|
    ensures s.forth.got == s.forth.pushed && s.back.got == s.back.pushed
  {
    assert !CanAct(frames, s, SendFrame);
    assert !CanAct(frames, s, SendDone);
    assert !CanAct(frames, s, ReceiverGets) && !CanAct(frames, s, SenderGets);
    assert !CanAct(frames, s, Pipe(true, Read)) && !CanAct(frames, s, Pipe(true, Write));
    assert !CanAct(frames, s, Pipe(false, Read)) && !CanAct(frames, s, Pipe(false, Write));
    assert s.forth.got + s.forth.down + Holding(s.forth) + s.forth.up == s.forth.got;
    assert s.back.got + s.back.down + Holding(s.back) + s.back.up == s.back.got;
  }

  lemma StuckReceiver(c: Session, frames: seq<Frame>, s: System)
    requires Stuck(frames, s) && ReceiverOk(c, frames, s) && s.path.last.Fulfilled?
    ensures s.path.handled == frames[..FramesGot(s)]
  {
    hide After, Step, RunHandle;
    var p := s.path;
    assert !CanAct(frames, s, ReceiverRuns(Bind(Relay)));
    assert !CanAct(frames, s, ReceiverRuns(SetupDone));
    assert !CanAct(frames, s, ReceiverRuns(Run(Env(Unavailable, Unavailable, true, true, true))));
    assert p.chain == [];
    QueuedEmpty();
    assert p.handled + Queued([]) == p.handled;
  }

  /**
   * While both links hold and no frame has failed, some step is possible until the sender has closed its
   * socket: the exchange of transfer-done and transfer-ack cannot deadlock.
   */
  lemma NoDeadlock(b: Batch, frames: seq<Frame>, actions: seq<Action>, states: seq<System>, n: nat)
    requires ValidBatch(b) && Carries(b, frames)
    requires IsSystemRun(SessionOf(b), frames, actions, states) && n <= |actions|
    requires Stuck(frames, states[n])
    ensures states[n].senderClosed || states[n].path.last.Rejected? || !states[n].forth.open || !states[n].back.open
  {
    hide Carries, ValidBatch, Stuck, Conserved;
    RunInv(b, frames, actions, states, n);
    var s := states[n];
    if s.forth.open && s.back.open && s.path.last.Fulfilled? {
      StuckLinks(frames, s);
      StuckReceiver(SessionOf(b), frames, s);
      assert frames[..|frames|] == frames;
    }
  }
}
