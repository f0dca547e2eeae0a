/**
 * From the socket to handleReceivedData: frames wait in pendingRelayBinary, then in the transport, then
 * in the promise chain. `Path` is this pipeline as a value, `Apply` one synchronous stretch of code.
 */
module ReceivePath {
  import opened Bytes
  import opened Limits
  import opened Aead
  import opened Receiver

  /** A link of the promise chain: the task that sets up the transport, or one frame to handle. */
  datatype Task = Setup | Handle(frame: Frame)

  /** What a promise of the chain settled to. */
  datatype Promise = Fulfilled | Rejected(fault: Fault)

  /** The promise of connectAndTransfer, which resolveOnce and rejectOnce settle. */
  datatype Settled = Pending | Resolved | RejectedWith(fault: Fault)

  function SettleOnce(s: Settled, next: Settled): Settled {
    if s == Pending then next else s
  }

  datatype Path = Path(
    pendingRelayBinary: seq<Frame>,   // binary messages that came before the transport
    dcPending: seq<Frame>,            // P2pTransport._pending
    bound: Option<Mode>,              // state.transport, with the handler registered
    chain: seq<Task>, last: Promise,  // the links still to come, and what the link before them settled to
    handled: seq<Frame>, envs: seq<Env>,  // frames whose task has run, and what the browser did meanwhile
    skipped: seq<Frame>,                  // frames whose link was rejected without running its task
    rx: Rx, acks: nat, closed: bool, settled: Settled)

  /** The key exchange is complete; its last task, which sets up the transport, is still running. */
  const FRESH := Path([], [], None, [Setup], Fulfilled, [], [], [], START, 0, false, Pending)

  datatype Event = WsBinary(frame: Frame) | DcBinary(frame: Frame) | Bind(mode: Mode) | SetupDone | Run(env: Env)

  function Handles(frames: seq<Frame>): (t: seq<Task>)
    ensures |t| == |frames|
    ensures forall i :: 0 <= i < |t| ==> t[i] == Handle(frames[i])
  {
    seq(|frames|, i requires 0 <= i < |frames| => Handle(frames[i]))
  }

  /** The frames of the chain, without the setup task. */
  function Queued(chain: seq<Task>): seq<Frame> {
    if chain == [] then [] else
      (if chain[0].Handle? then [chain[0].frame] else []) + Queued(chain[1..])
  }

  predicate Enabled(p: Path, e: Event) {
    match e
    case WsBinary(_) => true
    case DcBinary(_) => true
    case Bind(_) => p.bound.None? && p.chain != [] && p.chain[0] == Setup
    case SetupDone => p.bound.Some? && p.chain != [] && p.chain[0] == Setup
    case Run(_) => p.chain != [] && p.chain[0].Handle? && (p.last.Fulfilled? ==> p.rx.Valid())
  }

  /** resolveOnce; and over the relay the acknowledgement and the end of the connection. */
  function Completed(p: Path): Path {
    var q := p.(settled := SettleOnce(p.settled, Resolved));
    if p.bound == Some(Relay) then q.(acks := p.acks + 1, closed := true) else q
  }

  /** One frame task: handle the frame, and acknowledge when the batch is complete. */
  function TaskRun(c: Session, p: Path, frame: Frame, env: Env): Path
    requires p.rx.Valid()
  {
    var o := Step(c, p.rx, frame, env);
    var q := p.(handled := p.handled + [frame], envs := p.envs + [env], rx := o.state);
    if o.fault.Some? then q.(last := Rejected(o.fault.value))
    else if IsBatchComplete(o.state) then Completed(q)
    else q
  }

  /**
   * The next link of the chain, then(task, onRejected): after a fulfilled link the task runs; after a rejected one
   * onRejected reports the fault and throws it again.
   */
  function RunHandle(c: Session, p: Path, env: Env): Path
    requires Enabled(p, Run(env))
  {
    var frame := p.chain[0].frame;
    var q := p.(chain := p.chain[1..]);
    match p.last
    case Fulfilled => TaskRun(c, q, frame, env)
    case Rejected(fault) =>
      q.(skipped := q.skipped + [frame], settled := SettleOnce(q.settled, RejectedWith(fault)), last := Rejected(fault))
  }

  function Apply(c: Session, p: Path, e: Event): Path
    requires Enabled(p, e)
  {
    match e
    case WsBinary(frame) =>
      if p.bound == Some(Relay) then p.(chain := p.chain + [Handle(frame)])
      else if p.bound.None? then p.(pendingRelayBinary := p.pendingRelayBinary + [frame])
      else p
    case DcBinary(frame) =>
      if p.bound == Some(P2P) then p.(chain := p.chain + [Handle(frame)])
      else p.(dcPending := p.dcPending + [frame])
    case Bind(mode) =>
      if mode == Relay then
        p.(bound := Some(Relay), pendingRelayBinary := [], chain := p.chain + Handles(p.pendingRelayBinary))
      else
        p.(bound := Some(P2P), dcPending := [], chain := p.chain + Handles(p.dcPending))
    case SetupDone => p.(chain := p.chain[1..])
    case Run(env) => RunHandle(c, p, env)
  }

  // ----- conservation

  /**
   * What arrived on the medium of the transport, in order, is what has been handled, then what a failure left
   * unhandled, then what the chain holds, then what the buffers hold.
   */
  ghost predicate InOrder(p: Path, ws: seq<Frame>, dc: seq<Frame>) {
    && (p.bound.None? ==>
      ws == p.pendingRelayBinary && dc == p.dcPending && p.handled == p.skipped == [] && p.chain == [Setup])
    && (p.bound == Some(Relay) ==>
      ws == p.handled + p.skipped + Queued(p.chain) && p.pendingRelayBinary == [] && dc == p.dcPending)
    && (p.bound == Some(P2P) ==>
      dc == p.handled + p.skipped + Queued(p.chain) && p.dcPending == [] && p.pendingRelayBinary <= ws)
    && (forall i :: 1 <= i < |p.chain| ==> p.chain[i].Handle?)
  }

  function PromiseOf(o: Outcome): Promise {
    if o.fault.Some? then Rejected(o.fault.value) else Fulfilled
  }

  /**
   * The receiver's state is the one the handled frames lead to. Frames are skipped only after the first failure, which
   * is reported when, and not before, the first of them is.
   */
  ghost predicate Replayed(c: Session, p: Path) {
    && |p.handled| == |p.envs|
    && After(c, p.handled, p.envs, |p.handled|).state == p.rx
    && p.last == PromiseOf(After(c, p.handled, p.envs, |p.handled|))
    && (p.last.Fulfilled? ==> p.rx.Valid() && p.skipped == [])
    && (p.skipped != [] ==> p.settled != Pending)
    && (p.settled.RejectedWith? ==> p.skipped != [] && p.last == Rejected(p.settled.fault))
  }

  ghost predicate Conserved(c: Session, p: Path, ws: seq<Frame>, dc: seq<Frame>) {
    InOrder(p, ws, dc) && Replayed(c, p)
  }

  lemma {:induction false} QueuedAppend(chain: seq<Task>, more: seq<Frame>)
    ensures Queued(chain + Handles(more)) == Queued(chain) + more
  {
    hide *;
    if chain == [] {
      QueuedHandles(more);
      QueuedEmpty();
      assert chain + Handles(more) == Handles(more);
    } else {
      QueuedAppend(chain[1..], more);
      QueuedCons(chain[0], chain[1..]);
      QueuedCons(chain[0], chain[1..] + Handles(more));
      assert chain == [chain[0]] + chain[1..];
      assert chain + Handles(more) == [chain[0]] + (chain[1..] + Handles(more));
    }
  }

  lemma QueuedEmpty()
    ensures Queued([]) == [] && Queued([Setup]) == []
  {
    QueuedCons(Setup, []);
    assert [Setup] == [Setup] + [];
  }

  lemma QueuedCons(t: Task, rest: seq<Task>)
    ensures Queued([t] + rest) == (if t.Handle? then [t.frame] else []) + Queued(rest)
  {
    assert ([t] + rest)[1..] == rest;
  }

  lemma {:induction false} QueuedHandles(more: seq<Frame>)
    ensures Queued(Handles(more)) == more
  {
    if more != [] {
      QueuedHandles(more[1..]);
      assert Handles(more)[1..] == Handles(more[1..]);
    }
  }

  lemma QueuedOne(chain: seq<Task>, frame: Frame)
    ensures Queued(chain + [Handle(frame)]) == Queued(chain) + [frame]
  {
    QueuedAppend(chain, [frame]);
    assert Handles([frame]) == [Handle(frame)];
  }

  lemma {:induction false} AfterExtends(c: Session, frames: seq<Frame>, envs: seq<Env>, f: Frame, e: Env, n: nat)
    requires n <= |frames| == |envs|
    ensures After(c, frames + [f], envs + [e], n) == After(c, frames, envs, n)
  {
    hide Step;
    if n > 0 {
      AfterExtends(c, frames, envs, f, e, n - 1);
    }
  }

  lemma RunReplays(c: Session, p: Path, env: Env)
    requires Replayed(c, p) && Enabled(p, Run(env))
    ensures Replayed(c, RunHandle(c, p, env))
  {
    hide Step, IsBatchComplete;
    if p.last.Fulfilled? {
      var frame := p.chain[0].frame;
      AfterExtends(c, p.handled, p.envs, frame, env, |p.handled|);
      StepValid(c, p.rx, frame, env);
      assert After(c, p.handled + [frame], p.envs + [env], |p.handled| + 1) == Step(c, p.rx, frame, env);
    }
  }

  lemma RunInOrder(c: Session, p: Path, ws: seq<Frame>, dc: seq<Frame>, env: Env)
    requires InOrder(p, ws, dc) && Enabled(p, Run(env)) && (p.last.Fulfilled? ==> p.skipped == [])
    ensures InOrder(RunHandle(c, p, env), ws, dc)
  {
    hide Step, IsBatchComplete, Queued;
    var frame, rest := p.chain[0].frame, Queued(p.chain[1..]);
    QueuedCons(p.chain[0], p.chain[1..]);
    assert p.chain == [p.chain[0]] + p.chain[1..];
    assert p.handled + p.skipped + ([frame] + rest) == p.handled + (p.skipped + [frame]) + rest;
    assert p.handled + [] + ([frame] + rest) == (p.handled + [frame]) + [] + rest;
  }

  lemma BindInOrder(c: Session, p: Path, ws: seq<Frame>, dc: seq<Frame>, mode: Mode)
    requires InOrder(p, ws, dc) && Enabled(p, Bind(mode))
    ensures InOrder(Apply(c, p, Bind(mode)), ws, dc)
  {
    hide Queued, RunHandle;
    QueuedEmpty();
    QueuedAppend([Setup], ws);
    QueuedAppend([Setup], dc);
  }

  lemma ArrivalInOrder(c: Session, p: Path, ws: seq<Frame>, dc: seq<Frame>, frame: Frame)
    requires InOrder(p, ws, dc)
    ensures InOrder(Apply(c, p, WsBinary(frame)), ws + [frame], dc)
    ensures InOrder(Apply(c, p, DcBinary(frame)), ws, dc + [frame])
  {
    hide Queued, RunHandle;
    QueuedOne(p.chain, frame);
  }

  lemma SetupInOrder(c: Session, p: Path, ws: seq<Frame>, dc: seq<Frame>)
    requires InOrder(p, ws, dc) && Enabled(p, SetupDone)
    ensures InOrder(Apply(c, p, SetupDone), ws, dc)
  {
    hide Queued, RunHandle;
    QueuedCons(Setup, p.chain[1..]);
    assert p.chain == [Setup] + p.chain[1..];
    assert [] + Queued(p.chain[1..]) == Queued(p.chain[1..]);
  }

  lemma OthersReplay(c: Session, p: Path, e: Event)
    requires Replayed(c, p) && Enabled(p, e) && !e.Run?
    ensures Replayed(c, Apply(c, p, e))
  {
    hide After, RunHandle, Queued;
  }

  /** Every synchronous stretch keeps the frames in order and loses none. */
  lemma StepConserves(c: Session, p: Path, ws: seq<Frame>, dc: seq<Frame>, e: Event)
    requires Conserved(c, p, ws, dc) && Enabled(p, e)
    ensures Conserved(c, Apply(c, p, e), if e.WsBinary? then ws + [e.frame] else ws,
      if e.DcBinary? then dc + [e.frame] else dc)
  {
    hide InOrder, Replayed, RunHandle;
    match e
    case WsBinary(frame) =>
      ArrivalInOrder(c, p, ws, dc, frame);
      OthersReplay(c, p, e);
    case DcBinary(frame) =>
      ArrivalInOrder(c, p, ws, dc, frame);
      OthersReplay(c, p, e);
    case Bind(mode) =>
      BindInOrder(c, p, ws, dc, mode);
      OthersReplay(c, p, e);
    case SetupDone =>
      SetupInOrder(c, p, ws, dc);
      OthersReplay(c, p, e);
    case Run(env) =>
      if p.last.Fulfilled? {
        NoneSkipped(c, p);
      }
      RunInOrder(c, p, ws, dc, env);
      RunReplays(c, p, env);
  }

  lemma NoneSkipped(c: Session, p: Path)
    requires Replayed(c, p) && p.last.Fulfilled?
    ensures p.skipped == []
  {
    hide After;
  }

  // ----- runs

  function Arrived(events: seq<Event>, n: nat, ws: bool): seq<Frame>
    requires n <= |events|
  {
    if n == 0 then [] else
      var e := events[n - 1];
      Arrived(events, n - 1, ws) + if (ws && e.WsBinary?) || (!ws && e.DcBinary?) then [e.frame] else []
  }

  /** ps[n] is the path after n events, and every event was possible in its turn. */
  ghost predicate IsRun(c: Session, events: seq<Event>, ps: seq<Path>) {
    && |ps| == |events| + 1 && ps[0] == FRESH
    && forall n :: 0 <= n < |events| ==> Enabled(ps[n], events[n]) && ps[n + 1] == Apply(c, ps[n], events[n])
  }

  /** For every interleaving of arrivals, binding and tasks, at every moment. */
  lemma {:induction false} OrderConserved(c: Session, events: seq<Event>, ps: seq<Path>, n: nat)
    requires IsRun(c, events, ps) && n <= |events|
    ensures Conserved(c, ps[n], Arrived(events, n, true), Arrived(events, n, false))
  {
    hide Conserved, Apply, Enabled;
    if n == 0 {
      FreshConserved(c);
    } else {
      OrderConserved(c, events, ps, n - 1);
      StepConserves(c, ps[n - 1], Arrived(events, n - 1, true), Arrived(events, n - 1, false), events[n - 1]);
      assert Arrived(events, n - 1, true) + [] == Arrived(events, n - 1, true);
      assert Arrived(events, n - 1, false) + [] == Arrived(events, n - 1, false);
    }
  }

  lemma FreshConserved(c: Session)
    ensures Conserved(c, FRESH, [], [])
  {
  }

  /** Nothing waits for ever: whatever is at the head of the chain can be dealt with, over either transport. */
  lemma ChainMoves(c: Session, p: Path, mode: Mode, env: Env)
    requires Replayed(c, p) && p.chain != []
    ensures match p.chain[0]
      case Setup => if p.bound.None? then Enabled(p, Bind(mode)) else Enabled(p, SetupDone)
      case Handle(_) => Enabled(p, Run(env))
  {
    hide After;
  }

  /** A rejected link rejects the next one, whatever happens in between, and no task runs. */
  lemma RejectionPasses(c: Session, p: Path, e: Event)
    requires p.last.Rejected? && Enabled(p, e)
    ensures var q := Apply(c, p, e);
      && q.last == p.last && q.handled == p.handled && q.envs == p.envs && q.rx == p.rx && q.acks == p.acks
      && (e.Run? ==> q.skipped == p.skipped + [p.chain[0].frame] && q.settled != Pending)
  {
  }

  /** No task runs after the first failing one. */
  lemma {:induction false} FailureHalts(c: Session, events: seq<Event>, ps: seq<Path>, m: nat, n: nat)
    requires IsRun(c, events, ps) && m <= n <= |events| && ps[m].last.Rejected?
    ensures ps[n].last == ps[m].last && ps[n].handled == ps[m].handled && ps[n].rx == ps[m].rx
    ensures ps[n].acks == ps[m].acks
    decreases n
  {
    hide Apply, Enabled;
    if m < n {
      FailureHalts(c, events, ps, m, n - 1);
      RejectionPasses(c, ps[n - 1], events[n - 1]);
    }
  }

  /** The transfer promise settles once. */
  lemma SettlesOnce(c: Session, p: Path, e: Event)
    requires p.settled != Pending && Enabled(p, e)
    ensures Apply(c, p, e).settled == p.settled
  {
    hide Step, IsBatchComplete;
  }

  lemma {:induction false} SettledForGood(c: Session, events: seq<Event>, ps: seq<Path>, m: nat, n: nat)
    requires IsRun(c, events, ps) && m <= n <= |events| && ps[m].settled != Pending
    ensures ps[n].settled == ps[m].settled
    decreases n
  {
    hide Apply, Enabled;
    if m < n {
      SettledForGood(c, events, ps, m, n - 1);
      SettlesOnce(c, ps[n - 1], events[n - 1]);
    }
  }

  /**
   * A failure is reported exactly when a frame that came after it has had its turn, unless the transfer was
   * complete.
   */
  lemma ReportedLate(c: Session, events: seq<Event>, ps: seq<Path>, n: nat)
    requires IsRun(c, events, ps) && n <= |events|
    ensures ps[n].settled.RejectedWith? <==> ps[n].skipped != [] && ps[n].settled != Resolved
    ensures ps[n].skipped != [] ==> ps[n].last.Rejected?
    ensures ps[n].settled.RejectedWith? ==> ps[n].last == Rejected(ps[n].settled.fault)
  {
    hide After, InOrder;
    OrderConserved(c, events, ps, n);
  }

  // ----- the code

  /** The promise chain: every link waits for the one before it. */
  class Chain {
    var tasks: seq<Task>
    var last: Promise

    constructor ()
      ensures tasks == [Setup] && last == Fulfilled
    {
      tasks, last := [Setup], Fulfilled;
    }

    method Enqueue(t: Task)
      modifies this`tasks
      ensures tasks == old(tasks) + [t]
    {
      tasks := tasks + [t];
    }
  }

  /** RelayTransport and P2pTransport: handlers, and what came before the first of them. */
  class Transport {
    const mode: Mode
    var handlers: seq<Chain>   // a handler enqueues a frame task on this chain
    var pending: seq<Frame>

    ghost predicate Valid()
      reads this
    {
      forall i, j :: 0 <= i < j < |handlers| ==> handlers[i] != handlers[j]
    }

    constructor (mode: Mode)
      ensures Valid() && this.mode == mode && handlers == [] && pending == []
    {
      this.mode := mode;
      handlers, pending := [], [];
    }

    /** dispatch, and dc.onmessage */
    method Dispatch(data: Frame)
      requires Valid()
      modifies this`pending, handlers`tasks
      ensures pending == if handlers == [] then old(pending) + [data] else old(pending)
      ensures forall h :: h in handlers ==> h.tasks == old(h.tasks) + [Handle(data)]
    {
      if |handlers| == 0 {
        pending := pending + [data];
        return;
      }
      var i := 0;
      while i < |handlers|
        invariant 0 <= i <= |handlers|
        invariant pending == old(pending)
        invariant forall k :: 0 <= k < i ==> handlers[k].tasks == old(handlers[k].tasks) + [Handle(data)]
        invariant forall k :: i <= k < |handlers| ==> handlers[k].tasks == old(handlers[k].tasks)
      {
        handlers[i].Enqueue(Handle(data));
        i := i + 1;
      }
    }

    /** onMessage: the new handler gets everything that was pending. */
    method OnMessage(handler: Chain)
      requires Valid() && handler !in handlers
      modifies this`handlers, this`pending, handler`tasks
      ensures Valid() && handlers == old(handlers) + [handler] && pending == []
      ensures handler.tasks == old(handler.tasks) + Handles(old(pending))
    {
      handlers := handlers + [handler];
      var i := 0;
      while i < |pending|
        invariant 0 <= i <= |pending| && pending == old(pending) && handlers == old(handlers) + [handler]
        invariant handler.tasks == old(handler.tasks) + Handles(pending)[..i]
      {
        handler.Enqueue(Handle(pending[i]));
        i := i + 1;
      }
      pending := [];
    }
  }

  /** The receiver's side of connectAndTransfer after the key exchange. */
  class Connection {
    const session: Session
    const receiver: Receiver
    const chain: Chain
    const dataChannel: Transport          // the P2pTransport of the negotiation
    var pendingRelayBinary: seq<Frame>
    var transport: Transport?
    var acks: nat                         // transfer-ack messages sent
    var closed: bool                      // ws.close() was called
    var settled: Settled
    ghost var handled: seq<Frame>
    ghost var envs: seq<Env>
    ghost var skipped: seq<Frame>

    ghost predicate Valid()
      reads this, receiver, chain, dataChannel, transport
    {
      && receiver.session == session && dataChannel.mode == P2P && dataChannel.Valid()
      && (transport != null ==> transport.handlers == [chain] && transport.pending == [])
      && (transport != null && transport != dataChannel ==> transport.mode == Relay)
      && (transport != dataChannel ==> dataChannel.handlers == [])
    }

    ghost function State(): Path
      reads this, receiver, receiver.merged, chain, dataChannel, transport
    {
      Path(pendingRelayBinary, dataChannel.pending, if transport == null then None else Some(transport.mode),
           chain.tasks, chain.last, handled, envs, skipped, receiver.State(), acks, closed, settled)
    }

    constructor (session: Session)
      ensures Valid() && State() == FRESH && this.session == session
    {
      this.session := session;
      receiver := new Receiver(session);
      chain := new Chain();
      dataChannel := new Transport(P2P);
      pendingRelayBinary, transport, acks, closed, settled := [], null, 0, false, Pending;
      handled, envs, skipped := [], [], [];
    }

    /** ws.onmessage with binary data. */
    method OnBinary(data: Frame)
      requires Valid()
      modifies this`pendingRelayBinary, chain`tasks, transport
      ensures Valid() && State() == Apply(session, old(State()), WsBinary(data))
    {
      if transport != null && transport.mode == Relay {
        transport.Dispatch(data);
      } else if transport == null {
        pendingRelayBinary := pendingRelayBinary + [data];
      }
    }

    /** dc.onmessage */
    method OnDataChannel(data: Frame)
      requires Valid()
      modifies chain`tasks, dataChannel`pending
      ensures Valid() && State() == Apply(session, old(State()), DcBinary(data))
    {
      dataChannel.Dispatch(data);
    }

    /** flushPendingRelay, inside bindReceiverTransport. */
    method FlushPendingRelay(t: Transport)
      requires t.mode == Relay && t.Valid() && t.handlers == [] && t.pending == []
      modifies this`pendingRelayBinary, t`pending
      ensures pendingRelayBinary == [] && t.pending == old(pendingRelayBinary)
    {
      var batch := pendingRelayBinary;
      pendingRelayBinary := [];
      var i := 0;
      while i < |batch|
        invariant 0 <= i <= |batch| && t.pending == batch[..i] && pendingRelayBinary == []
      {
        t.Dispatch(batch[i]);
        i := i + 1;
      }
    }

    /** bindReceiverTransport: no await between its steps. */
    method BindTransport(mode: Mode)
      requires Valid() && Enabled(State(), Bind(mode))
      modifies this`transport, this`pendingRelayBinary, chain`tasks, dataChannel
      ensures Valid() && State() == Apply(session, old(State()), Bind(mode))
    {
      if mode == P2P {
        transport := dataChannel;
      } else {
        transport := new Transport(Relay);
        FlushPendingRelay(transport);
      }
      transport.OnMessage(chain);
    }

    /** The setup task of the chain ends. */
    method FinishSetup()
      requires Valid() && Enabled(State(), SetupDone)
      modifies chain`tasks
      ensures Valid() && State() == Apply(session, old(State()), SetupDone)
    {
      chain.tasks := chain.tasks[1..];
    }

    /** resolveOnce and rejectOnce */
    method SettleWith(next: Settled)
      modifies this`settled
      ensures settled == SettleOnce(old(settled), next)
    {
      if settled == Pending {
        settled := next;
      }
    }

    /** The next link of the chain. */
    method RunLink(env: Env)
      requires Valid() && Enabled(State(), Run(env))
      modifies this`handled, this`envs, this`skipped, this`acks, this`closed, this`settled
      modifies chain, receiver, receiver.merged
      ensures Valid() && State() == Apply(session, old(State()), Run(env))
    {
      hide Step, IsBatchComplete;
      var data := chain.tasks[0].frame;
      chain.tasks := chain.tasks[1..];
      if chain.last.Rejected? {
        skipped := skipped + [data];
        SettleWith(RejectedWith(chain.last.fault));
      } else {
        RunTask(data, env);
      }
    }

    /** handleReceivedData, inside the task. */
    method HandleFrame(data: Frame, env: Env) returns (fault: Option<Fault>)
      requires Valid() && State().rx.Valid()
      modifies this`handled, this`envs, receiver, receiver.merged
      ensures Valid()
      ensures var p := old(State()); var o := Step(session, p.rx, data, env);
        && fault == o.fault
        && State() == p.(handled := p.handled + [data], envs := p.envs + [env], rx := o.state)
    {
      hide Step, IsBatchComplete;
      handled, envs := handled + [data], envs + [env];
      fault := receiver.HandleReceivedData(data, env);
    }

    /** The batch is complete. */
    method FinishTransfer()
      requires Valid()
      modifies this`settled, this`acks, this`closed
      ensures Valid() && State() == Completed(old(State()))
    {
      SettleWith(Resolved);
      if transport != null && transport.mode == Relay {
        acks := acks + 1;
        closed := true;
      }
    }

    /** The task of a frame. */
    method RunTask(data: Frame, env: Env)
      requires Valid() && State().rx.Valid() && chain.last.Fulfilled?
      modifies this`handled, this`envs, this`acks, this`closed, this`settled, chain`last, receiver, receiver.merged
      ensures Valid() && State() == TaskRun(session, old(State()), data, env)
    {
      hide Step, IsBatchComplete, Completed;
      var fault := HandleFrame(data, env);
      if fault.Some? {
        chain.last := Rejected(fault.value);
        return;
      }
      var complete := receiver.IsComplete();
      if complete {
        FinishTransfer();
      }
    }
  }
}
