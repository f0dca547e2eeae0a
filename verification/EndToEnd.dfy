/** Sender and receiver put together: what is on the wire is what the round trip needs. */
module EndToEnd {
  import opened Bytes
  import opened Limits
  import opened Aead
  import opened Batch
  import opened Receiver
  import opened Reception
  import opened RoundTrip
  import opened Sender
  import WasmCipher
  import opened WorkerQueue

  lemma WireCarries(b: Batch, first: nat)
    ensures Carries(b, Wire(b, first, |Stream(b)|))
  {
    forall j | 0 <= j < |Stream(b)|
      ensures Wire(b, first, |Stream(b)|)[j] == FrameOf(b, first, j)
    {
      WireAt(b, first, |Stream(b)|, j);
    }
  }

  /**
   * The receiver's own worker, asked for the frame that comes next on the wire, gives back the plaintext the sender's
   * worker was given.
   */
  lemma WorkerOpensWire(b: Batch, first: nat, prior: seq<WasmCipher.Call>, requests: seq<Request>, n: nat, j: nat)
    requires |b.key| == KEY_SIZE && j < |Stream(b)| && n < |requests|
    requires requests[n] == DecryptFn(b.key, Stream(b)[j].aad, Wire(b, first, |Stream(b)|)[j])
    ensures ReplyTo(prior, requests, n) == Decrypted(Stream(b)[j].plain)
  {
    hide ReplyTo, Wire, Stream;
    WireAt(b, first, |Stream(b)|, j);
    ReplyAnswers(prior, requests, n);
  }

  /**
   * What the receiver does with a frame is decided by its worker's answer: a failure is the fault NotOpened and
   * changes nothing, and a plaintext goes to the metadata or the chunk branch.
   */
  lemma WorkerDecides(
    c: Session, s: Rx, frame: Frame, env: Env, prior: seq<WasmCipher.Call>, requests: seq<Request>, n: nat)
    requires s.Valid() && n < |requests| && requests[n] == DecryptFn(c.key, ExpectedAad(c, s), frame)
    ensures match ReplyTo(prior, requests, n)
      case Decrypted(plain) =>
        Step(c, s, frame, env) ==
        if s.file.metadataReceived then AcceptChunk(s, plain, env) else AcceptMetadata(c, s, plain, env)
      case _ => Step(c, s, frame, env) == Outcome(s, Some(NotOpened))
  {
    hide AcceptChunk, AcceptMetadata;
  }

  /**
   * The frames the pipelined sender puts on the wire, whatever counter its session starts at, give the
   * receiver back every file, unless the user or the disk stops a frame.
   */
  lemma SentIsReceived(b: Batch, first: nat, envs: seq<Env>)
    requires ValidBatch(b) && |envs| == |Stream(b)|
    ensures b.files != []
    ensures var o := After(SessionOf(b), Wire(b, first, |Stream(b)|), envs, |Stream(b)|);
      && (o.fault.None? <==> PassUpTo(b, envs, |Stream(b)|))
      && (o.fault.None? ==> o.state.delivered == Expected(b, envs, |b.files|) && IsBatchComplete(o.state))
  {
    WireCarries(b, first);
    DeliversAll(b, Wire(b, first, |Stream(b)|), envs);
  }
}
