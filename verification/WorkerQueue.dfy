/** The web worker: one WASM instance behind a queue that runs one call at a time, in order of arrival. */
module WorkerQueue {
  import opened Bytes
  import opened Aead
  import opened WasmCipher

  datatype Request =
    | EncryptFn(key: Key, aad: seq<byte>, data: seq<byte>)
    | DecryptFn(key: Key, aad: seq<byte>, frame: Frame)
    | OtherFn

  datatype Reply = Encrypted(frame: Frame) | Decrypted(plain: seq<byte>) | Failure

  /** The cipher calls that a request makes. */
  function CallsOf(r: Request): seq<Call> {
    match r
    case EncryptFn(key, _, _) => [Enc(key)]
    case DecryptFn(key, _, _) => [Dec(key)]
    case OtherFn => []
  }

  function AllCalls(prior: seq<Call>, requests: seq<Request>, n: nat): seq<Call>
    requires n <= |requests|
  {
    if n == 0 then prior else AllCalls(prior, requests, n - 1) + CallsOf(requests[n - 1])
  }

  /** The reply to request n depends on the requests before it alone, never on when the queue runs. */
  function ReplyTo(prior: seq<Call>, requests: seq<Request>, n: nat): Reply
    requires n < |requests|
  {
    match requests[n]
    case EncryptFn(key, aad, data) =>
      var calls := AllCalls(prior, requests, n);
      if |key| == KEY_SIZE then Encrypted(Sealed(key, NonceAt(calls, |calls|, key), aad, data)) else Failure
    case DecryptFn(key, aad, frame) =>
      var plain := Unseal(key, aad, frame);
      if plain.Some? then Decrypted(plain.value) else Failure
    case OtherFn => Failure
  }

  lemma {:induction false} AllCallsAppend(prior: seq<Call>, requests: seq<Request>, r: Request, n: nat)
    requires n <= |requests|
    ensures AllCalls(prior, requests + [r], n) == AllCalls(prior, requests, n)
  {
    if n > 0 {
      AllCallsAppend(prior, requests, r, n - 1);
    }
  }

  /** Later requests do not change earlier replies. */
  lemma ReplyAppend(prior: seq<Call>, requests: seq<Request>, r: Request, n: nat)
    requires n < |requests|
    ensures ReplyTo(prior, requests + [r], n) == ReplyTo(prior, requests, n)
  {
    AllCallsAppend(prior, requests, r, n);
  }

  /**
   * What a caller may rely on: a 32-byte key seals, and opens exactly the frames sealed with it and the same additional
   * data; everything else fails.
   */
  ghost predicate Answers(r: Request, reply: Reply) {
    match r
    case EncryptFn(key, aad, data) =>
      if |key| == 32 then
        reply.Encrypted? && reply.frame.Sealed? && reply.frame.key == key && reply.frame.aad == aad
        && reply.frame.plain == data
      else reply == Failure
    case DecryptFn(key, aad, frame) =>
      if |key| == 32 && frame.Sealed? && frame.key == key && frame.aad == aad then reply == Decrypted(frame.plain)
      else reply == Failure
    case OtherFn => reply == Failure
  }

  lemma ReplyAnswers(prior: seq<Call>, requests: seq<Request>, n: nat)
    requires n < |requests|
    ensures Answers(requests[n], ReplyTo(prior, requests, n))
  {
    hide AllCalls, NonceAt;
  }

  /** What one worker sealed another one opens, whatever else either of them was asked before. */
  lemma WorkersRoundTrip(
    prior: seq<Call>, requests: seq<Request>, n: nat, prior': seq<Call>, requests': seq<Request>, m: nat,
    key: Key, aad: seq<byte>, data: seq<byte>, frame: Frame)
    requires n < |requests| && requests[n] == EncryptFn(key, aad, data)
    requires ReplyTo(prior, requests, n) == Encrypted(frame)
    requires m < |requests'| && requests'[m] == DecryptFn(key, aad, frame)
    ensures ReplyTo(prior', requests', m) == Decrypted(data)
  {
    hide ReplyTo;
    ReplyAnswers(prior, requests, n);
    ReplyAnswers(prior', requests', m);
  }

  class Worker {
    const wasm: Wasm
    var wasmQueue: seq<Request>         // posted and not yet run
    var replies: seq<Reply>             // posted back, in order
    ghost const prior: seq<Call>        // what the WASM instance had done before
    ghost var received: seq<Request>    // everything ever posted

    ghost predicate Valid()
      reads this, wasm
    {
      && |replies| <= |received| && wasmQueue == received[|replies|..]
      && wasm.Valid() && wasm.calls == AllCalls(prior, received, |replies|)
      && forall n :: 0 <= n < |replies| ==> replies[n] == ReplyTo(prior, received, n)
    }

    constructor (wasm: Wasm)
      requires wasm.Valid()
      ensures Valid() && this.wasm == wasm && prior == wasm.calls && received == []
    {
      this.wasm := wasm;
      wasmQueue, replies := [], [];
      prior := wasm.calls;
      received := [];
    }

    /** self.onmessage: the call joins the end of the queue; its reply has the same index. */
    method Post(r: Request) returns (id: nat)
      requires Valid()
      modifies this`wasmQueue, this`received
      ensures Valid() && received == old(received) + [r] && id == |old(received)|
    {
      id := |replies| + |wasmQueue|;
      wasmQueue := wasmQueue + [r];
      ghost var before := received;
      received := received + [r];
      AllCallsAppend(prior, before, r, |replies|);
      forall n | 0 <= n < |replies|
        ensures replies[n] == ReplyTo(prior, received, n)
      {
        ReplyAppend(prior, before, r, n);
      }
    }

    /** The queue runs its next call and posts the reply. */
    method RunNext()
      requires Valid() && wasmQueue != []
      modifies this`wasmQueue, this`replies, wasm
      ensures Valid() && |replies| == |old(replies)| + 1
    {
      var r := wasmQueue[0];
      ghost var n := |replies|;
      assert r == received[n];
      var reply := Failure;
      match r {
        case EncryptFn(key, aad, data) =>
          var out := wasm.Encrypt(key, aad, data);
          if out.Some? {
            reply := Encrypted(out.value);
          }
        case DecryptFn(key, aad, frame) =>
          var out := wasm.Decrypt(key, aad, frame);
          if out.Some? {
            reply := Decrypted(out.value);
          }
        case OtherFn =>
      }
      wasmQueue := wasmQueue[1..];
      replies := replies + [reply];
    }

    /** Any number of calls runs while the main thread waits for something else. */
    method RunSome()
      requires Valid()
      modifies this`wasmQueue, this`replies, wasm
      ensures Valid()
    {
      var goal: nat :| |replies| <= goal <= |replies| + |wasmQueue|;
      while |replies| < goal
        invariant Valid() && goal <= |received|
        decreases goal - |replies|
      {
        RunNext();
      }
    }

    /** await on the reply with this index. */
    method Await(id: nat) returns (reply: Reply)
      requires Valid() && id < |received|
      modifies this`wasmQueue, this`replies, wasm
      ensures Valid() && reply == ReplyTo(prior, received, id)
      ensures Answers(received[id], reply)
    {
      while |replies| <= id
        invariant Valid()
        decreases |received| - |replies|
      {
        RunNext();
      }
      ReplyAnswers(prior, received, id);
      return replies[id];
    }
  }
}
