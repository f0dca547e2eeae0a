/**
 * The sending end: every file's metadata, then its chunks, with the next chunk being read and
 * encrypted while the present one is sent. The pipeline puts exactly the stream of the batch on the wire.
 */
module Sender {
  import opened Bytes
  import opened Limits
  import opened Metadata
  import opened Binding
  import opened Aead
  import opened Batch
  import opened WasmCipher
  import opened WorkerQueue

  /** The encryption call for one sealing. */
  function RequestFor(b: Batch, j: nat): Request
    requires j < |Stream(b)|
  {
    EncryptFn(b.key, Stream(b)[j].aad, Stream(b)[j].plain)
  }

  function Requests(b: Batch, n: nat): (r: seq<Request>)
    requires n <= |Stream(b)|
    ensures |r| == n
  {
    if n == 0 then [] else Requests(b, n - 1) + [RequestFor(b, n - 1)]
  }

  /** Frame j of the session: sealing j under counter first + j. */
  function FrameOf(b: Batch, first: nat, j: nat): Frame
    requires j < |Stream(b)|
  {
    Sealed(b.key, Nonce((first + j) % UINT64), Stream(b)[j].aad, Stream(b)[j].plain)
  }

  function Wire(b: Batch, first: nat, n: nat): (w: seq<Frame>)
    requires n <= |Stream(b)|
    ensures |w| == n
  {
    if n == 0 then [] else Wire(b, first, n - 1) + [FrameOf(b, first, n - 1)]
  }

  lemma {:induction false} WireAt(b: Batch, first: nat, n: nat, j: nat)
    requires j < n <= |Stream(b)|
    ensures Wire(b, first, n)[j] == FrameOf(b, first, j)
  {
    hide *;
    WireUnfolds(b, first, n);
    if j < n - 1 {
      WireAt(b, first, n - 1, j);
    }
  }

  lemma WireUnfolds(b: Batch, first: nat, n: nat)
    requires 0 < n <= |Stream(b)|
    ensures Wire(b, first, n) == Wire(b, first, n - 1) + [FrameOf(b, first, n - 1)]
  {
  }

  /** Two frames of one session never share a nonce. */
  lemma SessionNoncesDistinct(b: Batch, first: nat, j: nat, k: nat)
    requires ValidFiles(b.files) && j < k < |Stream(b)|
    ensures FrameOf(b, first, j).nonce != FrameOf(b, first, k).nonce
  {
    BatchTotalBound(b);
    assert |Stream(b)| < UINT64;
    hide *;
    DifferentCounters(first, j, k);
    FrameNonce(b, first, j);
    FrameNonce(b, first, k);
  }

  lemma FrameNonce(b: Batch, first: nat, j: nat)
    requires j < |Stream(b)|
    ensures FrameOf(b, first, j).nonce == Nonce((first + j) % 0x1_0000_0000_0000_0000)
  {
    hide Nonce;
  }

  lemma DifferentCounters(first: nat, j: nat, k: nat)
    requires j < k < j + 0x1_0000_0000_0000_0000
    ensures Nonce((first + j) % 0x1_0000_0000_0000_0000) != Nonce((first + k) % 0x1_0000_0000_0000_0000)
  {
    hide Nonce;
    var m, n := (first + j) % UINT64, (first + k) % UINT64;
    NonceInjective(m, n);
  }

  // ----- the counters of the session

  /** While the session only encrypts under its key, the run of the key grows by one with every request. */
  lemma {:induction false} SessionRun(b: Batch, prior: seq<Call>, base: seq<Request>, n: nat)
    requires n <= |Stream(b)| && |b.key| == KEY_SIZE
    ensures var calls := AllCalls(prior, base + Requests(b, n), |base| + n);
      RunLength(calls, |calls|, b.key) ==
        RunLength(AllCalls(prior, base, |base|), |AllCalls(prior, base, |base|)|, b.key) + n
  {
    if n == 0 {
      assert base + Requests(b, 0) == base;
    } else {
      var before := base + Requests(b, n - 1);
      var r := RequestFor(b, n - 1);
      assert base + Requests(b, n) == before + [r];
      SessionRun(b, prior, base, n - 1);
      AllCallsAppend(prior, before, r, |before|);
      RunSnoc(AllCalls(prior, before, |before|), b.key);
    }
  }

  lemma RunSnoc(calls: seq<Call>, key: Key)
    requires |key| == KEY_SIZE
    ensures var t := calls + [Enc(key)];
      RunLength(t, |t|, key) == RunLength(calls, |calls|, key) + 1
  {
    RunAppend(calls, Enc(key), |calls|, key);
  }

  lemma {:induction false} RunAppend(calls: seq<Call>, call: Call, n: nat, key: Key)
    requires n <= |calls|
    ensures RunLength(calls + [call], n, key) == RunLength(calls, n, key)
  {
    if n > 0 {
      RunAppend(calls, call, n - 1, key);
    }
  }

  /** The counter the session starts with; 0 when its key is not the cached one. */
  function FirstCounter(prior: seq<Call>, base: seq<Request>, key: Key): nat {
    var calls := AllCalls(prior, base, |base|);
    RunLength(calls, |calls|, key)
  }

  lemma FreshKeyStartsAtZero(prior: seq<Call>, base: seq<Request>, key: Key)
    requires var calls := AllCalls(prior, base, |base|); After(calls, |calls|).cachedKey != key
    ensures FirstCounter(prior, base, key) % UINT64 == 0
  {
    var calls := AllCalls(prior, base, |base|);
    CacheCoherent(calls, |calls|, key);
  }

  lemma {:induction false} RepliesStable(prior: seq<Call>, requests: seq<Request>, more: seq<Request>, j: nat)
    requires j < |requests|
    ensures ReplyTo(prior, requests + more, j) == ReplyTo(prior, requests, j)
  {
    if more == [] {
      assert requests + more == requests;
    } else {
      var m := |more| - 1;
      RepliesStable(prior, requests, more[..m], j);
      assert requests + more == requests + more[..m] + [more[m]];
      ReplyAppend(prior, requests + more[..m], more[m], j);
    }
  }

  lemma RequestsPrefix(b: Batch, j: nat, n: nat) returns (more: seq<Request>)
    requires j <= n <= |Stream(b)|
    ensures Requests(b, n) == Requests(b, j) + more
  {
    if j == n {
      more := [];
    } else {
      more := RequestsPrefix(b, j, n - 1);
      more := more + [RequestFor(b, n - 1)];
    }
  }

  /** The reply to the session's request j is frame j. */
  lemma SessionReply(b: Batch, prior: seq<Call>, base: seq<Request>, n: nat, j: nat)
    requires j < n <= |Stream(b)| && |b.key| == KEY_SIZE
    ensures ReplyTo(prior, base + Requests(b, n), |base| + j) ==
      Encrypted(FrameOf(b, FirstCounter(prior, base, b.key), j))
  {
    hide Stream, Nonce, NonceAt, Requests, RunLength, AllCalls;
    var more := RequestsPrefix(b, j + 1, n);
    RequestsUnfold(b, j + 1);
    var upto := base + Requests(b, j + 1);
    assert base + Requests(b, n) == upto + more;
    RepliesStable(prior, upto, more, |base| + j);
    var before := base + Requests(b, j);
    assert upto == before + [RequestFor(b, j)];
    AllCallsAppend(prior, before, RequestFor(b, j), |base| + j);
    SessionRun(b, prior, base, j);
    var calls := AllCalls(prior, before, |before|);
    NonceAtIs(calls, |calls|, b.key);
  }

  lemma RequestsUnfold(b: Batch, n: nat)
    requires 0 < n <= |Stream(b)|
    ensures Requests(b, n) == Requests(b, n - 1) + [RequestFor(b, n - 1)]
  {
  }

  // ----- the code

  /** A promise for an encrypted chunk: still reading the file, or waiting for the worker's reply. */
  datatype Prefetch = Idle | Reading(chunk: nat) | Posted(chunk: nat, id: nat)

  /** The sealing that follows the metadata and k chunks of file i. */
  lemma NextChunk(b: Batch, i: nat, k: nat)
    requires i < |b.files| && k < Chunks(b, i)
    ensures Pos(b, i) + 1 + k < |Stream(b)|
    ensures Stream(b)[Pos(b, i) + 1 + k] == Sealing(Aad(b.tid, i, k), ChunkBytes(b, i, k))
  {
    hide Pos, Sealings, ChunkBytes, Aad;
    SealingAt(b, |b.files|, i, k + 1);
  }

  class Sender {
    const batch: Batch
    const worker: Worker
    var wire: seq<Frame>          // handed to transport.send
    var totalChunks: nat
    var currentChunk: nat
    var prefetch: Prefetch
    var shown: nat                // the last global chunk number shown as progress
    ghost const base: seq<Request>  // what the worker had received before the session
    ghost var posted: nat           // encryption calls of this session

    ghost predicate Valid()
      reads this, worker, worker.wasm
    {
      && worker.Valid() && |batch.key| == KEY_SIZE
      && |wire| <= posted <= |Stream(batch)|
      && worker.received == base + Requests(batch, posted)
      && wire == Wire(batch, FirstCounter(worker.prior, base, batch.key), |wire|)
    }

    constructor (batch: Batch, worker: Worker)
      requires worker.Valid() && |batch.key| == KEY_SIZE
      ensures Valid() && wire == [] && posted == 0 && prefetch == Idle
      ensures this.batch == batch && this.worker == worker && base == worker.received
    {
      this.batch, this.worker := batch, worker;
      wire, totalChunks, currentChunk, prefetch, shown := [], 0, 0, Idle, 0;
      base, posted := worker.received, 0;
      new;
      assert base + Requests(batch, 0) == base;
    }

    /** wasmCall("wasmEncrypt", key, aad, data) for the next sealing of the stream. */
    method PostNext(aad: seq<byte>, data: seq<byte>) returns (id: nat)
      requires Valid() && posted < |Stream(batch)| && Stream(batch)[posted] == Sealing(aad, data)
      modifies this`posted, worker`wasmQueue, worker`received
      ensures Valid() && posted == old(posted) + 1 && id == |base| + old(posted)
    {
      hide Stream, Wire, FirstCounter;
      id := worker.Post(EncryptFn(batch.key, aad, data));
      assert base + Requests(batch, posted + 1) == base + Requests(batch, posted) + [RequestFor(batch, posted)];
      posted := posted + 1;
    }

    /** await on an encryption call of this session. */
    method AwaitFrame(id: nat) returns (frame: Frame)
      requires Valid() && |base| <= id < |base| + posted
      modifies worker`wasmQueue, worker`replies, worker.wasm
      ensures Valid() && frame == FrameOf(batch, FirstCounter(worker.prior, base, batch.key), id - |base|)
    {
      hide Stream, Wire, FirstCounter, Requests, FrameOf;
      SessionReply(batch, worker.prior, base, posted, id - |base|);
      var reply := worker.Await(id);
      return reply.frame;
    }

    /** transport.send for the next frame of the stream. */
    method Send(frame: Frame)
      requires Valid() && |wire| < posted
      requires frame == FrameOf(batch, FirstCounter(worker.prior, base, batch.key), |wire|)
      modifies this`wire
      ensures Valid() && |wire| == |old(wire)| + 1
    {
      hide Stream, FirstCounter, Requests, FrameOf;
      WireUnfolds(batch, FirstCounter(worker.prior, base, batch.key), |wire| + 1);
      wire := wire + [frame];
    }

    /** file.slice(start, end) */
    method ReadChunk(i: nat, k: nat) returns (data: seq<byte>)
      requires i < |batch.files| && k < Chunks(batch, i)
      ensures data == ChunkBytes(batch, i, k)
    {
      ChunkStep(Size(batch, i), batch.mode, k);
      var chunkSize := ChunkSize(batch.mode);
      var start := k * chunkSize;
      var end := Min(start + chunkSize, |batch.files[i].bytes|);
      return batch.files[i].bytes[start..end];
    }

    /** The file read of the pending prefetch completes and its encryption is posted. */
    method FinishRead(i: nat)
      requires Valid() && i < |batch.files| && prefetch.Reading? && prefetch.chunk < Chunks(batch, i)
      requires posted == Pos(batch, i) + 1 + prefetch.chunk
      modifies this`posted, this`prefetch, worker`wasmQueue, worker`received
      ensures Valid() && posted == old(posted) + 1
      ensures prefetch == Posted(old(prefetch.chunk), |base| + old(posted))
    {
      hide Stream, Wire, FirstCounter, Requests, Pos, ChunkBytes, Aad;
      var k := prefetch.chunk;
      NextChunk(batch, i, k);
      var chunkData := ReadChunk(i, k);
      var aad := EncodeAAD(batch.tid, i, k);
      var id := PostNext(aad, chunkData);
      prefetch := Posted(k, id);
    }

    /** Waiting for the transport to drain: the pending read may complete and the worker may run. */
    method Drain(i: nat)
      requires Valid() && i < |batch.files| && (prefetch.Reading? ==> prefetch.chunk < Chunks(batch, i))
      requires prefetch.Reading? ==> posted == Pos(batch, i) + 1 + prefetch.chunk
      modifies this`posted, this`prefetch, worker`wasmQueue, worker`received, worker`replies, worker.wasm
      ensures Valid() && posted == old(posted) + (if prefetch == old(prefetch) then 0 else 1)
      ensures prefetch == old(prefetch)
        || (old(prefetch).Reading? && prefetch == Posted(old(prefetch.chunk), |base| + old(posted)))
    {
      var readDone: bool :| true;
      if readDone && prefetch.Reading? {
        FinishRead(i);
      }
      worker.RunSome();
    }

    /** await prefetch */
    method AwaitPrefetch(i: nat) returns (encrypted: Frame)
      requires Valid() && i < |batch.files| && !prefetch.Idle? && prefetch.chunk < Chunks(batch, i)
      requires prefetch.Reading? ==> posted == Pos(batch, i) + 1 + prefetch.chunk
      requires prefetch.Posted? ==> posted == Pos(batch, i) + 2 + prefetch.chunk && prefetch.id == |base| + posted - 1
      modifies this`posted, this`prefetch, worker`wasmQueue, worker`received, worker`replies, worker.wasm
      ensures Valid() && posted == Pos(batch, i) + 2 + old(prefetch.chunk) && prefetch == Idle
      ensures posted > 0 && encrypted == FrameOf(batch, FirstCounter(worker.prior, base, batch.key), posted - 1)
    {
      hide FrameOf, Stream, FirstCounter, Wire, Requests, Pos;
      if prefetch.Reading? {
        FinishRead(i);
      }
      encrypted := AwaitFrame(prefetch.id);
      prefetch := Idle;
    }

    /** batchGlobalChunks */
    method BatchGlobalChunks(fileIndex: nat, chunkInFile: nat) returns (global: nat)
      requires fileIndex < |batch.files|
      ensures global == ChunksBefore(batch, fileIndex) + chunkInFile
    {
      var done := 0;
      for i := 0 to fileIndex
        invariant done == ChunksBefore(batch, i)
      {
        done := done + ChunkCount(|batch.files[i].bytes|, batch.mode);
      }
      return done + chunkInFile;
    }

    method UpdateSendProgress(fileIndex: nat, chunkInFile: nat)
      requires fileIndex < |batch.files|
      modifies this`shown
      ensures shown == if batch.text then old(shown) else ChunksBefore(batch, fileIndex) + chunkInFile
    {
      if batch.text {
        return;
      }
      shown := BatchGlobalChunks(fileIndex, chunkInFile);
    }

    /** The metadata record of a file, encrypted and sent before anything else of it. */
    method SendMetadata(i: nat)
      requires Valid() && i < |batch.files| && posted == |wire| == Pos(batch, i)
      modifies this`wire, this`posted, worker`wasmQueue, worker`received, worker`replies, worker.wasm
      ensures Valid() && posted == |wire| == Pos(batch, i) + 1
    {
      SealingAt(batch, |batch.files|, i, 0);
      hide Stream, FirstCounter, Wire, Requests, Pos, FrameOf;
      var metadataBytes := batch.codec.stringify(MetaFields(batch, i));
      var aad := EncodeAAD(batch.tid, METADATA_FILE_INDEX, METADATA_AAD_SEQ);
      var id := PostNext(aad, metadataBytes);
      var metadataEnc := AwaitFrame(id);
      Send(metadataEnc);
    }

    method SendOneFile(i: nat)
      requires Valid() && i < |batch.files| && posted == |wire| == Pos(batch, i) && prefetch == Idle
      modifies this, worker, worker.wasm
      ensures Valid() && posted == |wire| == Pos(batch, i + 1) && prefetch == Idle
      ensures currentChunk == totalChunks == Chunks(batch, i) && (!batch.text ==> shown == ChunksBefore(batch, i + 1))
    {
      hide Stream, FirstCounter, Wire, Requests, FrameOf, ChunkCount;
      totalChunks := ChunkCount(|batch.files[i].bytes|, batch.mode);
      currentChunk := 0;
      SendMetadata(i);
      UpdateSendProgress(i, 0);
      if totalChunks == 0 {
        return;
      }
      prefetch := Reading(0);
      var k := 0;
      while k < totalChunks
        invariant Valid() && 0 <= k <= totalChunks == Chunks(batch, i) && currentChunk == k
        invariant |wire| == Pos(batch, i) + 1 + k
        invariant k < totalChunks ==> !prefetch.Idle? && prefetch.chunk == k
        invariant k == totalChunks ==> prefetch == Idle
        // at most one chunk is encrypted ahead of the wire
        invariant posted == |wire| + (if prefetch.Posted? then 1 else 0)
        invariant prefetch.Posted? ==> prefetch.id == |base| + posted - 1
        invariant !batch.text ==> shown == ChunksBefore(batch, i) + k
      {
        k := SendChunk(i, k);
      }
    }

    /** One turn of the loop: chunk k goes out while chunk k + 1 is fetched. */
    method SendChunk(i: nat, k: nat) returns (next: nat)
      requires Valid() && i < |batch.files| && k < totalChunks == Chunks(batch, i)
      requires |wire| == Pos(batch, i) + 1 + k && !prefetch.Idle? && prefetch.chunk == k
      requires posted == |wire| + (if prefetch.Posted? then 1 else 0)
      requires prefetch.Posted? ==> prefetch.id == |base| + posted - 1
      modifies this`wire, this`posted, this`prefetch, this`currentChunk, this`shown, worker, worker.wasm
      ensures Valid() && next == k + 1 == currentChunk && |wire| == Pos(batch, i) + 1 + next
      ensures next < totalChunks ==> !prefetch.Idle? && prefetch.chunk == next
      ensures next == totalChunks ==> prefetch == Idle
      ensures posted == |wire| + (if prefetch.Posted? then 1 else 0)
      ensures prefetch.Posted? ==> prefetch.id == |base| + posted - 1
      ensures !batch.text ==> shown == ChunksBefore(batch, i) + next
    {
      hide Stream, FirstCounter, Wire, Requests, Pos, FrameOf, ChunksBefore;
      var encrypted := AwaitPrefetch(i);
      if k + 1 < totalChunks {
        prefetch := Reading(k + 1);
      }
      Drain(i);
      SendEncrypted(i, k, encrypted);
      next := k + 1;
    }

    /** The end of a turn: the frame goes out, and the progress is shown. */
    method SendEncrypted(i: nat, k: nat, encrypted: Frame)
      requires Valid() && i < |batch.files| && |wire| < posted
      requires encrypted == FrameOf(batch, FirstCounter(worker.prior, base, batch.key), |wire|)
      modifies this`wire, this`currentChunk, this`shown
      ensures Valid() && |wire| == |old(wire)| + 1 && currentChunk == k + 1
      ensures !batch.text ==> shown == ChunksBefore(batch, i) + k + 1
    {
      hide Stream, FirstCounter, Wire, Requests, FrameOf, ChunksBefore;
      Send(encrypted);
      currentChunk := k + 1;
      UpdateSendProgress(i, k + 1);
    }

    /** sendAllFiles: the wire carries the whole stream, frame j under counter first + j. */
    method SendAllFiles()
      requires Valid() && wire == [] && posted == 0 && prefetch == Idle
      modifies this, worker, worker.wasm
      ensures Valid() && wire == Wire(batch, FirstCounter(worker.prior, base, batch.key), |Stream(batch)|)
      ensures !batch.text && batch.files != [] ==> shown == BatchTotal(batch)
    {
      hide FirstCounter, Wire, Requests, FrameOf, Sealings;
      var i := 0;
      while i < |batch.files|
        invariant 0 <= i <= |batch.files| && Valid()
        invariant posted == |wire| == Pos(batch, i) && prefetch == Idle
        invariant !batch.text && i > 0 ==> shown == ChunksBefore(batch, i)
      {
        SendOneFile(i);
        i := i + 1;
      }
    }
  }
}
