/**
 * What the receiver's completion test means when the channel is hostile: the last file has arrived, and no more. All
 * metadata records share their additional data, so the channel chooses which file comes next.
 */
module HostileCompletion {
  import opened Bytes
  import opened Limits
  import opened Metadata
  import opened Binding
  import opened Aead
  import opened Batch
  import opened Receiver
  import opened Reception
  import opened RoundTrip
  import opened HostileChannel

  // ----- what completion does mean

  /** The last file of the batch is what the user was given last. */
  ghost predicate LastDelivered(b: Batch, s: Rx) {
    && s.fileIndex + 1 == |b.files| && s.delivered != []
    && IsFile(b, s.delivered[|s.delivered| - 1], s.fileIndex)
  }

  /** The receiver takes the file: few enough chunks, and a text small enough for memory. */
  predicate Receivable(b: Batch, i: nat)
    requires i < |b.files|
  {
    Chunks(b, i) <= MAX_CHUNKS && (b.text ==> Size(b, i) <= MAX_IN_MEMORY_RECEIVE_BYTES)
  }

  /** Between two frames, once one has been accepted. */
  ghost predicate Placed(b: Batch, s: Rx) {
    && s.fileCount == |b.files| && s.fileIndex < |b.files|
    && if !s.file.metadataReceived then s.file == NO_FILE && s.fileIndex + 1 < |b.files|
       else
         && Receivable(b, s.fileIndex) && s.file.totalChunks == Chunks(b, s.fileIndex)
         && (s.file.currentChunk < Chunks(b, s.fileIndex) || LastDelivered(b, s))
  }

  lemma PlacedComplete(b: Batch, s: Rx)
    requires Placed(b, s) && IsBatchComplete(s)
    ensures LastDelivered(b, s) && Receivable(b, s.fileIndex)
  {
    hide IsFile, Receivable;
  }

  lemma FinishPlaced(b: Batch, s: Rx, env: Env)
    requires s.fileCount == |b.files| && s.fileIndex < |b.files| && Receivable(b, s.fileIndex)
    requires Holds(b, s.file, s.fileIndex, Chunks(b, s.fileIndex))
    requires s.file.streaming ==> s.file.fileHandle.Some? && TargetFor(b, s.fileIndex, s.file.fileHandle.value)
    ensures s.file.Open()
    ensures Finish(s, env).fault.None? ==> Placed(b, Finish(s, env).state)
  {
    hide IsFile, TargetFor, Finish, Receivable, Stores;
    FileFinishes(b, s, s.fileIndex, env);
    DeliveryIsFile(b, s.file, s.fileIndex);
  }

  /** A text that was opened fits into memory. */
  lemma TextFits(s: Rx, m: Metadata, env: Env)
    ensures var o := OpenTarget(s, m, env);
      o.fault.None? && m.isText ==> m.size <= MAX_IN_MEMORY_RECEIVE_BYTES
  {
  }

  lemma OpenPlaced(b: Batch, s: Rx, i: nat, env: Env)
    requires ValidBatch(b) && i < |b.files| && s.file == NO_FILE && Chunks(b, i) <= MAX_CHUNKS
    ensures var o := OpenFile(Announce(s, MetaOf(b, i)), MetaOf(b, i), env);
      o.fault.None? ==> Placed(b, o.state)
  {
    hide Holds, Written, TargetFor, Finish, ChooseDirectory, OpenTarget, Announce, LastDelivered;
    var m := MetaOf(b, i);
    AnnounceKeeps(b, s, i);
    OpeningKeeps(Announce(s, m), m, env);
    var d := ChooseDirectory(Announce(s, m), m, env);
    OpeningKeeps(d.state, m, env);
    var o := OpenTarget(d.state, m, env);
    TargetOpens(b, d.state, i, env);
    TargetNamed(b, d.state, i, env);
    TextFits(d.state, m, env);
    if d.fault.None? && o.fault.None? {
      if m.chunks == 0 {
        FinishPlaced(b, o.state, env);
      } else {
        StoredChunks(b, o.state.file, i, 0);
        HasMetadata(b, o.state.file, i, 0);
      }
    }
  }

  lemma HasMetadata(b: Batch, f: Current, i: nat, k: nat)
    requires i < |b.files| && Holds(b, f, i, k)
    ensures f.metadataReceived
  {
  }

  lemma ChunkPlaced(b: Batch, s: Rx, env: Env)
    requires Inv(b, s) && Placed(b, s) && s.file.metadataReceived && s.file.currentChunk < Chunks(b, s.fileIndex)
    ensures s.Valid()
    ensures var o := AcceptChunk(s, ChunkBytes(b, s.fileIndex, s.file.currentChunk), env);
      o.fault.None? ==> Placed(b, o.state)
  {
    InvReceiving(b, s);
    hide StoreChunk, ChunkBytes, Chunks, Holds, OnlyFiles, Aligned, Inv, TargetFor, Finish, LastDelivered, Receivable;
    var i, k := s.fileIndex, s.file.currentChunk;
    ChunkStored(b, s.file, i, k, env);
    var r := StoreChunk(s.file, ChunkBytes(b, i, k), env);
    if r.fault.None? {
      StoredChunks(b, r.file, i, k + 1);
      HasMetadata(b, r.file, i, k + 1);
      if k + 1 == Chunks(b, i) {
        FinishPlaced(b, s.(file := r.file), env);
      }
    }
  }

  lemma StepPlaced(b: Batch, s: Rx, frame: Frame, env: Env)
    requires ValidBatch(b) && Inv(b, s) && Genuine(b, frame) && (s.file.metadataReceived ==> Placed(b, s))
    ensures Step(SessionOf(b), s, frame, env).fault.None? ==> Placed(b, Step(SessionOf(b), s, frame, env).state)
  {
    hide OnlyFiles, AcceptChunk, AcceptMetadata, InFile, Holds, OpenFile, Announce, Aad, MetadataAad, Genuine;
    hide ChunkBytes, MetaFields, Placed;
    if Unseal(b.key, ExpectedAad(SessionOf(b), s), frame).Some? {
      if s.file.metadataReceived {
        ReceivingChunk(b, s);
        OpensChunk(b, frame, s.fileIndex, s.file.currentChunk);
        ChunkPlaced(b, s, env);
      } else {
        var i := OpensMeta(b, frame);
        MetaAnnounced(b, s, i, env);
        if Chunks(b, i) <= MAX_CHUNKS {
          OpenPlaced(b, s, i, env);
        }
      }
    }
  }

  /** The frames of a channel that need not deliver the sender's stream. */
  ghost predicate AnyFrames(b: Batch, frames: seq<Frame>, envs: seq<Env>) {
    |frames| == |envs| && forall j :: 0 <= j < |frames| ==> Genuine(b, frames[j])
  }

  lemma {:induction false} RunPlaced(b: Batch, frames: seq<Frame>, envs: seq<Env>, n: nat)
    requires ValidBatch(b) && AnyFrames(b, frames, envs) && n <= |frames|
    ensures var o := After(SessionOf(b), frames, envs, n);
      o.fault.None? ==> if n == 0 then !o.state.file.metadataReceived else Placed(b, o.state)
  {
    hide Inv, OnlyFiles, Aligned, Step, Genuine, Placed, ValidBatch;
    if n > 0 {
      RunPlaced(b, frames, envs, n - 1);
      Integrity(b, frames, envs, n - 1);
      var o := After(SessionOf(b), frames, envs, n - 1);
      if o.fault.None? {
        StepPlaced(b, o.state, frames[n - 1], envs[n - 1]);
      }
    }
  }

  /** Whatever the channel did: when the test holds after a frame, the last file has just been delivered, whole. */
  lemma CompletionDelivers(b: Batch, frames: seq<Frame>, envs: seq<Env>, n: nat)
    requires ValidBatch(b) && AnyFrames(b, frames, envs) && 1 <= n <= |frames|
    requires After(SessionOf(b), frames, envs, n).fault.None?
    requires IsBatchComplete(After(SessionOf(b), frames, envs, n).state)
    ensures LastDelivered(b, After(SessionOf(b), frames, envs, n).state)
    ensures Receivable(b, |b.files| - 1)
  {
    hide Genuine, Placed, LastDelivered, After, IsBatchComplete, ValidBatch, Receivable;
    RunPlaced(b, frames, envs, n);
    PlacedComplete(b, After(SessionOf(b), frames, envs, n).state);
    LastIndex(b, After(SessionOf(b), frames, envs, n).state);
  }

  lemma LastIndex(b: Batch, s: Rx)
    requires LastDelivered(b, s)
    ensures s.fileIndex == |b.files| - 1
  {
  }

  // ----- what it does not mean

  /** Every file of the batch is among the deliveries, each at a place of its own. */
  ghost predicate EveryFile(b: Batch, delivered: seq<Delivery>) {
    exists places: seq<nat> :: EachAt(b, delivered, places)
  }

  ghost predicate EachAt(b: Batch, delivered: seq<Delivery>, places: seq<nat>) {
    && |places| == |b.files|
    && (forall i :: 0 <= i < |places| ==> places[i] < |delivered| && IsFile(b, delivered[places[i]], i))
    && (forall i, j :: 0 <= i < j < |places| ==> places[i] != places[j])
  }

  /** Over any channel, when the completion test holds after a frame the user has every file. */
  ghost predicate CompletionMeansAll(b: Batch) {
    forall frames, envs :: CompletesWith(b, frames, envs) ==>
      EveryFile(b, After(SessionOf(b), frames, envs, |frames|).state.delivered)
  }

  ghost predicate CompletesWith(b: Batch, frames: seq<Frame>, envs: seq<Env>) {
    && AnyFrames(b, frames, envs) && frames != []
    && After(SessionOf(b), frames, envs, |frames|).fault.None?
    && IsBatchComplete(After(SessionOf(b), frames, envs, |frames|).state)
  }

  // the channel delivers the last file alone

  const WILLING := Env(Unavailable, Chosen, true, true, true)

  function Last(b: Batch): nat
    requires b.files != []
  {
    |b.files| - 1
  }

  function LastFrame(b: Batch, j: nat): Frame
    requires b.files != [] && j <= Chunks(b, Last(b))
  {
    var x := if j == 0 then MetaSealing(b, Last(b)) else ChunkSealing(b, Last(b), j - 1);
    Sealed(b.key, [], x.aad, x.plain)
  }

  function LastFrames(b: Batch): (frames: seq<Frame>)
    requires b.files != []
    ensures |frames| == Chunks(b, Last(b)) + 1
    ensures forall j :: 0 <= j < |frames| ==> frames[j] == LastFrame(b, j)
  {
    seq(Chunks(b, Last(b)) + 1, j requires 0 <= j <= Chunks(b, Last(b)) => LastFrame(b, j))
  }

  function Willing(n: nat): (envs: seq<Env>)
    ensures |envs| == n && forall j :: 0 <= j < n ==> envs[j] == WILLING
  {
    seq(n, _ => WILLING)
  }

  lemma LastGenuine(b: Batch, j: nat)
    requires b.files != [] && j <= Chunks(b, Last(b))
    ensures Genuine(b, LastFrame(b, j))
  {
    hide Sealings, ChunkSealing, MetaSealing, Chunks;
    SealingAt(b, |b.files|, Last(b), j);
    assert Sealing(LastFrame(b, j).aad, LastFrame(b, j).plain) == Stream(b)[Pos(b, Last(b)) + j];
  }

  /** The receiver after the metadata and k chunks of the last file. */
  ghost predicate AtLast(b: Batch, s: Rx, k: nat)
    requires b.files != []
  {
    && s.Valid() && s.fileIndex == Last(b) && s.fileCount == |b.files|
    && if k < Chunks(b, Last(b)) then Holds(b, s.file, Last(b), k) && s.delivered == []
       else Ended(b, s.file, Last(b)) && |s.delivered| == 1
  }

  lemma LastFinishes(b: Batch, s: Rx)
    requires b.files != [] && s.fileIndex == Last(b) && s.fileCount == |b.files| && s.delivered == []
    requires Holds(b, s.file, Last(b), Chunks(b, Last(b)))
    ensures s.file.Open() && Finish(s, WILLING).fault.None? && AtLast(b, Finish(s, WILLING).state, Chunks(b, Last(b)))
  {
    hide Stores;
    FileFinishes(b, s, Last(b), WILLING);
    hide Holds;
    EndedValid(b, s.file, Last(b));
  }

  lemma EndedValid(b: Batch, f: Current, i: nat)
    requires i < |b.files| && Holds(b, f, i, Chunks(b, i))
    ensures (if f.streaming then f.(writable := None) else f).Valid()
  {
    PrefixEnds(b, i);
  }

  /** With a willing user the last file opens, though it is the first to come. */
  lemma LastOpens(b: Batch)
    requires ValidBatch(b) && |b.files| > 1 && Receivable(b, Last(b))
    ensures var m := MetaOf(b, Last(b)); var d := ChooseDirectory(Announce(START, m), m, WILLING);
      && d == Outcome(Announce(START, m), None)
      && OpenTarget(d.state, m, WILLING).fault.None?
  {
  }

  lemma LastMetadata(b: Batch)
    requires ValidBatch(b) && |b.files| > 1 && Receivable(b, Last(b))
    ensures START.Valid()
    ensures var o := Step(SessionOf(b), START, LastFrame(b, 0), WILLING);
      o.fault.None? && AtLast(b, o.state, 0)
  {
    hide AtLast, Finish, OpenFile, AcceptMetadata, Announce, ValidBatch, Receivable, MetaFields, Chunks, Step;
    FitsLimit(b, Last(b));
    LastUnseals(b);
    StepOnMetadata(b, START, LastFrame(b, 0), WILLING, Last(b));
    MetaAnnounced(b, START, Last(b), WILLING);
    LastOpenFile(b);
  }

  lemma LastUnseals(b: Batch)
    requires ValidBatch(b) && b.files != []
    ensures Unseal(b.key, MetadataAad(b.tid), LastFrame(b, 0)) == Some(MetaSealing(b, Last(b)).plain)
  {
  }

  lemma LastOpenFile(b: Batch)
    requires ValidBatch(b) && |b.files| > 1 && Receivable(b, Last(b))
    ensures var m := MetaOf(b, Last(b)); var o := OpenFile(Announce(START, m), m, WILLING);
      o.fault.None? && AtLast(b, o.state, 0)
  {
    hide Holds, Finish, ChooseDirectory, OpenTarget, Announce, Ended, ValidBatch, Receivable, Chunks;
    var i := Last(b);
    var m := MetaOf(b, i);
    FitsLimit(b, i);
    LastOpens(b);
    AnnounceKeeps(b, START, i);
    var a := Announce(START, m);
    OpeningKeeps(a, m, WILLING);
    var o := OpenTarget(a, m, WILLING);
    TargetOpens(b, a, i, WILLING);
    if m.chunks == 0 {
      LastFinishes(b, o.state);
    } else {
      HeldValid(b, o.state.file, i, 0);
    }
  }

  lemma FitsLimit(b: Batch, i: nat)
    requires i < |b.files| && Receivable(b, i)
    ensures Chunks(b, i) <= MAX_CHUNKS && MetaOf(b, i).chunks == Chunks(b, i)
  {
  }

  lemma HeldValid(b: Batch, f: Current, i: nat, k: nat)
    requires i < |b.files| && k < Chunks(b, i) && Holds(b, f, i, k)
    ensures f.Valid() && f.metadataReceived && f.currentChunk == k
  {
  }

  lemma LastChunk(b: Batch, s: Rx, k: nat)
    requires b.files != [] && k < Chunks(b, Last(b)) && AtLast(b, s, k) && |b.key| == KEY_SIZE
    ensures var o := Step(SessionOf(b), s, LastFrame(b, k + 1), WILLING);
      o.fault.None? && AtLast(b, o.state, k + 1)
  {
    hide Holds, Finish, StoreChunk, Ended, ChunkBytes, Chunks;
    var i := Last(b);
    HeldValid(b, s.file, i, k);
    StepOnChunk(b, s, LastFrame(b, k + 1), WILLING, i, k);
    ChunkStored(b, s.file, i, k, WILLING);
    var r := StoreChunk(s.file, ChunkBytes(b, i, k), WILLING);
    StoredChunks(b, r.file, i, k + 1);
    if k + 1 == Chunks(b, i) {
      LastFinishes(b, s.(file := r.file));
    } else {
      HeldValid(b, r.file, i, k + 1);
    }
  }

  lemma AfterNext(c: Session, frames: seq<Frame>, envs: seq<Env>, n: nat)
    requires n < |frames| == |envs| && After(c, frames, envs, n).fault.None?
    ensures After(c, frames, envs, n).state.Valid()
    ensures After(c, frames, envs, n + 1) == Step(c, After(c, frames, envs, n).state, frames[n], envs[n])
  {
    hide Step;
  }

  lemma AfterNone(c: Session, frames: seq<Frame>, envs: seq<Env>)
    requires |frames| == |envs|
    ensures After(c, frames, envs, 0) == Outcome(START, None)
  {
  }

  lemma {:induction false} LastRun(b: Batch, k: nat)
    requires ValidBatch(b) && |b.files| > 1 && Receivable(b, Last(b)) && k <= Chunks(b, Last(b))
    ensures var o := After(SessionOf(b), LastFrames(b), Willing(|LastFrames(b)|), k + 1);
      o.fault.None? && AtLast(b, o.state, k)
  {
    hide Step, After, AtLast, Chunks, LastFrames, Willing, Receivable, LastFrame;
    var c, frames, envs := SessionOf(b), LastFrames(b), Willing(|LastFrames(b)|);
    if k == 0 {
      LastMetadata(b);
      AfterNone(c, frames, envs);
    } else {
      LastRun(b, k - 1);
      LastChunk(b, After(c, frames, envs, k).state, k - 1);
    }
    AfterNext(c, frames, envs, k);
  }

  /** The last file alone: no fault, the completion test holds, and there is one delivery. */
  lemma LastAlone(b: Batch)
    requires ValidBatch(b) && |b.files| > 1 && Receivable(b, Last(b))
    ensures CompletesWith(b, LastFrames(b), Willing(|LastFrames(b)|))
    ensures |After(SessionOf(b), LastFrames(b), Willing(|LastFrames(b)|), |LastFrames(b)|).state.delivered| == 1
  {
    hide Genuine, After, ValidBatch, Receivable, LastFrame;
    LastRun(b, Chunks(b, Last(b)));
    forall j | 0 <= j < |LastFrames(b)| ensures Genuine(b, LastFrames(b)[j]) {
      LastGenuine(b, j);
    }
  }

  /**
   * Completion means that every file has come exactly for a batch of one file, and, because no run completes, for a
   * batch whose last file the receiver refuses.
   */
  lemma CompletionMeansAllExactly(b: Batch)
    requires ValidBatch(b)
    ensures b.files != []
    ensures CompletionMeansAll(b) <==> |b.files| == 1 || !Receivable(b, Last(b))
  {
    NotEmpty(b);
    hide ValidBatch, CompletesWith, EveryFile, Receivable, After;
    if |b.files| > 1 && Receivable(b, Last(b)) {
      LastAlone(b);
      OneIsNotEvery(b, After(SessionOf(b), LastFrames(b), Willing(|LastFrames(b)|), |LastFrames(b)|).state.delivered);
    } else {
      forall frames, envs | CompletesWith(b, frames, envs)
        ensures EveryFile(b, After(SessionOf(b), frames, envs, |frames|).state.delivered)
      {
        OneFileCompletes(b, frames, envs);
      }
    }
  }

  lemma NotEmpty(b: Batch)
    requires ValidBatch(b)
    ensures b.files != []
  {
  }

  lemma OneIsNotEvery(b: Batch, delivered: seq<Delivery>)
    requires |b.files| > 1 && |delivered| == 1
    ensures !EveryFile(b, delivered)
  {
    forall places: seq<nat> ensures !EachAt(b, delivered, places) {
      NotEachAt(b, delivered, places);
    }
  }

  lemma NotEachAt(b: Batch, delivered: seq<Delivery>, places: seq<nat>)
    requires |b.files| > 1 && |delivered| == 1
    ensures !EachAt(b, delivered, places)
  {
    hide IsFile;
    if |places| > 1 {
      assert places[0] == places[1] || places[0] >= 1 || places[1] >= 1;
    }
  }

  lemma OneFileCompletes(b: Batch, frames: seq<Frame>, envs: seq<Env>)
    requires ValidBatch(b) && b.files != [] && (|b.files| == 1 || !Receivable(b, Last(b)))
    requires CompletesWith(b, frames, envs)
    ensures EveryFile(b, After(SessionOf(b), frames, envs, |frames|).state.delivered)
  {
    hide ValidBatch, Genuine, After, IsFile, Receivable, IsBatchComplete;
    CompletionDelivers(b, frames, envs, |frames|);
    var s := After(SessionOf(b), frames, envs, |frames|).state;
    assert EachAt(b, s.delivered, [|s.delivered| - 1]);
  }
}
