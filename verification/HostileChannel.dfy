/**
 * What survives a channel that drops, repeats, reorders and invents frames. The only assumption is
 * that of an ideal cipher: whatever opens under the session key was sealed by the sender.
 */
module HostileChannel {
  import opened Bytes
  import opened Limits
  import opened Metadata
  import opened Filenames
  import opened Binding
  import opened Aead
  import opened Batch
  import opened Receiver
  import opened Reception

  /** A frame the channel may deliver. */
  ghost predicate Genuine(b: Batch, frame: Frame) {
    frame.Sealed? && frame.key == b.key ==> Sealing(frame.aad, frame.plain) in Stream(b)
  }

  /** The target of file i carries its cleaned name, made distinct if it is in the directory. */
  ghost predicate TargetFor(b: Batch, i: nat, t: Target)
    requires i < |b.files|
  {
    match t
    case Picked(name) => name == Sanitize(b.files[i].name)
    case InDirectory(name) => exists used :: name == Dedupe(Sanitize(b.files[i].name), used)
  }

  /** This delivery is file i, whole. */
  ghost predicate IsFile(b: Batch, d: Delivery, i: nat)
    requires i < |b.files|
  {
    d.content == b.files[i].bytes &&
    match d
    case TextShown(_) => b.text
    case Download(name, _) => !b.text && name == Sanitize(b.files[i].name)
    case Saved(target, _) => !b.text && TargetFor(b, i, target)
  }

  ghost predicate IsSomeFile(b: Batch, d: Delivery) {
    exists i: nat :: i < |b.files| && IsFile(b, d, i)
  }

  /** Everything handed to the user so far is a file of the sender. */
  ghost predicate OnlyFiles(b: Batch, delivered: seq<Delivery>) {
    forall n :: 0 <= n < |delivered| ==> IsSomeFile(b, delivered[n])
  }

  /** The bytes of the current file that have reached the stream or the buffer. */
  function Written(f: Current): seq<byte> {
    if f.streaming then (if f.writable.Some? then f.writable.value else [])
    else if f.merged.Some? && f.mergeOffset <= |f.merged.value| then f.merged.value[..f.mergeOffset]
    else []
  }

  /** They are the first chunks of the file the receiver believes to be receiving. */
  ghost predicate Aligned(b: Batch, s: Rx) {
    || Written(s.file) == []
    || (s.fileIndex < |b.files| &&
        exists k: nat :: k <= Chunks(b, s.fileIndex) && Written(s.file) == Prefix(b, s.fileIndex, k))
  }

  /** The invariant between two frames. */
  ghost predicate Inv(b: Batch, s: Rx) {
    && s.Valid() && OnlyFiles(b, s.delivered)
    && if !s.file.metadataReceived then s.file == NO_FILE
       else s.fileIndex < |b.files| && InFile(b, s.file, s.fileIndex)
  }

  /** What holds after every frame, accepted or not. */
  ghost predicate Sound(b: Batch, o: Outcome) {
    OnlyFiles(b, o.state.delivered) && Aligned(b, o.state) && (o.fault.None? ==> Inv(b, o.state))
  }

  ghost predicate InFile(b: Batch, f: Current, i: nat)
    requires i < |b.files|
  {
    && f.currentChunk <= Chunks(b, i)
    && (f.streaming ==> f.fileHandle.Some? && TargetFor(b, i, f.fileHandle.value))
    && if f.currentChunk < Chunks(b, i) then Holds(b, f, i, f.currentChunk)
       else Ended(b, f, i) && Written(f) in {[], b.files[i].bytes}
  }

  lemma HoldsAligned(b: Batch, s: Rx, k: nat)
    requires s.fileIndex < |b.files| && Holds(b, s.file, s.fileIndex, k)
    ensures Aligned(b, s)
  {
    assert Written(s.file) == Prefix(b, s.fileIndex, k);
  }

  lemma InvAligned(b: Batch, s: Rx)
    requires Inv(b, s)
    ensures Aligned(b, s)
  {
    if s.file.metadataReceived {
      if s.file.currentChunk < Chunks(b, s.fileIndex) {
        HoldsAligned(b, s, s.file.currentChunk);
      } else {
        PrefixEnds(b, s.fileIndex);
      }
    }
  }

  lemma DeliveredAppend(b: Batch, delivered: seq<Delivery>, d: Delivery, i: nat)
    requires OnlyFiles(b, delivered) && i < |b.files| && IsFile(b, d, i)
    ensures OnlyFiles(b, delivered + [d])
  {
  }

  lemma DeliveryIsFile(b: Batch, f: Current, i: nat)
    requires i < |b.files| && Holds(b, f, i, Chunks(b, i))
    requires f.streaming ==> f.fileHandle.Some? && TargetFor(b, i, f.fileHandle.value)
    ensures IsFile(b, DeliveryTo(b, i, TargetIn(f)), i)
  {
  }

  lemma EndedInFile(b: Batch, f: Current, i: nat)
    requires i < |b.files| && Holds(b, f, i, Chunks(b, i))
    requires f.streaming ==> f.fileHandle.Some? && TargetFor(b, i, f.fileHandle.value)
    ensures InFile(b, if f.streaming then f.(writable := None) else f, i)
    ensures (if f.streaming then f.(writable := None) else f).Valid()
  {
    PrefixEnds(b, i);
  }

  /** Finishing a file that holds all its chunks. */
  lemma FinishSound(b: Batch, s: Rx, env: Env)
    requires s.fileIndex < |b.files| && Holds(b, s.file, s.fileIndex, Chunks(b, s.fileIndex))
    requires s.file.streaming ==> s.file.fileHandle.Some? && TargetFor(b, s.fileIndex, s.file.fileHandle.value)
    requires OnlyFiles(b, s.delivered)
    ensures s.file.Open()
    ensures Sound(b, Finish(s, env))
  {
    hide OnlyFiles, IsFile, Holds, TargetFor, InFile, Prefix, Finish;
    FileFinishes(b, s, s.fileIndex, env);
    DeliveryIsFile(b, s.file, s.fileIndex);
    DeliveredAppend(b, s.delivered, DeliveryTo(b, s.fileIndex, TargetIn(s.file)), s.fileIndex);
    EndedInFile(b, s.file, s.fileIndex);
    HoldsAligned(b, s, Chunks(b, s.fileIndex));
    var o := Finish(s, env);
    if o.fault.None? {
      InvAligned(b, o.state);
    }
  }

  lemma AnnounceKeeps(b: Batch, s: Rx, i: nat)
    requires i < |b.files| && s.file == NO_FILE
    ensures var a := Announce(s, MetaOf(b, i));
      && a.delivered == s.delivered && a.fileIndex == i && a.fileCount == |b.files| && Written(a.file) == []
      && a.file.metadataReceived && a.file.meta == Some(MetaOf(b, i)) && a.file.totalChunks == Chunks(b, i)
      && a.file.currentChunk == 0 && !a.file.streaming && a.file.bytesWritten == 0
  {
  }

  /** Choosing the directory and opening the target hand nothing over, and write nothing. */
  lemma OpeningKeeps(s: Rx, m: Metadata, env: Env)
    ensures var d := ChooseDirectory(s, m, env).state;
      d.file == s.file && d.delivered == s.delivered && d.fileIndex == s.fileIndex && d.fileCount == s.fileCount
    ensures var o := OpenTarget(s, m, env);
      && o.state.delivered == s.delivered && o.state.fileIndex == s.fileIndex && o.state.fileCount == s.fileCount
      && (o.fault.Some? ==> Written(o.state.file) == Written(s.file))
  {
    hide Dedupe;
  }

  lemma NothingAligned(b: Batch, s: Rx)
    requires Written(s.file) == []
    ensures Aligned(b, s)
  {
  }

  lemma OpenSound(b: Batch, s: Rx, i: nat, env: Env)
    requires ValidBatch(b) && i < |b.files| && s.file == NO_FILE && OnlyFiles(b, s.delivered)
    ensures Sound(b, OpenFile(Announce(s, MetaOf(b, i)), MetaOf(b, i), env))
  {
    hide OnlyFiles, Holds, Inv, Aligned, Written, TargetFor, Finish, ChooseDirectory, OpenTarget, Announce;
    var m := MetaOf(b, i);
    AnnounceKeeps(b, s, i);
    OpeningKeeps(Announce(s, m), m, env);
    var d := ChooseDirectory(Announce(s, m), m, env);
    OpeningKeeps(d.state, m, env);
    var o := OpenTarget(d.state, m, env);
    TargetOpens(b, d.state, i, env);
    TargetNamed(b, d.state, i, env);
    if d.fault.Some? {
      NothingAligned(b, d.state);
    } else if o.fault.Some? {
      NothingAligned(b, o.state);
    } else if m.chunks == 0 {
      FinishSound(b, o.state, env);
    } else {
      HoldsAligned(b, o.state, 0);
      ReceivedInv(b, o.state, 0);
    }
  }

  lemma TargetNamed(b: Batch, s: Rx, i: nat, env: Env)
    requires i < |b.files| && !s.file.streaming
    ensures var o := OpenTarget(s, MetaOf(b, i), env);
      o.fault.None? && o.state.file.streaming ==>
        o.state.file.fileHandle.Some? && TargetFor(b, i, o.state.file.fileHandle.value)
  {
  }

  lemma InvReceiving(b: Batch, s: Rx)
    requires Inv(b, s) && s.file.metadataReceived && s.file.currentChunk < Chunks(b, s.fileIndex)
    ensures s.fileIndex < |b.files| && Holds(b, s.file, s.fileIndex, s.file.currentChunk)
    ensures s.file.totalChunks == Chunks(b, s.fileIndex)
    ensures s.Valid() && s.file.Valid() && OnlyFiles(b, s.delivered) && Aligned(b, s)
    ensures s.file.streaming ==> s.file.fileHandle.Some? && TargetFor(b, s.fileIndex, s.file.fileHandle.value)
  {
    InvAligned(b, s);
  }

  lemma ReceivedInv(b: Batch, s: Rx, k: nat)
    requires s.fileIndex < |b.files| && k < Chunks(b, s.fileIndex) && Holds(b, s.file, s.fileIndex, k)
    requires OnlyFiles(b, s.delivered)
    requires s.file.streaming ==> s.file.fileHandle.Some? && TargetFor(b, s.fileIndex, s.file.fileHandle.value)
    ensures Inv(b, s)
  {
    hide OnlyFiles, TargetFor, Prefix;
  }

  lemma StoredChunks(b: Batch, f: Current, i: nat, k: nat)
    requires i < |b.files| && Holds(b, f, i, k)
    ensures f.totalChunks == Chunks(b, i) && f.currentChunk == k
  {
  }

  lemma StoredSound(b: Batch, s: Rx, i: nat, k: nat, r: Stored, env: Env)
    requires i < |b.files| && k < Chunks(b, i) && s.fileIndex == i && OnlyFiles(b, s.delivered) && Aligned(b, s)
    requires r.fault.None? ==> Holds(b, r.file, i, k + 1)
    requires r.fault.None? && r.file.streaming ==> r.file.fileHandle.Some? && TargetFor(b, i, r.file.fileHandle.value)
    requires r.fault.Some? ==> r.file == s.file.(bytesWritten := r.file.bytesWritten)
    ensures r.fault.None? && r.file.currentChunk >= r.file.totalChunks ==> r.file.Open()
    ensures Sound(b, AfterStore(s, r, env))
  {
    hide Finish, Chunks, Holds, OnlyFiles, Aligned, Inv, TargetFor;
    var t := s.(file := r.file);
    if r.fault.Some? {
      SameWritten(b, s, r.file);
    } else {
      StoredChunks(b, r.file, i, k + 1);
      if k + 1 == Chunks(b, i) {
        FinishSound(b, t, env);
      } else {
        HoldsAligned(b, t, k + 1);
        ReceivedInv(b, t, k + 1);
      }
    }
  }

  lemma ChunkSound(b: Batch, s: Rx, env: Env)
    requires Inv(b, s) && s.file.metadataReceived && s.file.currentChunk < Chunks(b, s.fileIndex)
    ensures s.Valid()
    ensures Sound(b, AcceptChunk(s, ChunkBytes(b, s.fileIndex, s.file.currentChunk), env))
  {
    InvReceiving(b, s);
    hide AfterStore, StoreChunk, ChunkBytes, Chunks, Holds, OnlyFiles, Aligned, Inv, TargetFor, Sound;
    var i, k := s.fileIndex, s.file.currentChunk;
    ChunkStored(b, s.file, i, k, env);
    StoredSound(b, s, i, k, StoreChunk(s.file, ChunkBytes(b, i, k), env), env);
  }

  lemma SameWritten(b: Batch, s: Rx, r: Current)
    requires Aligned(b, s) && r == s.file.(bytesWritten := r.bytesWritten)
    ensures Aligned(b, s.(file := r))
  {
    assert Written(r) == Written(s.file);
  }

  /** What opens as metadata is the metadata of some file; what opens as the next chunk is that chunk. */
  lemma OpensMeta(b: Batch, frame: Frame) returns (i: nat)
    requires ValidBatch(b) && Genuine(b, frame) && Unseal(b.key, MetadataAad(b.tid), frame).Some?
    ensures i < |b.files| && Unseal(b.key, MetadataAad(b.tid), frame) == Some(b.codec.stringify(MetaFields(b, i)))
  {
    var j :| 0 <= j < |Stream(b)| && Stream(b)[j] == Sealing(frame.aad, frame.plain);
    i := MetaAadMeansMeta(b, j);
  }

  lemma OpensChunk(b: Batch, frame: Frame, i: nat, k: nat)
    requires ValidBatch(b) && Genuine(b, frame) && i < |b.files| && k < UINT32
    requires Unseal(b.key, Aad(b.tid, i, k), frame).Some?
    ensures k < Chunks(b, i) && Unseal(b.key, Aad(b.tid, i, k), frame) == Some(ChunkBytes(b, i, k))
  {
    var j :| 0 <= j < |Stream(b)| && Stream(b)[j] == Sealing(frame.aad, frame.plain);
    ChunkAadMeansChunk(b, j, i, k);
  }

  lemma StepSound(b: Batch, s: Rx, frame: Frame, env: Env)
    requires ValidBatch(b) && Inv(b, s) && Genuine(b, frame)
    ensures Sound(b, Step(SessionOf(b), s, frame, env))
  {
    hide OnlyFiles, Aligned, AcceptChunk, AcceptMetadata, InFile, Holds;
    hide OpenFile, Announce, Aad, MetadataAad, Genuine, ChunkBytes, MetaFields;
    InvAligned(b, s);
    if Unseal(b.key, ExpectedAad(SessionOf(b), s), frame).Some? {
      if s.file.metadataReceived {
        ReceivingChunk(b, s);
        OpensChunk(b, frame, s.fileIndex, s.file.currentChunk);
        ChunkSound(b, s, env);
      } else {
        var i := OpensMeta(b, frame);
        MetaAnnounced(b, s, i, env);
        OpenSound(b, s, i, env);
        NothingWritten(b, s);
      }
    }
  }

  lemma ReceivingChunk(b: Batch, s: Rx)
    requires ValidBatch(b) && Inv(b, s) && s.file.metadataReceived
    ensures s.fileIndex < |b.files| && s.file.currentChunk <= Chunks(b, s.fileIndex) < METADATA_AAD_SEQ
  {
    ChunkIndexSmall(b, s.fileIndex);
  }

  lemma NothingWritten(b: Batch, s: Rx)
    requires s.file == NO_FILE
    ensures Aligned(b, s.(file := s.file.(metadataReceived := true)))
  {
  }

  /**
   * Whatever the channel does, after any number of frames, failed or not: everything the user holds
   * is a whole file of the sender under its cleaned name, and what has been written of the current
   * file is a sequence of its first chunks.
   */
  lemma {:induction false} Integrity(b: Batch, frames: seq<Frame>, envs: seq<Env>, n: nat)
    requires ValidBatch(b) && n <= |frames| == |envs|
    requires forall j :: 0 <= j < |frames| ==> Genuine(b, frames[j])
    ensures Sound(b, After(SessionOf(b), frames, envs, n))
  {
    hide Inv, OnlyFiles, Aligned, Step;
    if n == 0 {
      StartSound(b);
    } else {
      Integrity(b, frames, envs, n - 1);
      var o := After(SessionOf(b), frames, envs, n - 1);
      if o.fault.None? {
        StepSound(b, o.state, frames[n - 1], envs[n - 1]);
      }
    }
  }

  lemma StartSound(b: Batch)
    ensures Inv(b, START) && OnlyFiles(b, START.delivered) && Aligned(b, START)
  {
  }
}
