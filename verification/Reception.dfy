/** How the receiver's state relates to the file it is receiving: the steps shared by all theorems about it. */
module Reception {
  import opened Bytes
  import opened Limits
  import opened Metadata
  import opened Filenames
  import opened Binding
  import opened Aead
  import opened Batch
  import opened Receiver

  function SessionOf(b: Batch): Session {
    Session(b.key, b.tid, b.codec)
  }

  /** The first k chunks of file i, joined. */
  function Prefix(b: Batch, i: nat, k: nat): seq<byte>
    requires i < |b.files|
  {
    b.files[i].bytes[..Offset(Size(b, i), b.mode, k)]
  }

  /** The file record holds exactly the first k chunks of file i. */
  ghost predicate Holds(b: Batch, f: Current, i: nat, k: nat)
    requires i < |b.files|
  {
    && f.metadataReceived && f.meta == Some(MetaOf(b, i)) && f.totalChunks == Chunks(b, i)
    && f.currentChunk == k <= Chunks(b, i)
    && Stores(f, Size(b, i), Prefix(b, i, k))
    && (f.streaming ==> !b.text)
  }

  /** These bytes, and no others, have gone to the stream or into the buffer. */
  ghost predicate Stores(f: Current, size: nat, content: seq<byte>) {
    if f.streaming then f.writable == Some(content) && f.bytesWritten == |content| && f.fileHandle.Some?
    else
      && f.merged.Some? && |f.merged.value| == size && f.mergeOffset == |content| <= size
      && f.merged.value[..|content|] == content
  }

  /** The last file of a batch after it was finished: everything arrived, and the stream is closed. */
  ghost predicate Ended(b: Batch, f: Current, i: nat)
    requires i < |b.files|
  {
    f.metadataReceived && f.totalChunks == f.currentChunk == Chunks(b, i)
  }

  lemma PrefixEnds(b: Batch, i: nat)
    requires i < |b.files|
    ensures Prefix(b, i, 0) == [] && Prefix(b, i, Chunks(b, i)) == b.files[i].bytes
  {
    ChunksCover(Size(b, i), b.mode);
  }

  lemma PrefixGrows(b: Batch, i: nat, k: nat)
    requires i < |b.files| && k < Chunks(b, i)
    ensures Prefix(b, i, k + 1) == Prefix(b, i, k) + ChunkBytes(b, i, k)
    ensures |Prefix(b, i, k + 1)| <= Size(b, i) && ChunkBytes(b, i, k) != []
  {
    ChunkStep(Size(b, i), b.mode, k);
  }

  // ----- one metadata record

  /** The metadata record of file i is accepted exactly when the file has at most 8192 chunks. */
  lemma MetaAnnounced(b: Batch, s: Rx, i: nat, env: Env)
    requires ValidBatch(b) && i < |b.files|
    ensures var o := AcceptMetadata(SessionOf(b), s, b.codec.stringify(MetaFields(b, i)), env);
      if Chunks(b, i) <= MAX_CHUNKS then o == OpenFile(Announce(s, MetaOf(b, i)), MetaOf(b, i), env)
      else o == Outcome(s.(file := s.file.(metadataReceived := true)), Some(BadMetadata))
  {
    LimitsAgree(b, i);
  }

  /** Where the announced file goes, and when nothing goes wrong on the way. */
  lemma TargetOpens(b: Batch, s: Rx, i: nat, env: Env)
    requires i < |b.files| && s.file.metadataReceived && s.file.meta == Some(MetaOf(b, i))
    requires s.file.totalChunks == Chunks(b, i)
    requires s.file.currentChunk == 0 && !s.file.streaming && s.file.bytesWritten == 0
    ensures var o := OpenTarget(s, MetaOf(b, i), env);
      o.fault.None? ==> Holds(b, o.state.file, i, 0)
  {
    PrefixEnds(b, i);
  }

  /** A picked file keeps its handle, whether or not it could be opened for writing. */
  lemma HandleKept(s: Rx, m: Metadata, env: Env)
    requires !s.saveDir && !m.isText && env.save.Chosen?
    ensures OpenTarget(s, m, env).state.file.fileHandle == Some(Picked(m.name))
    ensures OpenTarget(s, m, env).state.file.streaming <==> s.file.streaming || env.opens
  {
  }

  // ----- one chunk

  /** The next chunk of the file is appended; only a failing disk can refuse it. */
  lemma ChunkStored(b: Batch, f: Current, i: nat, k: nat, env: Env)
    requires i < |b.files| && k < Chunks(b, i) && Holds(b, f, i, k) && f.Valid()
    ensures var r := StoreChunk(f, ChunkBytes(b, i, k), env);
      && (r.fault.None? <==> !f.streaming || env.writes)
      && (r.fault.None? ==>
        Holds(b, r.file, i, k + 1) && r.file.streaming == f.streaming && r.file.fileHandle == f.fileHandle)
      && (r.fault.Some? ==> r.file == f.(bytesWritten := r.file.bytesWritten))
  {
    PrefixGrows(b, i, k);
    if !f.streaming {
      var data := ChunkBytes(b, i, k);
      var merged := Overlay(f.merged.value, f.mergeOffset, data);
      assert merged[..f.mergeOffset + |data|] == f.merged.value[..f.mergeOffset] + data;
    }
  }

  // ----- the end of a file

  /** What file i becomes when it goes to this target, or to memory. */
  function DeliveryTo(b: Batch, i: nat, target: Option<Target>): Delivery
    requires i < |b.files|
  {
    if b.text then TextShown(b.files[i].bytes)
    else if target.Some? then Saved(target.value, b.files[i].bytes)
    else Download(Sanitize(b.files[i].name), b.files[i].bytes)
  }

  function TargetIn(f: Current): Option<Target> {
    if f.streaming then f.fileHandle else None
  }

  /** A file with all its chunks is handed over whole; only closing the stream can fail. */
  lemma FileFinishes(b: Batch, s: Rx, i: nat, env: Env)
    requires i < |b.files| && Holds(b, s.file, i, Chunks(b, i))
    ensures s.file.Open()
    ensures var o := Finish(s, env);
      && (o.fault.None? <==> !s.file.streaming || env.closes)
      && (o.fault.Some? ==> o.state == s)
      && (o.fault.None? ==>
        && o.state.delivered == s.delivered + [DeliveryTo(b, i, TargetIn(s.file))]
        && o.state.savedFilenames == s.savedFilenames && o.state.saveDir == s.saveDir && o.state.isText == s.isText
        && o.state.fileIndex == s.fileIndex && o.state.fileCount == s.fileCount
        && o.state.batchTotalChunks == s.batchTotalChunks
        && if s.fileIndex + 1 < s.fileCount
           then o.state.file == NO_FILE && o.state.batchDoneChunks == s.batchDoneChunks + Chunks(b, i)
           else
             && Ended(b, o.state.file, i) && o.state.batchDoneChunks == s.batchDoneChunks
             && o.state.file == if s.file.streaming then s.file.(writable := None) else s.file)
  {
    PrefixEnds(b, i);
    if !s.file.streaming {
      assert s.file.merged.value[..Size(b, i)] == s.file.merged.value;
    }
  }
}
