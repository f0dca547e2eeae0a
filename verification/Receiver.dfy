/**
 * The receiving end of a transfer, from the moment the session key exists. `Rx` is the receiver's
 * state as a value and `Step` what one arriving frame does to it; the class `Receiver` is the code,
 * field by field, and is proved to do exactly that.
 */
module Receiver {
  import opened Bytes
  import opened Limits
  import opened Metadata
  import opened Filenames
  import opened Binding
  import opened Aead

  /** Why handleReceivedData throws. */
  datatype Fault =
    | NotOpened | BadMetadata | PickerAborted | DiskFault | TooLargeForMemory | TooLong | Incomplete | NoWriter

  /** A file dialog of the browser: missing, answered, cancelled by the user, or failed otherwise. */
  datatype Picker = Unavailable | Chosen | Aborted | Errored

  /** What the browser and the disk do while one frame is handled. */
  datatype Env = Env(dir: Picker, save: Picker, opens: bool, writes: bool, closes: bool)

  datatype Target = InDirectory(name: string) | Picked(name: string)

  /** Something the user holds at the end: a closed file, a download link, or a shown text. */
  datatype Delivery =
    | Saved(target: Target, content: seq<byte>)
    | Download(name: string, content: seq<byte>)
    | TextShown(content: seq<byte>)

  datatype Session = Session(key: Key, tid: seq<byte>, codec: Codec)

  /** The part of the state that belongs to the current file. */
  datatype Current = Current(
    metadataReceived: bool, meta: Option<Metadata>, totalChunks: nat, currentChunk: nat,
    streaming: bool, writable: Option<seq<byte>>, fileHandle: Option<Target>, bytesWritten: nat,
    merged: Option<seq<byte>>, mergeOffset: nat)
  {
    predicate Valid() {
      metadataReceived ==>
        && meta.Some?
        && (streaming ==> fileHandle.Some? && !meta.value.isText)
        && (!streaming ==> merged.Some? && mergeOffset <= |merged.value| == meta.value.size)
    }

    /** A file is open: its metadata is known, and there is a stream or a buffer for it. */
    predicate Open() {
      && meta.Some?
      && (streaming ==> writable.Some? && fileHandle.Some? && !meta.value.isText)
      && (!streaming ==> merged.Some?)
    }
  }

  datatype Rx = Rx(
    file: Current,
    fileIndex: nat, fileCount: nat, batchTotalChunks: nat, batchDoneChunks: nat, isText: bool,
    saveDir: bool, savedFilenames: set<string>, delivered: seq<Delivery>)
  {
    /** Holds between two frames as long as no frame has failed. */
    predicate Valid() {
      file.Valid()
    }
  }

  /** What resetForNextFile leaves behind. */
  const NO_FILE := Current(false, None, 0, 0, false, None, None, 0, None, 0)

  /** The state set up when the key exchange completes. */
  const START := Rx(NO_FILE, 0, 1, 0, 0, false, false, {}, [])

  datatype Outcome = Outcome(state: Rx, fault: Option<Fault>)

  predicate IsBatchComplete(s: Rx) {
    && (s.file.totalChunks == 0 || (s.file.totalChunks > 0 && s.file.currentChunk >= s.file.totalChunks))
    && s.fileIndex >= s.fileCount - 1
  }

  /** receiveGlobalChunk */
  function GlobalChunk(s: Rx): nat {
    s.batchDoneChunks + s.file.currentChunk
  }

  /** What the finished file becomes. */
  function Finished(f: Current): Delivery
    requires f.Open()
  {
    if f.meta.value.isText then TextShown(f.merged.value)
    else if f.streaming then Saved(f.fileHandle.value, f.writable.value)
    else Download(f.meta.value.name, f.merged.value)
  }

  /** finishCurrentFile */
  function Finish(s: Rx, env: Env): Outcome
    requires s.file.Open()
  {
    var f := s.file;
    if (if f.streaming then f.bytesWritten else f.mergeOffset) != f.meta.value.size then Outcome(s, Some(Incomplete))
    else if f.streaming && !env.closes then Outcome(s, Some(DiskFault))
    else
      var t := s.(delivered := s.delivered + [Finished(f)]);
      if s.fileIndex + 1 < s.fileCount
      then Outcome(t.(batchDoneChunks := s.batchDoneChunks + f.meta.value.chunks, file := NO_FILE), None)
      else Outcome(t.(file := if f.streaming then f.(writable := None) else f), None)
  }

  function AnnouncedFile(f: Current, m: Metadata): Current {
    f.(metadataReceived := true, meta := Some(m), totalChunks := m.chunks, currentChunk := 0,
       streaming := false, writable := None, bytesWritten := 0)
  }

  /** The fields taken from accepted metadata. */
  function Announce(s: Rx, m: Metadata): Rx {
    s.(fileIndex := m.fileIndex, fileCount := m.fileCount, batchTotalChunks := m.batchTotalChunks, isText := m.isText,
       file := AnnouncedFile(s.file, m))
  }

  /** The directory dialog opens for the first file of a batch of several files. */
  predicate AsksDirectory(m: Metadata, env: Env) {
    !m.isText && m.fileIndex == 0 && m.fileCount > 1 && !env.dir.Unavailable?
  }

  /** The answer of the directory dialog. */
  function ChooseDirectory(s: Rx, m: Metadata, env: Env): Outcome {
    if AsksDirectory(m, env) && env.dir.Aborted? then Outcome(s, Some(PickerAborted))
    else Outcome(s.(saveDir := s.saveDir || (AsksDirectory(m, env) && env.dir.Chosen?)), None)
  }

  /** The current file as a stream to the target. */
  function StreamTo(f: Current, target: Target): Current {
    f.(fileHandle := Some(target), writable := Some([]), streaming := true)
  }

  /** Where an announced file goes: a stream into the directory or a picked file, or else a buffer. */
  function OpenTarget(s: Rx, m: Metadata, env: Env): Outcome {
    if s.saveDir && !m.isText then
      var name := Dedupe(m.name, s.savedFilenames);
      var t := s.(savedFilenames := s.savedFilenames + {name});
      if env.opens then Outcome(t.(file := StreamTo(s.file, InDirectory(name))), None) else Outcome(t, Some(DiskFault))
    else if !m.isText && env.save.Chosen? && env.opens then
      Outcome(s.(file := StreamTo(s.file, Picked(m.name))), None)
    else if !m.isText && env.save.Aborted? then Outcome(s, Some(PickerAborted))
    else IntoMemory(if !m.isText && env.save.Chosen? then WithHandle(s, Picked(m.name)) else s, m.size)
  }

  function IntoMemory(s: Rx, size: nat): Outcome {
    if size > MAX_IN_MEMORY_RECEIVE_BYTES then Outcome(s, Some(TooLargeForMemory))
    else Outcome(s.(file := s.file.(merged := Some(Zeros(size)), mergeOffset := 0)), None)
  }

  /** A picked file that could not be opened for writing leaves its handle behind. */
  function WithHandle(s: Rx, target: Target): Rx {
    s.(file := s.file.(fileHandle := Some(target)))
  }

  /** new Uint8Array(size) */
  function Zeros(size: nat): (z: seq<byte>)
    ensures |z| == size
  {
    seq(size, _ => 0)
  }

  /** From the announced file to the open one, or straight to the finished one when it is empty. */
  function OpenFile(s: Rx, m: Metadata, env: Env): Outcome
    requires s.file.meta == Some(m) && !s.file.streaming
  {
    var d := ChooseDirectory(s, m, env);
    if d.fault.Some? then d else
      var o := OpenTarget(d.state, m, env);
      if o.fault.Some? then o
      else if m.chunks == 0 then Finish(o.state, env)
      else o
  }

  function AcceptMetadata(c: Session, s: Rx, plain: seq<byte>, env: Env): Outcome {
    var parsed := Validate(c.codec.parse(plain));
    if parsed.None? then Outcome(s.(file := s.file.(metadataReceived := true)), Some(BadMetadata))
    else OpenFile(Announce(s, parsed.value), parsed.value, env)
  }

  /** merged.set(data, offset) */
  function Overlay(buf: seq<byte>, offset: nat, data: seq<byte>): (r: seq<byte>)
    requires offset + |data| <= |buf|
    ensures |r| == |buf|
  {
    buf[..offset] + data + buf[offset + |data|..]
  }

  datatype Stored = Stored(file: Current, fault: Option<Fault>)

  /** The bytes of one chunk go to the stream or into the buffer. */
  function StoreChunk(f: Current, plain: seq<byte>, env: Env): Stored
    requires f.Valid() && f.metadataReceived
  {
    if f.streaming then
      var g := f.(bytesWritten := f.bytesWritten + |plain|);
      if g.bytesWritten > f.meta.value.size then Stored(g, Some(TooLong))
      else if f.writable.None? then Stored(g, Some(NoWriter))
      else if !env.writes then Stored(g, Some(DiskFault))
      else Stored(g.(writable := Some(f.writable.value + plain), currentChunk := f.currentChunk + 1), None)
    else if f.mergeOffset + |plain| > f.meta.value.size then Stored(f, Some(TooLong))
    else
      Stored(f.(merged := Some(Overlay(f.merged.value, f.mergeOffset, plain)), mergeOffset := f.mergeOffset + |plain|,
                currentChunk := f.currentChunk + 1), None)
  }

  /** A stored chunk may be the last one of its file. */
  function AfterStore(s: Rx, r: Stored, env: Env): Outcome
    requires r.fault.None? && r.file.currentChunk >= r.file.totalChunks ==> r.file.Open()
  {
    var t := s.(file := r.file);
    if r.fault.Some? then Outcome(t, r.fault)
    else if r.file.currentChunk >= r.file.totalChunks then Finish(t, env)
    else Outcome(t, None)
  }

  function AcceptChunk(s: Rx, plain: seq<byte>, env: Env): Outcome
    requires s.Valid() && s.file.metadataReceived
  {
    AfterStore(s, StoreChunk(s.file, plain, env), env)
  }

  /** The additional data the receiver expects next, from its own state alone. */
  function ExpectedAad(c: Session, s: Rx): seq<byte> {
    if s.file.metadataReceived then Aad(c.tid, s.fileIndex, s.file.currentChunk) else MetadataAad(c.tid)
  }

  /** handleReceivedData */
  function Step(c: Session, s: Rx, frame: Frame, env: Env): Outcome
    requires s.Valid()
  {
    var plain := Unseal(c.key, ExpectedAad(c, s), frame);
    if plain.None? then Outcome(s, Some(NotOpened))
    else if !s.file.metadataReceived then AcceptMetadata(c, s, plain.value, env)
    else AcceptChunk(s, plain.value, env)
  }

  lemma FinishValid(s: Rx, env: Env)
    requires s.file.Open() && s.Valid()
    ensures Finish(s, env).fault.None? ==> Finish(s, env).state.Valid()
  {
  }

  lemma OpenFileValid(s: Rx, m: Metadata, env: Env)
    requires s.file.meta == Some(m) && !s.file.streaming
    ensures OpenFile(s, m, env).fault.None? ==> OpenFile(s, m, env).state.Valid()
  {
    var d := ChooseDirectory(s, m, env);
    var o := OpenTarget(d.state, m, env);
    if d.fault.None? && o.fault.None? && m.chunks == 0 {
      FinishValid(o.state, env);
    }
  }

  lemma AcceptChunkValid(s: Rx, plain: seq<byte>, env: Env)
    requires s.Valid() && s.file.metadataReceived
    ensures AcceptChunk(s, plain, env).fault.None? ==> AcceptChunk(s, plain, env).state.Valid()
  {
    var o := StoreChunk(s.file, plain, env);
    if o.fault.None? {
      FinishValid(s.(file := o.file), env);
    }
  }

  lemma StepValid(c: Session, s: Rx, frame: Frame, env: Env)
    requires s.Valid()
    ensures Step(c, s, frame, env).fault.None? ==> Step(c, s, frame, env).state.Valid()
  {
    var plain := Unseal(c.key, ExpectedAad(c, s), frame);
    if plain.Some? {
      if s.file.metadataReceived {
        AcceptChunkValid(s, plain.value, env);
      } else {
        var parsed := Validate(c.codec.parse(plain.value));
        if parsed.Some? {
          OpenFileValid(Announce(s, parsed.value), parsed.value, env);
        }
      }
    }
  }

  /** The receiver after the first n frames; the chain of tasks stops at the first failing one. */
  function After(c: Session, frames: seq<Frame>, envs: seq<Env>, n: nat): (o: Outcome)
    requires n <= |frames| == |envs|
    ensures o.fault.None? ==> o.state.Valid()
  {
    if n == 0 then Outcome(START, None) else
      var o := After(c, frames, envs, n - 1);
      if o.fault.Some? then o else
        StepValid(c, o.state, frames[n - 1], envs[n - 1]);
        Step(c, o.state, frames[n - 1], envs[n - 1])
  }

  // ----- the code

  class Receiver {
    const session: Session
    var metadataReceived: bool
    var receivedMetadata: Option<Metadata>
    var fileIndex: nat
    var fileCount: nat
    var totalChunks: nat
    var currentChunk: nat
    var batchTotalChunks: nat
    var batchDoneChunks: nat
    var isTextPayload: bool
    var streaming: bool
    var writable: Option<seq<byte>>     // bytes written to the open stream
    var fileHandle: Option<Target>
    var bytesWritten: nat
    var merged: array?<byte>
    var mergeOffset: nat
    var saveDir: bool
    var savedFilenames: set<string>
    var delivered: seq<Delivery>        // closed files, download links and shown texts, in order

    ghost function File(): Current
      reads this, merged
    {
      Current(
        metadataReceived, receivedMetadata, totalChunks, currentChunk, streaming, writable, fileHandle, bytesWritten,
        if merged == null then None else Some(merged[..]), mergeOffset)
    }

    ghost function State(): Rx
      reads this, merged
    {
      Rx(File(), fileIndex, fileCount, batchTotalChunks, batchDoneChunks, isTextPayload, saveDir, savedFilenames,
        delivered)
    }

    constructor (session: Session)
      ensures State() == START && this.session == session
    {
      this.session := session;
      metadataReceived, receivedMetadata := false, None;
      fileIndex, fileCount, totalChunks, currentChunk := 0, 1, 0, 0;
      batchTotalChunks, batchDoneChunks, isTextPayload := 0, 0, false;
      streaming, writable, fileHandle, bytesWritten := false, None, None, 0;
      merged, mergeOffset, saveDir, savedFilenames, delivered := null, 0, false, {}, [];
    }

    method ResetForNextFile()
      modifies this`metadataReceived, this`currentChunk, this`totalChunks, this`merged, this`mergeOffset, this`writable,
        this`fileHandle, this`streaming, this`receivedMetadata, this`bytesWritten
      ensures File() == NO_FILE && merged == null
    {
      metadataReceived := false;
      currentChunk := 0;
      totalChunks := 0;
      merged := null;
      mergeOffset := 0;
      writable := None;
      fileHandle := None;
      streaming := false;
      receivedMetadata := None;
      bytesWritten := 0;
    }

    method FinishCurrentFile(env: Env) returns (fault: Option<Fault>)
      requires File().Open()
      modifies this
      ensures Outcome(State(), fault) == Finish(old(State()), env)
      ensures merged == old(merged) || merged == null
    {
      var metadata := receivedMetadata.value;
      var written := if streaming then bytesWritten else mergeOffset;
      if written != metadata.size {
        return Some(Incomplete);
      }
      if metadata.isText {
        delivered := delivered + [TextShown(merged[..])];
      } else if streaming {
        if !env.closes {
          return Some(DiskFault);
        }
        delivered := delivered + [Saved(fileHandle.value, writable.value)];
        writable := None;
      } else {
        delivered := delivered + [Download(metadata.name, merged[..])];
      }
      if fileIndex + 1 < fileCount {
        batchDoneChunks := batchDoneChunks + metadata.chunks;
        ResetForNextFile();
      }
      return None;
    }

    /** merged.set(data, mergeOffset) */
    method WriteMerged(data: seq<byte>)
      requires merged != null && mergeOffset + |data| <= merged.Length
      modifies merged
      ensures merged[..] == Overlay(old(merged[..]), mergeOffset, data)
    {
      var i := 0;
      while i < |data|
        invariant 0 <= i <= |data|
        invariant forall k :: 0 <= k < merged.Length ==>
          merged[k] == if mergeOffset <= k < mergeOffset + i then data[k - mergeOffset] else old(merged[k])
      {
        merged[mergeOffset + i] := data[i];
        i := i + 1;
      }
    }

    method AnnounceFile(metadata: Metadata)
      modifies this`metadataReceived, this`receivedMetadata, this`totalChunks, this`currentChunk, this`streaming,
        this`writable, this`bytesWritten
      ensures File() == AnnouncedFile(old(File()), metadata)
    {
      metadataReceived := true;
      receivedMetadata := Some(metadata);
      totalChunks := metadata.chunks;
      currentChunk := 0;
      streaming := false;
      writable := None;
      bytesWritten := 0;
    }

    method AnnounceMetadata(metadata: Metadata)
      modifies this
      ensures State() == Announce(old(State()), metadata) && !streaming && merged == old(merged)
    {
      AnnounceFile(metadata);
      fileIndex := metadata.fileIndex;
      fileCount := metadata.fileCount;
      batchTotalChunks := metadata.batchTotalChunks;
      isTextPayload := metadata.isText;
    }

    method AskDirectory(metadata: Metadata, env: Env) returns (fault: Option<Fault>)
      modifies this`saveDir
      ensures Outcome(State(), fault) == ChooseDirectory(old(State()), metadata, env)
    {
      if !metadata.isText && metadata.fileIndex == 0 && metadata.fileCount > 1 && !env.dir.Unavailable? {
        if env.dir.Chosen? {
          saveDir := true;
        } else if env.dir.Aborted? {
          return Some(PickerAborted);
        }
      }
      return None;
    }

    method StartStream(target: Target)
      modifies this`fileHandle, this`writable, this`streaming
      ensures File() == StreamTo(old(File()), target)
    {
      fileHandle := Some(target);
      writable := Some([]);
      streaming := true;
    }

    method OpenTargetFor(metadata: Metadata, env: Env) returns (fault: Option<Fault>)
      requires !streaming
      modifies this`savedFilenames, this`fileHandle, this`writable, this`streaming, this`merged, this`mergeOffset
      ensures Outcome(State(), fault) == OpenTarget(old(State()), metadata, env)
      ensures merged == old(merged) || fresh(merged)
    {
      if saveDir && !metadata.isText {
        var saveName, used := DedupeFilename(metadata.name, savedFilenames);
        savedFilenames := used;
        if !env.opens {
          return Some(DiskFault);
        }
        StartStream(InDirectory(saveName));
      } else if !metadata.isText && !env.save.Unavailable? {
        if env.save.Chosen? {
          fileHandle := Some(Picked(metadata.name));
          if env.opens {
            StartStream(Picked(metadata.name));
          }
        } else if env.save.Aborted? {
          return Some(PickerAborted);
        }
      }
      if !streaming {
        fault := UseMemory(metadata.size);
      } else {
        fault := None;
      }
    }

    /** A buffer for a file that no stream takes. */
    method UseMemory(size: nat) returns (fault: Option<Fault>)
      modifies this`merged, this`mergeOffset
      ensures Outcome(State(), fault) == IntoMemory(old(State()), size)
      ensures merged == old(merged) || fresh(merged)
    {
      if size > MAX_IN_MEMORY_RECEIVE_BYTES {
        return Some(TooLargeForMemory);
      }
      merged := new byte[size](_ => 0);
      mergeOffset := 0;
      assert merged[..] == Zeros(size);
      return None;
    }

    method ReceiveMetadata(decrypted: seq<byte>, env: Env) returns (fault: Option<Fault>)
      requires !metadataReceived
      modifies this
      ensures Outcome(State(), fault) == AcceptMetadata(session, old(State()), decrypted, env)
      ensures merged == old(merged) || merged == null || fresh(merged)
    {
      hide Finish, Zeros, Dedupe, Validate;
      metadataReceived := true;
      var parsed := Validate(session.codec.parse(decrypted));
      if parsed.None? {
        return Some(BadMetadata);
      }
      AnnounceMetadata(parsed.value);
      fault := AskDirectory(parsed.value, env);
      if fault.None? {
        fault := OpenTargetFor(parsed.value, env);
      }
      if fault.None? && parsed.value.chunks == 0 {
        fault := FinishCurrentFile(env);
      }
    }

    method Store(decrypted: seq<byte>, env: Env) returns (fault: Option<Fault>)
      requires File().Valid() && metadataReceived
      modifies this`bytesWritten, this`writable, this`mergeOffset, this`currentChunk, merged
      ensures Stored(File(), fault) == StoreChunk(old(File()), decrypted, env)
    {
      if streaming {
        bytesWritten := bytesWritten + |decrypted|;
        if bytesWritten > receivedMetadata.value.size {
          return Some(TooLong);
        }
        if writable.None? {
          return Some(NoWriter);
        }
        if !env.writes {
          return Some(DiskFault);
        }
        writable := Some(writable.value + decrypted);
      } else {
        var nextOffset := mergeOffset + |decrypted|;
        if nextOffset > receivedMetadata.value.size {
          return Some(TooLong);
        }
        WriteMerged(decrypted);
        mergeOffset := nextOffset;
      }
      currentChunk := currentChunk + 1;
      return None;
    }

    method ReceiveChunk(decrypted: seq<byte>, env: Env) returns (fault: Option<Fault>)
      requires State().Valid() && metadataReceived
      modifies this, merged
      ensures Outcome(State(), fault) == AcceptChunk(old(State()), decrypted, env)
      ensures merged == old(merged) || merged == null
    {
      fault := Store(decrypted, env);
      if fault.None? && currentChunk >= totalChunks {
        fault := FinishCurrentFile(env);
      }
    }

    method HandleReceivedData(data: Frame, env: Env) returns (fault: Option<Fault>)
      requires State().Valid()
      modifies this, merged
      ensures Outcome(State(), fault) == Step(session, old(State()), data, env)
      ensures merged == old(merged) || merged == null || fresh(merged)
      ensures fault.None? ==> State().Valid()
    {
      StepValid(session, State(), data, env);
      var seqNo := if metadataReceived then currentChunk else METADATA_AAD_SEQ;
      var aadFileIndex := if metadataReceived then fileIndex else METADATA_FILE_INDEX;
      var aad := EncodeAAD(session.tid, aadFileIndex, seqNo);
      var decrypted := Unseal(session.key, aad, data);
      if decrypted.None? {
        return Some(NotOpened);
      }
      if !metadataReceived {
        fault := ReceiveMetadata(decrypted.value, env);
      } else {
        fault := ReceiveChunk(decrypted.value, env);
      }
    }

    /** isBatchComplete */
    method IsComplete() returns (complete: bool)
      ensures complete == IsBatchComplete(State())
    {
      var fileDone := totalChunks == 0 || (totalChunks > 0 && currentChunk >= totalChunks);
      return fileDone && fileIndex >= fileCount - 1;
    }
  }
}
