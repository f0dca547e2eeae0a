/**
 * The central law of a transfer: feeding the sender's stream to the receiver gives back the sender's
 * files. The receiver's state is known after every single frame, and with it its progress and its
 * completion test.
 */
module RoundTrip {
  import opened Bytes
  import opened Limits
  import opened Metadata
  import opened Filenames
  import opened Binding
  import opened Aead
  import opened Batch
  import opened Receiver
  import opened Reception

  /** The frames carry the stream of the batch, in order, under its key; nonces do not matter here. */
  ghost predicate Carries(b: Batch, frames: seq<Frame>) {
    && |frames| == |Stream(b)|
    && forall j :: 0 <= j < |frames| ==>
      && frames[j].Sealed? && frames[j].key == b.key
      && frames[j].aad == Stream(b)[j].aad && frames[j].plain == Stream(b)[j].plain
  }

  /** The sender and the channel are honest; the user and the disk may do what they like. */
  ghost predicate Honest(b: Batch, frames: seq<Frame>, envs: seq<Env>) {
    ValidBatch(b) && Carries(b, frames) && |envs| == |frames|
  }

  // ----- what the user chose, and what is therefore expected

  /** The browser's behaviour when the metadata of file i arrives. */
  function MetaEnv(b: Batch, envs: seq<Env>, i: nat): Env
    requires i < |b.files| && |envs| == |Stream(b)|
  {
    SealingAt(b, |b.files|, i, 0);
    envs[Pos(b, i)]
  }

  /** The batch is saved into one directory. */
  predicate InDirectoryMode(b: Batch, envs: seq<Env>)
    requires b.files != [] && |envs| == |Stream(b)|
  {
    !b.text && |b.files| > 1 && MetaEnv(b, envs, 0).dir.Chosen?
  }

  function CleanNames(b: Batch, i: nat): (names: seq<string>)
    requires i <= |b.files|
    ensures |names| == i
  {
    if i == 0 then [] else CleanNames(b, i - 1) + [Sanitize(b.files[i - 1].name)]
  }

  /** The names used in the directory by the first i files. */
  function Used(b: Batch, envs: seq<Env>, i: nat): set<string>
    requires b.files != [] && |envs| == |Stream(b)| && i <= |b.files|
  {
    if InDirectoryMode(b, envs) then NameSet(SavedNames(CleanNames(b, i))) else {}
  }

  function TargetOf(b: Batch, envs: seq<Env>, i: nat): Option<Target>
    requires i < |b.files| && |envs| == |Stream(b)|
  {
    if b.text then None
    else if InDirectoryMode(b, envs) then Some(InDirectory(SavedNames(CleanNames(b, i + 1))[i]))
    else if MetaEnv(b, envs, i).save.Chosen? && MetaEnv(b, envs, i).opens then Some(Picked(Sanitize(b.files[i].name)))
    else None
  }

  /** What the user should hold after the first i files. */
  function Expected(b: Batch, envs: seq<Env>, i: nat): (d: seq<Delivery>)
    requires b.files != [] && |envs| == |Stream(b)| && i <= |b.files|
    ensures |d| == i
  {
    if i == 0 then [] else Expected(b, envs, i - 1) + [DeliveryTo(b, i - 1, TargetOf(b, envs, i - 1))]
  }

  /** The receiver can take file i: not too many chunks, and not too large for memory if it goes there. */
  predicate Fits(b: Batch, envs: seq<Env>, i: nat)
    requires i < |b.files| && |envs| == |Stream(b)|
  {
    Chunks(b, i) <= MAX_CHUNKS && (TargetOf(b, envs, i).Some? || Size(b, i) <= MAX_IN_MEMORY_RECEIVE_BYTES)
  }

  /**
   * The browser lets frame k of file i pass (frame 0 is the metadata): no dialog is cancelled, the file
   * has a place to go, and the disk takes what it is given.
   */
  predicate Passes(b: Batch, envs: seq<Env>, i: nat, k: nat)
    requires i < |b.files| && |envs| == |Stream(b)| && k <= Chunks(b, i)
  {
    SealingAt(b, |b.files|, i, k);
    var env := envs[Pos(b, i) + k];
    var streams := TargetOf(b, envs, i).Some?;
    && (k == 0 ==>
      && Fits(b, envs, i)
      && !(AsksDirectory(MetaOf(b, i), env) && env.dir.Aborted?)
      && (b.text || if InDirectoryMode(b, envs) then env.opens else !env.save.Aborted?))
    && (k > 0 && streams ==> env.writes)
    && (k == Chunks(b, i) && streams ==> env.closes)
  }

  ghost predicate PassUpTo(b: Batch, envs: seq<Env>, n: nat)
    requires |envs| == |Stream(b)|
  {
    forall i: nat, k: nat :: i < |b.files| && k <= Chunks(b, i) && Pos(b, i) + k < n ==> Passes(b, envs, i, k)
  }

  /** The user cancels nothing and the disk works. */
  predicate Cooperative(env: Env) {
    !env.dir.Aborted? && !env.save.Aborted? && env.opens && env.writes && env.closes
  }

  lemma UsedGrows(b: Batch, envs: seq<Env>, i: nat)
    requires i < |b.files| && |envs| == |Stream(b)| && InDirectoryMode(b, envs)
    ensures TargetOf(b, envs, i) == Some(InDirectory(Dedupe(Sanitize(b.files[i].name), Used(b, envs, i))))
    ensures Used(b, envs, i + 1) == Used(b, envs, i) + {Dedupe(Sanitize(b.files[i].name), Used(b, envs, i))}
  {
    var names := CleanNames(b, i + 1);
    assert names[..i] == CleanNames(b, i);
    var before := SavedNames(CleanNames(b, i));
    var d := Dedupe(Sanitize(b.files[i].name), NameSet(before));
    assert SavedNames(names) == before + [d];
    assert NameSet(before + [d]) == NameSet(before) + {d};
  }

  // ----- the state after every frame

  /** The receiver waits for the metadata of file i. */
  ghost predicate Waiting(b: Batch, envs: seq<Env>, s: Rx, i: nat)
    requires i < |b.files| && |envs| == |Stream(b)|
  {
    && s.file == NO_FILE
    && s.saveDir == (i > 0 && InDirectoryMode(b, envs)) && s.savedFilenames == Used(b, envs, i)
    && s.delivered == Expected(b, envs, i) && s.batchDoneChunks == ChunksBefore(b, i)
  }

  /** The receiver has handled the metadata of file i and k of its chunks. */
  ghost predicate At(b: Batch, envs: seq<Env>, s: Rx, i: nat, k: nat)
    requires i < |b.files| && |envs| == |Stream(b)|
  {
    && s.fileIndex == i && s.fileCount == |b.files| && s.batchTotalChunks == BatchTotal(b) && s.isText == b.text
    && s.saveDir == InDirectoryMode(b, envs) && s.savedFilenames == Used(b, envs, i + 1)
    && if k < Chunks(b, i) then
         && Holds(b, s.file, i, k) && TargetIn(s.file) == TargetOf(b, envs, i)
         && s.delivered == Expected(b, envs, i) && s.batchDoneChunks == ChunksBefore(b, i)
       else
         && s.delivered == Expected(b, envs, i + 1)
         && if i + 1 < |b.files| then s.file == NO_FILE && s.batchDoneChunks == ChunksBefore(b, i + 1)
            else Ended(b, s.file, i) && s.batchDoneChunks == ChunksBefore(b, i)
  }

  lemma Finishes(b: Batch, envs: seq<Env>, s: Rx, i: nat, env: Env)
    requires i < |b.files| && |envs| == |Stream(b)|
    requires s.fileIndex == i && s.fileCount == |b.files| && s.batchTotalChunks == BatchTotal(b) && s.isText == b.text
    requires s.saveDir == InDirectoryMode(b, envs) && s.savedFilenames == Used(b, envs, i + 1)
    requires Holds(b, s.file, i, Chunks(b, i)) && TargetIn(s.file) == TargetOf(b, envs, i)
    requires s.delivered == Expected(b, envs, i) && s.batchDoneChunks == ChunksBefore(b, i)
    ensures s.file.Open()
    ensures Finish(s, env).fault.None? <==> (TargetOf(b, envs, i).Some? ==> env.closes)
    ensures Finish(s, env).fault.None? ==> At(b, envs, Finish(s, env).state, i, Chunks(b, i))
  {
    FileFinishes(b, s, i, env);
  }

  /** The dialogs are answered and the target is open. */
  predicate CanOpen(b: Batch, envs: seq<Env>, i: nat)
    requires i < |b.files| && |envs| == |Stream(b)|
  {
    var env := MetaEnv(b, envs, i);
    && !(AsksDirectory(MetaOf(b, i), env) && env.dir.Aborted?)
    && (b.text || if InDirectoryMode(b, envs) then env.opens else !env.save.Aborted?)
    && (TargetOf(b, envs, i).Some? || Size(b, i) <= MAX_IN_MEMORY_RECEIVE_BYTES)
  }

  lemma Opens(b: Batch, envs: seq<Env>, s: Rx, i: nat)
    requires ValidBatch(b) && i < |b.files| && |envs| == |Stream(b)| && Waiting(b, envs, s, i)
    ensures var a := Announce(s, MetaOf(b, i));
      var d := ChooseDirectory(a, MetaOf(b, i), MetaEnv(b, envs, i));
      var o := OpenTarget(d.state, MetaOf(b, i), MetaEnv(b, envs, i));
      && (d.fault.None? && o.fault.None? <==> CanOpen(b, envs, i))
      && (d.fault.None? && o.fault.None? ==>
        && d.state == a.(saveDir := InDirectoryMode(b, envs))
        && Holds(b, o.state.file, i, 0) && TargetIn(o.state.file) == TargetOf(b, envs, i)
        && o.state == d.state.(file := o.state.file, savedFilenames := Used(b, envs, i + 1)))
  {
    var a := Announce(s, MetaOf(b, i));
    var d := a.(saveDir := InDirectoryMode(b, envs));
    if InDirectoryMode(b, envs) {
      UsedGrows(b, envs, i);
    }
    TargetOpens(b, d, i, MetaEnv(b, envs, i));
  }

  lemma AnnouncedFields(b: Batch, envs: seq<Env>, s: Rx, i: nat)
    requires i < |b.files| && |envs| == |Stream(b)| && Waiting(b, envs, s, i)
    ensures var a := Announce(s, MetaOf(b, i));
      && a.fileIndex == i && a.fileCount == |b.files| && a.batchTotalChunks == BatchTotal(b) && a.isText == b.text
      && a.delivered == Expected(b, envs, i) && a.batchDoneChunks == ChunksBefore(b, i) && !a.file.streaming
      && a.file.meta == Some(MetaOf(b, i))
  {
  }

  lemma AnnouncedOpens(b: Batch, envs: seq<Env>, s: Rx, i: nat)
    requires ValidBatch(b) && i < |b.files| && |envs| == |Stream(b)| && Waiting(b, envs, s, i)
    ensures var env := MetaEnv(b, envs, i);
      var o := OpenFile(Announce(s, MetaOf(b, i)), MetaOf(b, i), env);
      && (o.fault.None? <==> CanOpen(b, envs, i) && (Chunks(b, i) == 0 && TargetOf(b, envs, i).Some? ==> env.closes))
      && (o.fault.None? ==> At(b, envs, o.state, i, 0))
  {
    Opens(b, envs, s, i);
    AnnouncedFields(b, envs, s, i);
    hide Waiting, CanOpen, ChooseDirectory, OpenTarget, Announce, Finish;
    hide Holds, Expected, Used, TargetOf, InDirectoryMode, MetaEnv;
    var env := MetaEnv(b, envs, i);
    var d := ChooseDirectory(Announce(s, MetaOf(b, i)), MetaOf(b, i), env);
    var o := OpenTarget(d.state, MetaOf(b, i), env);
    if d.fault.None? && o.fault.None? && Chunks(b, i) == 0 {
      Finishes(b, envs, o.state, i, env);
    }
  }

  /** What arrives after the metadata and k - 1 chunks of file i. */
  lemma FrameAt(b: Batch, frames: seq<Frame>, envs: seq<Env>, i: nat, k: nat)
    requires Honest(b, frames, envs) && i < |b.files| && k <= Chunks(b, i)
    ensures Pos(b, i) + k < |frames|
    ensures var x := if k == 0 then MetaSealing(b, i) else ChunkSealing(b, i, k - 1);
      Unseal(b.key, x.aad, frames[Pos(b, i) + k]) == Some(x.plain)
  {
    SealingAt(b, |b.files|, i, k);
  }

  lemma StepOnMetadata(b: Batch, s: Rx, frame: Frame, env: Env, i: nat)
    requires i < |b.files| && s.Valid() && !s.file.metadataReceived
    requires Unseal(b.key, MetadataAad(b.tid), frame) == Some(MetaSealing(b, i).plain)
    ensures Step(SessionOf(b), s, frame, env) ==
      AcceptMetadata(SessionOf(b), s, b.codec.stringify(MetaFields(b, i)), env)
  {
  }

  lemma StepOnChunk(b: Batch, s: Rx, frame: Frame, env: Env, i: nat, k: nat)
    requires i < |b.files| && k < Chunks(b, i) && s.Valid() && s.file.metadataReceived
    requires s.fileIndex == i && s.file.currentChunk == k
    requires Unseal(b.key, Aad(b.tid, i, k), frame) == Some(ChunkBytes(b, i, k))
    ensures Step(SessionOf(b), s, frame, env) == AcceptChunk(s, ChunkBytes(b, i, k), env)
  {
  }

  lemma HasFiles(b: Batch, frames: seq<Frame>, envs: seq<Env>)
    requires Honest(b, frames, envs)
    ensures b.files != []
  {
  }

  lemma MetaEnvs(b: Batch, frames: seq<Frame>, envs: seq<Env>, i: nat)
    requires Honest(b, frames, envs) && i < |b.files|
    ensures ValidBatch(b) && |envs| == |frames| == |Stream(b)| && Pos(b, i) < |envs|
    ensures MetaEnv(b, envs, i) == envs[Pos(b, i)]
    ensures MetaSealing(b, i) == Sealing(MetadataAad(b.tid), b.codec.stringify(MetaFields(b, i)))
  {
    FrameAt(b, frames, envs, i, 0);
  }

  lemma WaitingForMetadata(b: Batch, envs: seq<Env>, s: Rx, i: nat)
    requires i < |b.files| && |envs| == |Stream(b)| && Waiting(b, envs, s, i)
    ensures !s.file.metadataReceived
  {
  }

  /** The metadata frame of file i is accepted exactly when it may pass. */
  lemma MetadataFrame(b: Batch, frames: seq<Frame>, envs: seq<Env>, s: Rx, i: nat)
    requires Honest(b, frames, envs) && i < |b.files| && Waiting(b, envs, s, i) && s.Valid()
    ensures Pos(b, i) < |frames|
    ensures var o := Step(SessionOf(b), s, frames[Pos(b, i)], envs[Pos(b, i)]);
      && (o.fault.None? <==> Passes(b, envs, i, 0))
      && (o.fault.None? ==> At(b, envs, o.state, i, 0))
  {
    hide *;
    FrameAt(b, frames, envs, i, 0);
    MetaEnvs(b, frames, envs, i);
    WaitingForMetadata(b, envs, s, i);
    var env := envs[Pos(b, i)];
    StepOnMetadata(b, s, frames[Pos(b, i)], env, i);
    MetaAnnounced(b, s, i, env);
    AnnouncedOpens(b, envs, s, i);
    MetaPasses(b, envs, i);
  }

  lemma MetaPasses(b: Batch, envs: seq<Env>, i: nat)
    requires i < |b.files| && |envs| == |Stream(b)|
    ensures Passes(b, envs, i, 0) <==>
      && Chunks(b, i) <= MAX_CHUNKS && CanOpen(b, envs, i)
      && (Chunks(b, i) == 0 && TargetOf(b, envs, i).Some? ==> MetaEnv(b, envs, i).closes)
  {
  }

  lemma ChunkPasses(b: Batch, envs: seq<Env>, i: nat, k: nat)
    requires i < |b.files| && |envs| == |Stream(b)| && k < Chunks(b, i)
    ensures Pos(b, i) + 1 + k < |envs|
    ensures var env := envs[Pos(b, i) + 1 + k];
      Passes(b, envs, i, k + 1) <==>
        (TargetOf(b, envs, i).Some? ==> env.writes && (k + 1 == Chunks(b, i) ==> env.closes))
  {
    hide TargetOf, Pos, Chunks, Fits, Sealings, MetaSealing, ChunkSealing, InDirectoryMode, MetaEnv;
    SealingAt(b, |b.files|, i, k + 1);
  }

  lemma StreamingIs(b: Batch, envs: seq<Env>, s: Rx, i: nat, k: nat)
    requires i < |b.files| && |envs| == |Stream(b)| && k < Chunks(b, i) && At(b, envs, s, i, k)
    ensures s.file.streaming <==> TargetOf(b, envs, i).Some?
  {
  }

  lemma ChunkAccepted(b: Batch, envs: seq<Env>, s: Rx, i: nat, k: nat, env: Env)
    requires i < |b.files| && k < Chunks(b, i) && |envs| == |Stream(b)|
    requires At(b, envs, s, i, k) && s.Valid() && s.file.metadataReceived
    ensures var o := AcceptChunk(s, ChunkBytes(b, i, k), env);
      && (o.fault.None? <==> (TargetOf(b, envs, i).Some? ==> env.writes && (k + 1 == Chunks(b, i) ==> env.closes)))
      && (o.fault.None? ==> At(b, envs, o.state, i, k + 1))
  {
    hide Finish, StoreChunk, ChunkBytes, Chunks, TargetOf, Expected, Used, Stores, InDirectoryMode, Prefix;
    StreamingIs(b, envs, s, i, k);
    ChunkStored(b, s.file, i, k, env);
    var r := StoreChunk(s.file, ChunkBytes(b, i, k), env);
    if r.fault.None? && k + 1 == Chunks(b, i) {
      Finishes(b, envs, s.(file := r.file), i, env);
    }
  }

  lemma AtChunk(b: Batch, envs: seq<Env>, s: Rx, i: nat, k: nat)
    requires i < |b.files| && k < Chunks(b, i) && |envs| == |Stream(b)| && At(b, envs, s, i, k)
    ensures s.file.metadataReceived && s.fileIndex == i && s.file.currentChunk == k
    ensures ChunkSealing(b, i, k) == Sealing(Aad(b.tid, i, k), ChunkBytes(b, i, k))
  {
  }

  lemma ChunkFrame(b: Batch, frames: seq<Frame>, envs: seq<Env>, s: Rx, i: nat, k: nat)
    requires Honest(b, frames, envs) && i < |b.files| && k < Chunks(b, i) && At(b, envs, s, i, k) && s.Valid()
    ensures Pos(b, i) + 1 + k < |frames|
    ensures var o := Step(SessionOf(b), s, frames[Pos(b, i) + 1 + k], envs[Pos(b, i) + 1 + k]);
      && (o.fault.None? <==> Passes(b, envs, i, k + 1))
      && (o.fault.None? ==> At(b, envs, o.state, i, k + 1))
  {
    hide *;
    FrameAt(b, frames, envs, i, k + 1);
    MetaEnvs(b, frames, envs, i);
    AtChunk(b, envs, s, i, k);
    ChunkPasses(b, envs, i, k);
    StepOnChunk(b, s, frames[Pos(b, i) + 1 + k], envs[Pos(b, i) + 1 + k], i, k);
    ChunkAccepted(b, envs, s, i, k, envs[Pos(b, i) + 1 + k]);
  }

  /** The run has handled n frames without a fault and the receiver is in state s. */
  ghost predicate Reached(b: Batch, frames: seq<Frame>, envs: seq<Env>, n: nat, s: Rx) {
    n <= |frames| == |envs| && After(SessionOf(b), frames, envs, n) == Outcome(s, None)
  }

  lemma Advance(b: Batch, frames: seq<Frame>, envs: seq<Env>, n: nat, s: Rx)
    requires Reached(b, frames, envs, n, s) && n < |frames| == |envs|
    ensures s.Valid()
    ensures var o := Step(SessionOf(b), s, frames[n], envs[n]);
      && After(SessionOf(b), frames, envs, n + 1) == o
      && (o.fault.None? ==> Reached(b, frames, envs, n + 1, o.state))
  {
    hide Step;
  }

  /** After the last frame of a file the receiver waits for the next one. */
  lemma AtWaiting(b: Batch, envs: seq<Env>, s: Rx, i: nat)
    requires i + 1 < |b.files| && |envs| == |Stream(b)| && At(b, envs, s, i, Chunks(b, i))
    ensures Waiting(b, envs, s, i + 1) && Pos(b, i + 1) == Pos(b, i) + Chunks(b, i) + 1
  {
  }

  /**
   * After the metadata and k chunks of file i the receiver has failed exactly if some frame so far could
   * not pass, and otherwise it is exactly where it should be.
   */
  lemma {:induction false} RunExact(b: Batch, frames: seq<Frame>, envs: seq<Env>, i: nat, k: nat)
    requires Honest(b, frames, envs) && i < |b.files| && k <= Chunks(b, i)
    ensures Pos(b, i) + k < |frames| == |envs| == |Stream(b)|
    ensures var n := Pos(b, i) + k + 1;
      var o := After(SessionOf(b), frames, envs, n);
      && (o.fault.None? <==> PassUpTo(b, envs, n))
      && (o.fault.None? ==> Reached(b, frames, envs, n, o.state) && At(b, envs, o.state, i, k))
    decreases i, k + 1
  {
    hide *;
    FrameAt(b, frames, envs, i, k);
    MetaEnvs(b, frames, envs, i);
    var n := Pos(b, i) + k;
    if k > 0 {
      RunExact(b, frames, envs, i, k - 1);
    } else {
      ReachesFile(b, frames, envs, i);
    }
    PassesNext(b, envs, i, k);
    var o := After(SessionOf(b), frames, envs, n);
    if o.fault.None? {
      Advance(b, frames, envs, n, o.state);
      if k > 0 {
        ChunkFrame(b, frames, envs, o.state, i, k - 1);
      } else {
        MetadataFrame(b, frames, envs, o.state, i);
      }
    } else {
      FaultStays(SessionOf(b), frames, envs, n, n + 1);
    }
  }

  lemma {:induction false} ReachesFile(b: Batch, frames: seq<Frame>, envs: seq<Env>, i: nat)
    requires Honest(b, frames, envs) && i < |b.files|
    ensures Pos(b, i) < |frames| == |envs| == |Stream(b)|
    ensures var o := After(SessionOf(b), frames, envs, Pos(b, i));
      && (o.fault.None? <==> PassUpTo(b, envs, Pos(b, i)))
      && (o.fault.None? ==> Reached(b, frames, envs, Pos(b, i), o.state) && Waiting(b, envs, o.state, i))
    decreases i, 0
  {
    hide *;
    FrameAt(b, frames, envs, i, 0);
    MetaEnvs(b, frames, envs, i);
    if i == 0 {
      AtStart(b, frames, envs);
    } else {
      RunExact(b, frames, envs, i - 1, Chunks(b, i - 1));
      PosNext(b, i - 1);
      var o := After(SessionOf(b), frames, envs, Pos(b, i));
      if o.fault.None? {
        AtWaiting(b, envs, o.state, i - 1);
      }
    }
  }

  lemma AtStart(b: Batch, frames: seq<Frame>, envs: seq<Env>)
    requires Honest(b, frames, envs) && b.files != [] && |envs| == |Stream(b)|
    ensures Pos(b, 0) == 0 && PassUpTo(b, envs, 0)
    ensures Reached(b, frames, envs, 0, START) && After(SessionOf(b), frames, envs, 0) == Outcome(START, None)
    ensures Waiting(b, envs, START, 0)
  {
    hide Passes, Stream, InDirectoryMode;
  }

  lemma PosNext(b: Batch, i: nat)
    requires i < |b.files|
    ensures Pos(b, i + 1) == Pos(b, i) + Chunks(b, i) + 1
  {
  }

  /** One more frame to pass. */
  lemma PassesNext(b: Batch, envs: seq<Env>, i: nat, k: nat)
    requires i < |b.files| && |envs| == |Stream(b)| && k <= Chunks(b, i)
    ensures PassUpTo(b, envs, Pos(b, i) + k + 1) <==> PassUpTo(b, envs, Pos(b, i) + k) && Passes(b, envs, i, k)
  {
    hide Passes, Stream;
    var n := Pos(b, i) + k;
    if PassUpTo(b, envs, n) && Passes(b, envs, i, k) {
      forall i': nat, k': nat | i' < |b.files| && k' <= Chunks(b, i') && Pos(b, i') + k' < n + 1
        ensures Passes(b, envs, i', k')
      {
        if Pos(b, i') + k' == n {
          PosUnique(b, i, k, i', k');
        }
      }
    }
  }

  lemma PosUnique(b: Batch, i: nat, k: nat, j: nat, l: nat)
    requires i < |b.files| && j < |b.files| && k <= Chunks(b, i) && l <= Chunks(b, j) && Pos(b, i) + k == Pos(b, j) + l
    ensures i == j && k == l
  {
    if i < j {
      ChunksBeforeGrows(b, i + 1, j);
    } else if j < i {
      ChunksBeforeGrows(b, j + 1, i);
    }
  }

  lemma {:induction false} FaultStays(c: Session, frames: seq<Frame>, envs: seq<Env>, m: nat, n: nat)
    requires m <= n <= |frames| == |envs|
    ensures After(c, frames, envs, m).fault.Some? ==> After(c, frames, envs, n) == After(c, frames, envs, m)
  {
    hide Step;
    if m < n {
      FaultStays(c, frames, envs, m, n - 1);
    }
  }

  lemma AtDelivered(b: Batch, envs: seq<Env>, s: Rx)
    requires b.files != [] && |envs| == |Stream(b)| && At(b, envs, s, |b.files| - 1, Chunks(b, |b.files| - 1))
    ensures s.delivered == Expected(b, envs, |b.files|)
  {
  }

  /**
   * Whatever the user and the disk do: the whole stream goes through exactly when every frame may pass,
   * and then the user holds every file - the same bytes, in the same order, under the cleaned names.
   */
  lemma DeliversAll(b: Batch, frames: seq<Frame>, envs: seq<Env>)
    requires Honest(b, frames, envs)
    ensures b.files != [] && |envs| == |Stream(b)|
    ensures var o := After(SessionOf(b), frames, envs, |frames|);
      && (o.fault.None? <==> PassUpTo(b, envs, |frames|))
      && (o.fault.None? ==> o.state.delivered == Expected(b, envs, |b.files|) && IsBatchComplete(o.state))
  {
    hide *;
    HasFiles(b, frames, envs);
    var i := |b.files| - 1;
    MetaEnvs(b, frames, envs, i);
    RunExact(b, frames, envs, i, Chunks(b, i));
    LastPosition(b, i, Chunks(b, i));
    var o := After(SessionOf(b), frames, envs, |frames|);
    if o.fault.None? {
      AtDelivered(b, envs, o.state);
      AtComplete(b, envs, o.state, i, Chunks(b, i));
    }
  }

  lemma CooperativePasses(b: Batch, frames: seq<Frame>, envs: seq<Env>)
    requires Honest(b, frames, envs) && forall j :: 0 <= j < |envs| ==> Cooperative(envs[j])
    ensures |envs| == |Stream(b)|
    ensures PassUpTo(b, envs, |frames|) <==> forall i :: 0 <= i < |b.files| ==> Fits(b, envs, i)
  {
    hide Stream, Fits, TargetOf, InDirectoryMode;
    forall i: nat, k: nat | i < |b.files| && k <= Chunks(b, i)
      ensures Pos(b, i) + k < |frames| && (Passes(b, envs, i, k) <==> (k == 0 ==> Fits(b, envs, i)))
    {
      FrameAt(b, frames, envs, i, k);
    }
    if PassUpTo(b, envs, |frames|) {
      forall i | 0 <= i < |b.files| ensures Fits(b, envs, i) {
        assert Passes(b, envs, i, 0);
      }
    }
  }

  /** When nobody cancels and the disk works, exactly the files that do not fit can stop a batch. */
  lemma CooperativeDelivers(b: Batch, frames: seq<Frame>, envs: seq<Env>)
    requires Honest(b, frames, envs) && forall j :: 0 <= j < |envs| ==> Cooperative(envs[j])
    ensures b.files != [] && |envs| == |Stream(b)|
    ensures var o := After(SessionOf(b), frames, envs, |frames|);
      && (o.fault.None? <==> forall i :: 0 <= i < |b.files| ==> Fits(b, envs, i))
      && (o.fault.None? ==> o.state.delivered == Expected(b, envs, |b.files|))
  {
    hide *;
    DeliversAll(b, frames, envs);
    CooperativePasses(b, frames, envs);
  }

  /** Over the relay only the memory limit can stop a valid batch. */
  lemma RelayFits(b: Batch, envs: seq<Env>, i: nat)
    requires ValidFiles(b.files) && i < |b.files| && |envs| == |Stream(b)| && b.mode == Relay
    ensures Fits(b, envs, i) <==> TargetOf(b, envs, i).Some? || Size(b, i) <= 268_435_456
  {
    hide TargetOf;
    ChunkLimit(Size(b, i), b.mode);
  }

  // ----- progress and completion

  /** The completion test holds exactly after the last chunk of the last file. */
  lemma AtComplete(b: Batch, envs: seq<Env>, s: Rx, i: nat, k: nat)
    requires i < |b.files| && |envs| == |Stream(b)| && k <= Chunks(b, i) && At(b, envs, s, i, k)
    ensures IsBatchComplete(s) <==> i + 1 == |b.files| && k == Chunks(b, i)
  {
  }

  lemma AtProgress(b: Batch, envs: seq<Env>, s: Rx, i: nat, k: nat)
    requires i < |b.files| && |envs| == |Stream(b)| && k <= Chunks(b, i) && At(b, envs, s, i, k)
    ensures GlobalChunk(s) == ChunksBefore(b, i) + k <= s.batchTotalChunks == BatchTotal(b)
    ensures i + 1 == |b.files| && k == Chunks(b, i) ==> GlobalChunk(s) == BatchTotal(b)
  {
    hide Used, Expected, TargetOf, Stores, Prefix, MetaOf;
    ChunksBeforeGrows(b, i + 1, |b.files|);
  }

  /**
   * After frame k of file i (frame 0 is the metadata) the receiver's progress equals the number of
   * chunk frames it has handled, which is what the sender shows for this frame; it never exceeds the
   * announced total and reaches it with the last frame.
   */
  lemma ProgressAgrees(b: Batch, frames: seq<Frame>, envs: seq<Env>, i: nat, k: nat)
    requires Honest(b, frames, envs) && i < |b.files| && k <= Chunks(b, i)
    ensures Pos(b, i) + k < |frames|
    ensures var n := Pos(b, i) + k + 1;
      var o := After(SessionOf(b), frames, envs, n);
      o.fault.None? ==>
        && GlobalChunk(o.state) == ChunksBefore(b, i) + k == n - (i + 1)
        && GlobalChunk(o.state) <= o.state.batchTotalChunks == BatchTotal(b)
        && (n == |frames| ==> GlobalChunk(o.state) == BatchTotal(b))
  {
    assert Pos(b, i) == i + ChunksBefore(b, i);
    hide *;
    RunExact(b, frames, envs, i, k);
    LastPosition(b, i, k);
    var o := After(SessionOf(b), frames, envs, Pos(b, i) + k + 1);
    if o.fault.None? {
      AtProgress(b, envs, o.state, i, k);
    }
  }

  /** The last position of the stream is the last chunk of the last file, or its metadata if it is empty. */
  lemma LastPosition(b: Batch, i: nat, k: nat)
    requires i < |b.files| && k <= Chunks(b, i)
    ensures Pos(b, i) + k + 1 == |Stream(b)| <==> i + 1 == |b.files| && k == Chunks(b, i)
  {
    ChunksBeforeGrows(b, i + 1, |b.files|);
  }

  lemma {:induction false} ChunksBeforeGrows(b: Batch, i: nat, j: nat)
    requires i <= j <= |b.files|
    ensures ChunksBefore(b, i) <= ChunksBefore(b, j)
  {
    if i < j {
      ChunksBeforeGrows(b, i, j - 1);
    }
  }

  /** Once a frame has been handled, the completion test holds exactly after the last one. */
  lemma CompletionExact(b: Batch, frames: seq<Frame>, envs: seq<Env>, n: nat)
    requires Honest(b, frames, envs) && 1 <= n <= |frames|
    ensures var o := After(SessionOf(b), frames, envs, n);
      o.fault.None? ==> (IsBatchComplete(o.state) <==> n == |b.files| + BatchTotal(b))
  {
    hide *;
    StreamTotal(b);
    HasFiles(b, frames, envs);
    MetaEnvs(b, frames, envs, 0);
    var i, k := LocateInStream(b, n - 1);
    RunExact(b, frames, envs, i, k);
    LastPosition(b, i, k);
    var o := After(SessionOf(b), frames, envs, n);
    if o.fault.None? {
      AtComplete(b, envs, o.state, i, k);
    }
  }

  lemma StreamTotal(b: Batch)
    ensures |Stream(b)| == |b.files| + BatchTotal(b)
  {
  }

  lemma LocateInStream(b: Batch, j: nat) returns (i: nat, k: nat)
    requires j < |Stream(b)|
    ensures i < |b.files| && k <= Chunks(b, i) && j == Pos(b, i) + k
  {
    i, k := Locate(b, |b.files|, j);
  }

  /** Before any frame the same test also holds. */
  lemma CompletionBeforeStart()
    ensures IsBatchComplete(START)
  {
  }

  lemma DirectoryTarget(b: Batch, envs: seq<Env>, i: nat)
    requires i < |b.files| && |envs| == |Stream(b)| && InDirectoryMode(b, envs)
    ensures TargetOf(b, envs, i) == Some(InDirectory(SavedNames(CleanNames(b, i + 1))[i]))
  {
  }

  lemma DistinctAt(names: seq<string>, i: nat, j: nat)
    requires Distinct(names) && i < j < |names|
    ensures names[i] != names[j]
  {
  }

  /** The names in the directory are pairwise distinct, whatever the files are called. */
  lemma DirectoryNamesDistinct(b: Batch, envs: seq<Env>, i: nat, j: nat)
    requires ValidBatch(b) && i < j < |b.files| && |envs| == |Stream(b)| && InDirectoryMode(b, envs)
    ensures TargetOf(b, envs, i).Some? && TargetOf(b, envs, j).Some? && TargetOf(b, envs, i) != TargetOf(b, envs, j)
  {
    hide *;
    SavedNamesDistinct(CleanNames(b, j + 1));
    SavedPrefix(b, i + 1, j + 1);
    DirectoryTarget(b, envs, i);
    DirectoryTarget(b, envs, j);
    DistinctAt(SavedNames(CleanNames(b, j + 1)), i, j);
  }

  /** And each of them stays inside the directory. */
  lemma DirectoryNamesInside(b: Batch, envs: seq<Env>, i: nat)
    requires ValidBatch(b) && i < |b.files| && |envs| == |Stream(b)| && InDirectoryMode(b, envs)
    ensures TargetOf(b, envs, i).Some? && TargetOf(b, envs, i).value.InDirectory?
    ensures Inside(TargetOf(b, envs, i).value.name)
  {
    hide *;
    var names := CleanNames(b, i + 1);
    forall j | 0 <= j < |names| ensures Inside(names[j]) {
      CleanInside(b, i + 1, j);
    }
    SavedNamesInside(names);
    DirectoryTarget(b, envs, i);
  }

  lemma {:induction false} CleanInside(b: Batch, n: nat, j: nat)
    requires j < n <= |b.files|
    ensures Inside(CleanNames(b, n)[j])
  {
    hide Sanitize, Inside;
    if j == n - 1 {
      SanitizeHarmless(b.files[j].name);
    } else {
      CleanInside(b, n - 1, j);
    }
  }

  lemma {:induction false} SavedPrefix(b: Batch, i: nat, j: nat)
    requires i <= j <= |b.files|
    ensures SavedNames(CleanNames(b, i)) <= SavedNames(CleanNames(b, j))
  {
    if i < j {
      SavedPrefix(b, i, j - 1);
      assert CleanNames(b, j)[..j - 1] == CleanNames(b, j - 1);
    }
  }
}
