/**
 * What the receiver hands over, for any session and any frames, genuine or not: only files that came whole, of exactly
 * the size their metadata announced, and with nothing in them but what was opened since.
 */
module ReceivedFiles {
  import opened Bytes
  import opened Limits
  import opened Metadata
  import opened Filenames
  import opened Aead
  import opened Receiver

  // ----- what was opened

  /** The plaintext of frame j, if it opens in the state the frames before it lead to. */
  function PlainAt(c: Session, frames: seq<Frame>, envs: seq<Env>, j: nat): Option<seq<byte>>
    requires j < |frames| == |envs|
  {
    Unseal(c.key, ExpectedAad(c, After(c, frames, envs, j).state), frames[j])
  }

  /** The plaintexts of frames m to n - 1, joined. */
  function Joined(c: Session, frames: seq<Frame>, envs: seq<Env>, m: nat, n: nat): seq<byte>
    requires m <= n <= |frames| == |envs|
  {
    if m == n then []
    else
      var plain := PlainAt(c, frames, envs, n - 1);
      Joined(c, frames, envs, m, n - 1) + if plain.Some? then plain.value else []
  }

  /** Frame m came where metadata was expected, and is this metadata. */
  ghost predicate MetaAt(c: Session, frames: seq<Frame>, envs: seq<Env>, m: nat, meta: Metadata)
    requires |frames| == |envs|
  {
    && m < |frames| && !After(c, frames, envs, m).state.file.metadataReceived
    && PlainAt(c, frames, envs, m).Some?
    && Validate(c.codec.parse(PlainAt(c, frames, envs, m).value)) == Some(meta)
  }

  /** Frames m to n - 1 came where chunks were expected, and opened. */
  ghost predicate ChunksAt(c: Session, frames: seq<Frame>, envs: seq<Env>, m: nat, n: nat)
    requires |frames| == |envs|
  {
    m <= n <= |frames| && forall j :: m <= j < n ==>
      After(c, frames, envs, j).state.file.metadataReceived && PlainAt(c, frames, envs, j).Some?
  }

  /** A delivery with this content, of the size, kind and name that the metadata announced. */
  ghost predicate Whole(d: Delivery, meta: Metadata, body: seq<byte>) {
    && |body| == meta.size && d.content == body
    && match d
       case TextShown(_) => meta.isText
       case Download(name, _) => !meta.isText && name == meta.name
       case Saved(target, _) => !meta.isText && (target.Picked? ==> target.name == meta.name)
  }

  /** The delivery is the file of metadata frame m, and its chunks are the frames after it and before e. */
  ghost predicate From(
    c: Session, frames: seq<Frame>, envs: seq<Env>, d: Delivery, m: nat, e: nat, meta: Metadata)
    requires |frames| == |envs|
  {
    && MetaAt(c, frames, envs, m, meta) && m < e && ChunksAt(c, frames, envs, m + 1, e)
    && e - (m + 1) >= meta.chunks && Whole(d, meta, Joined(c, frames, envs, m + 1, e))
  }

  ghost predicate Came(c: Session, frames: seq<Frame>, envs: seq<Env>, d: Delivery, n: nat)
    requires |frames| == |envs|
  {
    exists m: nat, e: nat, meta :: e <= n && From(c, frames, envs, d, m, e, meta)
  }

  ghost predicate AllCame(c: Session, frames: seq<Frame>, envs: seq<Env>, delivered: seq<Delivery>, n: nat)
    requires |frames| == |envs|
  {
    forall i :: 0 <= i < |delivered| ==> Came(c, frames, envs, delivered[i], n)
  }

  /** What is in the open stream or the buffer does not exceed the announced size. */
  predicate InBounds(f: Current) {
    f.meta.Some? ==>
      && (f.streaming && f.writable.Some? ==> |f.writable.value| <= f.meta.value.size)
      && (!f.streaming && f.merged.Some? ==> f.mergeOffset <= |f.merged.value| == f.meta.value.size)
  }

  // ----- the file that is being received

  /** The open file holds this body. */
  ghost predicate Body(f: Current, body: seq<byte>) {
    if f.streaming then
      f.fileHandle.Some? && (f.writable.None? || (f.writable == Some(body) && f.bytesWritten == |body|))
    else f.merged.Some? && f.mergeOffset == |body| <= |f.merged.value| && f.merged.value[..|body|] == body
  }

  /** It belongs to this metadata. */
  ghost predicate Of(f: Current, meta: Metadata) {
    && f.metadataReceived && f.meta == Some(meta) && f.totalChunks == meta.chunks
    && (f.streaming ==>
      !meta.isText && f.fileHandle.Some? && (f.fileHandle.value.Picked? ==> f.fileHandle.value.name == meta.name))
    && (!f.streaming ==> f.merged.Some? && |f.merged.value| == meta.size)
  }

  ghost predicate Held(f: Current, meta: Metadata, body: seq<byte>, k: nat) {
    Of(f, meta) && Body(f, body) && |body| <= meta.size && f.currentChunk == k
  }

  /** After a chunk or an empty file's metadata: the file is still open, or it was handed over whole. */
  ghost predicate Handed(s: Rx, t: Rx, meta: Metadata, body: seq<byte>, k: nat) {
    || (t.delivered == s.delivered && Held(t.file, meta, body, k))
    || (|t.delivered| == |s.delivered| + 1 && t.delivered[..|s.delivered|] == s.delivered
      && Whole(t.delivered[|s.delivered|], meta, body) && k >= meta.chunks
      && (t.file == NO_FILE || Held(t.file, meta, body, k)))
  }

  lemma HeldBounds(f: Current, meta: Metadata, body: seq<byte>, k: nat)
    requires Held(f, meta, body, k)
    ensures InBounds(f)
  {
  }

  lemma FinishHands(s: Rx, env: Env, meta: Metadata, body: seq<byte>, k: nat)
    requires Held(s.file, meta, body, k) && s.file.Open() && k >= meta.chunks
    ensures var o := Finish(s, env);
      if o.fault.None? then Handed(s, o.state, meta, body, k) else o.state == s
  {
    var f := s.file;
    if !f.streaming && f.mergeOffset == meta.size {
      assert f.merged.value[..|body|] == f.merged.value;
    }
  }

  lemma StoreHolds(f: Current, plain: seq<byte>, env: Env, meta: Metadata, body: seq<byte>, k: nat)
    requires Held(f, meta, body, k) && f.Valid()
    ensures var r := StoreChunk(f, plain, env);
      if r.fault.None? then Held(r.file, meta, body + plain, k + 1) && (r.file.streaming ==> r.file.writable.Some?)
      else r.file == f.(bytesWritten := r.file.bytesWritten)
  {
    if !f.streaming && f.mergeOffset + |plain| <= meta.size {
      var merged := Overlay(f.merged.value, f.mergeOffset, plain);
      assert merged[..|body + plain|] == f.merged.value[..|body|] + plain;
    }
  }

  lemma HeldOpen(f: Current, meta: Metadata, body: seq<byte>, k: nat)
    requires Held(f, meta, body, k) && (f.streaming ==> f.writable.Some?)
    ensures f.Open()
  {
  }

  lemma HandedBy(s: Rx, u: Rx, t: Rx, meta: Metadata, body: seq<byte>, k: nat)
    requires Handed(u, t, meta, body, k) && u.delivered == s.delivered
    ensures Handed(s, t, meta, body, k)
  {
  }

  lemma ChunkHands(s: Rx, plain: seq<byte>, env: Env, meta: Metadata, body: seq<byte>, k: nat)
    requires s.Valid() && Held(s.file, meta, body, k)
    ensures s.file.metadataReceived
    ensures var o := AcceptChunk(s, plain, env);
      if o.fault.None? then Handed(s, o.state, meta, body + plain, k + 1)
      else o.state.delivered == s.delivered && InBounds(o.state.file)
  {
    StoreHolds(s.file, plain, env, meta, body, k);
    HeldBounds(s.file, meta, body, k);
    HeldCounts(s.file, meta, body, k);
    var r := StoreChunk(s.file, plain, env);
    hide StoreChunk, Finish, Held, Handed;
    if r.fault.None? {
      HeldBounds(r.file, meta, body + plain, k + 1);
      HeldCounts(r.file, meta, body + plain, k + 1);
      HeldOpen(r.file, meta, body + plain, k + 1);
      var u := s.(file := r.file);
      if k + 1 >= meta.chunks {
        FinishHands(u, env, meta, body + plain, k + 1);
        if Finish(u, env).fault.None? {
          HandedBy(s, u, Finish(u, env).state, meta, body + plain, k + 1);
        }
      } else {
        StillOpen(s, u, meta, body + plain, k + 1);
      }
    }
  }

  lemma HeldCounts(f: Current, meta: Metadata, body: seq<byte>, k: nat)
    requires Held(f, meta, body, k)
    ensures f.currentChunk == k && f.totalChunks == meta.chunks && f.metadataReceived && f.meta == Some(meta)
  {
  }

  lemma StillOpen(s: Rx, t: Rx, meta: Metadata, body: seq<byte>, k: nat)
    requires t.delivered == s.delivered && Held(t.file, meta, body, k)
    ensures Handed(s, t, meta, body, k)
  {
  }

  // ----- metadata

  lemma OpenHolds(s: Rx, meta: Metadata, env: Env)
    requires s.file == AnnouncedFile(NO_FILE, meta)
    ensures var o := OpenTarget(s, meta, env);
      && o.state.delivered == s.delivered
      && (if o.fault.None? then Held(o.state.file, meta, [], 0) && o.state.file.Open() else InBounds(o.state.file))
  {
    hide Dedupe;
  }

  lemma ChooseKeeps(s: Rx, meta: Metadata, env: Env)
    ensures var d := ChooseDirectory(s, meta, env); d.state.file == s.file && d.state.delivered == s.delivered
  {
  }

  lemma AnnouncedBounds(meta: Metadata)
    ensures InBounds(AnnouncedFile(NO_FILE, meta))
  {
  }

  lemma OpenFileHands(s: Rx, u: Rx, meta: Metadata, env: Env)
    requires u.file == AnnouncedFile(NO_FILE, meta) && u.delivered == s.delivered
    ensures u.file.meta == Some(meta) && !u.file.streaming
    ensures var o := OpenFile(u, meta, env);
      if o.fault.None? then Handed(s, o.state, meta, [], 0)
      else o.state.delivered == s.delivered && InBounds(o.state.file)
  {
    hide Finish, OpenTarget, ChooseDirectory, Held, Handed, InBounds;
    ChooseKeeps(u, meta, env);
    AnnouncedBounds(meta);
    var d := ChooseDirectory(u, meta, env);
    if d.fault.None? {
      OpenHolds(d.state, meta, env);
      var o := OpenTarget(d.state, meta, env);
      if o.fault.None? {
        HeldBounds(o.state.file, meta, [], 0);
        if meta.chunks == 0 {
          FinishHands(o.state, env, meta, [], 0);
          if Finish(o.state, env).fault.None? {
            HandedBy(s, o.state, Finish(o.state, env).state, meta, [], 0);
          }
        } else {
          StillOpen(s, o.state, meta, [], 0);
        }
      }
    }
  }

  lemma MetadataHands(c: Session, s: Rx, plain: seq<byte>, env: Env)
    requires s.file == NO_FILE
    ensures var o := AcceptMetadata(c, s, plain, env); var meta := Validate(c.codec.parse(plain));
      if o.fault.None? then meta.Some? && Handed(s, o.state, meta.value, [], 0)
      else o.state.delivered == s.delivered && InBounds(o.state.file)
  {
    hide OpenFile, Validate, Handed;
    var meta := Validate(c.codec.parse(plain));
    if meta.Some? {
      OpenFileHands(s, Announce(s, meta.value), meta.value, env);
    }
  }

  // ----- whole runs

  /** The open file is that of metadata frame m, and holds what the frames since then opened to. */
  ghost predicate Since(c: Session, frames: seq<Frame>, envs: seq<Env>, n: nat, f: Current, m: nat, meta: Metadata)
    requires |frames| == |envs|
  {
    && MetaAt(c, frames, envs, m, meta) && m < n <= |frames| && ChunksAt(c, frames, envs, m + 1, n)
    && Held(f, meta, Joined(c, frames, envs, m + 1, n), n - (m + 1))
  }

  ghost predicate History(c: Session, frames: seq<Frame>, envs: seq<Env>, n: nat, s: Rx)
    requires |frames| == |envs|
  {
    && AllCame(c, frames, envs, s.delivered, n)
    && if !s.file.metadataReceived then s.file == NO_FILE
       else exists m: nat, meta :: Since(c, frames, envs, n, s.file, m, meta)
  }

  /** After any frames, failed or not. */
  ghost predicate Sound(c: Session, frames: seq<Frame>, envs: seq<Env>, n: nat, o: Outcome)
    requires |frames| == |envs|
  {
    && AllCame(c, frames, envs, o.state.delivered, n) && InBounds(o.state.file)
    && (o.fault.None? ==> History(c, frames, envs, n, o.state))
  }

  lemma CameLater(c: Session, frames: seq<Frame>, envs: seq<Env>, delivered: seq<Delivery>, n: nat)
    requires |frames| == |envs| && AllCame(c, frames, envs, delivered, n)
    ensures AllCame(c, frames, envs, delivered, n + 1)
  {
    hide From;
    forall i | 0 <= i < |delivered| ensures Came(c, frames, envs, delivered[i], n + 1) {
      assert Came(c, frames, envs, delivered[i], n);
    }
  }

  /** Handing over a file of frames m to n keeps the history. */
  lemma HandedSound(c: Session, frames: seq<Frame>, envs: seq<Env>, n: nat, s: Rx, t: Rx, m: nat, meta: Metadata)
    requires n < |frames| == |envs| && AllCame(c, frames, envs, s.delivered, n)
    requires MetaAt(c, frames, envs, m, meta) && m <= n && ChunksAt(c, frames, envs, m + 1, n + 1)
    requires Handed(s, t, meta, Joined(c, frames, envs, m + 1, n + 1), n - m)
    ensures Sound(c, frames, envs, n + 1, Outcome(t, None))
  {
    CameLater(c, frames, envs, s.delivered, n);
    hide MetaAt, ChunksAt, Joined, Whole, Held, InBounds, From, AllCame;
    var body := Joined(c, frames, envs, m + 1, n + 1);
    if t.delivered == s.delivered && Held(t.file, meta, body, n - m) {
      OpenSound(c, frames, envs, n, t, m, meta);
    } else {
      NewCame(c, frames, envs, n, s.delivered, t.delivered, m, meta);
      if t.file == NO_FILE {
        ClosedSound(c, frames, envs, n, t);
      } else {
        OpenSound(c, frames, envs, n, t, m, meta);
      }
    }
  }

  lemma NewCame(
    c: Session, frames: seq<Frame>, envs: seq<Env>, n: nat, before: seq<Delivery>, after: seq<Delivery>, m: nat,
    meta: Metadata)
    requires n < |frames| == |envs| && AllCame(c, frames, envs, before, n + 1)
    requires MetaAt(c, frames, envs, m, meta) && m <= n && ChunksAt(c, frames, envs, m + 1, n + 1)
    requires |after| == |before| + 1 && after[..|before|] == before && n - m >= meta.chunks
    requires Whole(after[|before|], meta, Joined(c, frames, envs, m + 1, n + 1))
    ensures AllCame(c, frames, envs, after, n + 1)
  {
    hide MetaAt, ChunksAt, Joined, Whole;
    assert From(c, frames, envs, after[|before|], m, n + 1, meta);
    hide From;
    forall i | 0 <= i < |after| ensures Came(c, frames, envs, after[i], n + 1) {
      if i < |before| {
        assert after[i] == after[..|before|][i];
      }
    }
  }

  lemma OpenSound(c: Session, frames: seq<Frame>, envs: seq<Env>, n: nat, t: Rx, m: nat, meta: Metadata)
    requires n < |frames| == |envs| && AllCame(c, frames, envs, t.delivered, n + 1)
    requires MetaAt(c, frames, envs, m, meta) && m <= n && ChunksAt(c, frames, envs, m + 1, n + 1)
    requires Held(t.file, meta, Joined(c, frames, envs, m + 1, n + 1), n - m)
    ensures Sound(c, frames, envs, n + 1, Outcome(t, None))
  {
    hide MetaAt, ChunksAt, Joined, Held, InBounds, AllCame;
    HeldBounds(t.file, meta, Joined(c, frames, envs, m + 1, n + 1), n - m);
    HeldCounts(t.file, meta, Joined(c, frames, envs, m + 1, n + 1), n - m);
    assert Since(c, frames, envs, n + 1, t.file, m, meta);
  }

  lemma ClosedSound(c: Session, frames: seq<Frame>, envs: seq<Env>, n: nat, t: Rx)
    requires n < |frames| == |envs| && AllCame(c, frames, envs, t.delivered, n + 1) && t.file == NO_FILE
    ensures Sound(c, frames, envs, n + 1, Outcome(t, None))
  {
    hide AllCame;
  }

  lemma FailedSound(c: Session, frames: seq<Frame>, envs: seq<Env>, n: nat, o: Outcome)
    requires n < |frames| == |envs| && AllCame(c, frames, envs, o.state.delivered, n)
    requires InBounds(o.state.file) && o.fault.Some?
    ensures Sound(c, frames, envs, n + 1, o)
  {
    CameLater(c, frames, envs, o.state.delivered, n);
  }

  lemma MetadataSound(c: Session, frames: seq<Frame>, envs: seq<Env>, n: nat, s: Rx)
    requires n < |frames| == |envs| && After(c, frames, envs, n) == Outcome(s, None) && s.Valid()
    requires History(c, frames, envs, n, s) && !s.file.metadataReceived
    ensures Sound(c, frames, envs, n + 1, Step(c, s, frames[n], envs[n]))
  {
    hide After, AcceptMetadata, Validate, AllCame, Handed, ExpectedAad, InBounds, Unseal;
    var plain := Unseal(c.key, ExpectedAad(c, s), frames[n]);
    assert PlainAt(c, frames, envs, n) == plain;
    if plain.None? {
      NothingBounds();
      FailedSound(c, frames, envs, n, Step(c, s, frames[n], envs[n]));
    } else {
      MetadataHands(c, s, plain.value, envs[n]);
      var o := AcceptMetadata(c, s, plain.value, envs[n]);
      if o.fault.None? {
        var meta := Validate(c.codec.parse(plain.value)).value;
        assert MetaAt(c, frames, envs, n, meta) && ChunksAt(c, frames, envs, n + 1, n + 1);
        HandedSound(c, frames, envs, n, s, o.state, n, meta);
      } else {
        FailedSound(c, frames, envs, n, o);
      }
    }
  }

  lemma NothingBounds()
    ensures InBounds(NO_FILE)
  {
  }

  lemma ChunkSound(c: Session, frames: seq<Frame>, envs: seq<Env>, n: nat, s: Rx)
    requires n < |frames| == |envs| && After(c, frames, envs, n) == Outcome(s, None) && s.Valid()
    requires History(c, frames, envs, n, s) && s.file.metadataReceived
    ensures Sound(c, frames, envs, n + 1, Step(c, s, frames[n], envs[n]))
  {
    hide After, AcceptChunk, AllCame, Handed, Held, ExpectedAad, InBounds, Unseal, MetaAt;
    var m: nat, meta :| Since(c, frames, envs, n, s.file, m, meta);
    var body := Joined(c, frames, envs, m + 1, n);
    var plain := Unseal(c.key, ExpectedAad(c, s), frames[n]);
    assert PlainAt(c, frames, envs, n) == plain;
    if plain.None? {
      HeldBounds(s.file, meta, body, n - (m + 1));
      FailedSound(c, frames, envs, n, Step(c, s, frames[n], envs[n]));
    } else {
      ChunkHands(s, plain.value, envs[n], meta, body, n - (m + 1));
      var o := AcceptChunk(s, plain.value, envs[n]);
      if o.fault.None? {
        OneMoreChunk(c, frames, envs, m + 1, n, s);
        HandedSound(c, frames, envs, n, s, o.state, m, meta);
      } else {
        FailedSound(c, frames, envs, n, o);
      }
    }
  }

  lemma OneMoreChunk(c: Session, frames: seq<Frame>, envs: seq<Env>, m: nat, n: nat, s: Rx)
    requires m <= n < |frames| == |envs| && ChunksAt(c, frames, envs, m, n)
    requires After(c, frames, envs, n) == Outcome(s, None) && s.file.metadataReceived
    requires PlainAt(c, frames, envs, n).Some?
    ensures ChunksAt(c, frames, envs, m, n + 1)
    ensures Joined(c, frames, envs, m, n + 1) == Joined(c, frames, envs, m, n) + PlainAt(c, frames, envs, n).value
  {
    hide After, PlainAt;
  }

  lemma {:induction false} RunSound(c: Session, frames: seq<Frame>, envs: seq<Env>, n: nat)
    requires n <= |frames| == |envs|
    ensures Sound(c, frames, envs, n, After(c, frames, envs, n))
  {
    hide Step, History, AllCame, InBounds;
    if n == 0 {
      StartSound(c, frames, envs);
    } else {
      RunSound(c, frames, envs, n - 1);
      var o := After(c, frames, envs, n - 1);
      if o.fault.Some? {
        CameLater(c, frames, envs, o.state.delivered, n - 1);
      } else if o.state.file.metadataReceived {
        ChunkSound(c, frames, envs, n - 1, o.state);
      } else {
        MetadataSound(c, frames, envs, n - 1, o.state);
      }
    }
  }

  lemma StartSound(c: Session, frames: seq<Frame>, envs: seq<Env>)
    requires |frames| == |envs|
    ensures Sound(c, frames, envs, 0, Outcome(START, None))
  {
  }

  /**
   * Whatever frames came, failed or not: every delivery is the file of some metadata frame. Its content is what the
   * frames after that one opened to, joined, at least as many as announced, and exactly of the announced size.
   */
  lemma DeliveriesAreWhole(c: Session, frames: seq<Frame>, envs: seq<Env>, n: nat, i: nat)
    requires n <= |frames| == |envs| && i < |After(c, frames, envs, n).state.delivered|
    ensures exists m: nat, e: nat, meta ::
      e <= n && From(c, frames, envs, After(c, frames, envs, n).state.delivered[i], m, e, meta)
  {
    hide From, InBounds, History, After;
    RunSound(c, frames, envs, n);
    assert Came(c, frames, envs, After(c, frames, envs, n).state.delivered[i], n);
  }

  /** And at no moment is there more in the open stream, or the buffer, than was announced. */
  lemma NeverTooLong(c: Session, frames: seq<Frame>, envs: seq<Env>, n: nat)
    requires n <= |frames| == |envs|
    ensures InBounds(After(c, frames, envs, n).state.file)
  {
    hide AllCame, History, InBounds, After;
    RunSound(c, frames, envs, n);
  }
}
