/**
 * Names in the chosen directory, whatever frames arrive: no assumption on the sender, the channel or the key. No file
 * saved there ever takes the name of another.
 */
module DirectoryNames {
  import opened Bytes
  import opened Limits
  import opened Metadata
  import opened Filenames
  import opened Aead
  import opened Receiver

  predicate InDir(d: Delivery) {
    d.Saved? && d.target.InDirectory?
  }

  /** The stream that is open writes into the directory. */
  predicate OpenInDir(f: Current) {
    f.streaming && f.writable.Some? && f.fileHandle.Some? && f.fileHandle.value.InDirectory?
  }

  ghost predicate AllUsed(delivered: seq<Delivery>, used: set<string>) {
    forall i :: 0 <= i < |delivered| && InDir(delivered[i]) ==> delivered[i].target.name in used
  }

  ghost predicate Pairwise(delivered: seq<Delivery>) {
    forall i, j :: 0 <= i < j < |delivered| && InDir(delivered[i]) && InDir(delivered[j]) ==>
      delivered[i].target.name != delivered[j].target.name
  }

  ghost predicate NotAmong(name: string, delivered: seq<Delivery>) {
    forall i :: 0 <= i < |delivered| && InDir(delivered[i]) ==> delivered[i].target.name != name
  }

  /** Every name in the directory is on record, is used once, and is not the one being written. */
  ghost predicate NamesApart(s: Rx) {
    && AllUsed(s.delivered, s.savedFilenames) && Pairwise(s.delivered)
    && (OpenInDir(s.file) ==>
      s.file.fileHandle.value.name in s.savedFilenames && NotAmong(s.file.fileHandle.value.name, s.delivered))
  }

  lemma FinishApart(s: Rx, env: Env)
    requires NamesApart(s) && s.file.Open()
    ensures NamesApart(Finish(s, env).state)
  {
  }

  /** The name a file is opened under is new in the directory. */
  lemma TargetApart(s: Rx, m: Metadata, env: Env)
    requires NamesApart(s) && !s.file.streaming
    ensures NamesApart(OpenTarget(s, m, env).state)
  {
    hide Dedupe, Zeros;
    DedupeFresh(m.name, s.savedFilenames);
  }

  lemma OpenFileApart(s: Rx, m: Metadata, env: Env)
    requires NamesApart(s) && s.file.meta == Some(m) && !s.file.streaming
    ensures NamesApart(OpenFile(s, m, env).state)
  {
    hide AllUsed, Pairwise, NotAmong, Dedupe, Zeros, Finish;
    var d := ChooseDirectory(s, m, env);
    if d.fault.None? {
      TargetApart(d.state, m, env);
      var o := OpenTarget(d.state, m, env);
      if o.fault.None? && m.chunks == 0 {
        FinishApart(o.state, env);
      }
    }
  }

  lemma MetadataApart(c: Session, s: Rx, plain: seq<byte>, env: Env)
    requires NamesApart(s) && !s.file.metadataReceived
    ensures NamesApart(AcceptMetadata(c, s, plain, env).state)
  {
    hide AllUsed, Pairwise, NotAmong, OpenFile, Validate;
    var parsed := Validate(c.codec.parse(plain));
    if parsed.Some? {
      OpenFileApart(Announce(s, parsed.value), parsed.value, env);
    }
  }

  lemma ChunkApart(s: Rx, plain: seq<byte>, env: Env)
    requires NamesApart(s) && s.Valid() && s.file.metadataReceived
    ensures NamesApart(AcceptChunk(s, plain, env).state)
  {
    hide AllUsed, Pairwise, NotAmong, Finish, Overlay;
    var r := StoreChunk(s.file, plain, env);
    if r.fault.None? && r.file.currentChunk >= r.file.totalChunks {
      FinishApart(s.(file := r.file), env);
    }
  }

  lemma StepApart(c: Session, s: Rx, frame: Frame, env: Env)
    requires NamesApart(s) && s.Valid()
    ensures NamesApart(Step(c, s, frame, env).state)
  {
    hide NamesApart, AcceptMetadata, AcceptChunk, ExpectedAad;
    var plain := Unseal(c.key, ExpectedAad(c, s), frame);
    if plain.Some? {
      if s.file.metadataReceived {
        ChunkApart(s, plain.value, env);
      } else {
        MetadataApart(c, s, plain.value, env);
      }
    }
  }

  /** After any frames at all, failed or not. */
  lemma {:induction false} NamesStayApart(c: Session, frames: seq<Frame>, envs: seq<Env>, n: nat)
    requires n <= |frames| == |envs|
    ensures NamesApart(After(c, frames, envs, n).state)
  {
    hide Step, AllUsed, Pairwise, NotAmong;
    if n == 0 {
      StartApart();
    } else {
      NamesStayApart(c, frames, envs, n - 1);
      var o := After(c, frames, envs, n - 1);
      if o.fault.None? {
        StepApart(c, o.state, frames[n - 1], envs[n - 1]);
      }
    }
  }

  lemma StartApart()
    ensures NamesApart(START)
  {
  }
}
