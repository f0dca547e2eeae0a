/** A batch and the stream of sealings it stands for: per file one metadata record, then its chunks. */
module Batch {
  import opened Bytes
  import opened Limits
  import opened Metadata
  import opened Filenames
  import opened Binding
  import opened Aead

  datatype Batch = Batch(key: Key, tid: seq<byte>, codec: Codec, files: seq<SourceFile>, mode: Mode, text: bool)

  /** Additional data and plaintext of one frame. */
  datatype Sealing = Sealing(aad: seq<byte>, plain: seq<byte>)

  ghost predicate ValidBatch(b: Batch) {
    ValidFiles(b.files) && b.codec.Faithful() && |b.key| == KEY_SIZE
  }

  function Size(b: Batch, i: nat): nat
    requires i < |b.files|
  {
    |b.files[i].bytes|
  }

  function Chunks(b: Batch, i: nat): nat
    requires i < |b.files|
  {
    ChunkCount(Size(b, i), b.mode)
  }

  /** batchTotalChunksForFiles for the first i files. */
  function ChunksBefore(b: Batch, i: nat): nat
    requires i <= |b.files|
  {
    if i == 0 then 0 else ChunksBefore(b, i - 1) + Chunks(b, i - 1)
  }

  function BatchTotal(b: Batch): nat {
    ChunksBefore(b, |b.files|)
  }

  function MetaFields(b: Batch, i: nat): Fields
    requires i < |b.files|
  {
    Fields(
      Text(b.files[i].name), Int(Size(b, i)), Int(Chunks(b, i)), Int(i), Int(|b.files|), Int(BatchTotal(b)),
      if b.text then Text("text") else Undefined)
  }

  /** The metadata of file i as an accepting receiver keeps it. */
  function MetaOf(b: Batch, i: nat): Metadata
    requires i < |b.files|
  {
    Metadata(Sanitize(b.files[i].name), Size(b, i), Chunks(b, i), i, |b.files|, BatchTotal(b), b.text)
  }

  function MetaSealing(b: Batch, i: nat): Sealing
    requires i < |b.files|
  {
    Sealing(MetadataAad(b.tid), b.codec.stringify(MetaFields(b, i)))
  }

  /** file.slice(start, end) */
  function ChunkBytes(b: Batch, i: nat, k: nat): seq<byte>
    requires i < |b.files| && k < Chunks(b, i)
  {
    ChunkStep(Size(b, i), b.mode, k);
    b.files[i].bytes[Offset(Size(b, i), b.mode, k)..Offset(Size(b, i), b.mode, k + 1)]
  }

  function ChunkSealing(b: Batch, i: nat, k: nat): Sealing
    requires i < |b.files| && k < Chunks(b, i)
  {
    Sealing(Aad(b.tid, i, k), ChunkBytes(b, i, k))
  }

  /** The metadata record and the first n chunks of file i. */
  function FileSealings(b: Batch, i: nat, n: nat): (s: seq<Sealing>)
    requires i < |b.files| && n <= Chunks(b, i)
    ensures |s| == 1 + n
  {
    if n == 0 then [MetaSealing(b, i)] else FileSealings(b, i, n - 1) + [ChunkSealing(b, i, n - 1)]
  }

  /** Where file i starts in the stream. */
  function Pos(b: Batch, i: nat): nat
    requires i <= |b.files|
  {
    i + ChunksBefore(b, i)
  }

  /** The sealings of the first i files. */
  function Sealings(b: Batch, i: nat): (s: seq<Sealing>)
    requires i <= |b.files|
    ensures |s| == Pos(b, i)
  {
    if i == 0 then [] else Sealings(b, i - 1) + FileSealings(b, i - 1, Chunks(b, i - 1))
  }

  function Stream(b: Batch): seq<Sealing> {
    Sealings(b, |b.files|)
  }

  lemma {:induction false} FileSealingsAt(b: Batch, i: nat, n: nat, k: nat)
    requires i < |b.files| && n <= Chunks(b, i) && k <= n
    ensures FileSealings(b, i, n)[k] == if k == 0 then MetaSealing(b, i) else ChunkSealing(b, i, k - 1)
  {
    if k < n {
      FileSealingsAt(b, i, n - 1, k);
    }
  }

  /** Position Pos(i) holds the metadata of file i, the positions after it its chunks. */
  lemma {:induction false} SealingAt(b: Batch, m: nat, i: nat, k: nat)
    requires i < m <= |b.files| && k <= Chunks(b, i)
    ensures Pos(b, i) + k < Pos(b, m)
    ensures Sealings(b, m)[Pos(b, i) + k] == if k == 0 then MetaSealing(b, i) else ChunkSealing(b, i, k - 1)
  {
    if i == m - 1 {
      FileSealingsAt(b, i, Chunks(b, i), k);
    } else {
      SealingAt(b, m - 1, i, k);
    }
  }

  /** Every position belongs to exactly one file: the file and how many of its chunks precede it. */
  lemma {:induction false} Locate(b: Batch, m: nat, j: nat) returns (i: nat, k: nat)
    requires m <= |b.files| && j < Pos(b, m)
    ensures i < m && k <= Chunks(b, i) && j == Pos(b, i) + k
  {
    if j >= Pos(b, m - 1) {
      i, k := m - 1, j - Pos(b, m - 1);
    } else {
      i, k := Locate(b, m - 1, j);
    }
  }

  // ----- the metadata a valid batch produces

  /** Σ ceil(size / c) · c <= Σ size + files · c */
  lemma {:induction false} ChunksBytes(b: Batch, i: nat)
    requires i <= |b.files|
    ensures ChunksBefore(b, i) * 262052 <= TotalBytes(b.files[..i]) + i * 262144
  {
    if i > 0 {
      ChunksBytes(b, i - 1);
      assert b.files[..i][..i - 1] == b.files[..i - 1];
      if b.mode == P2P {
        assert ChunkSize(b.mode) == 262052;
      } else {
        assert ChunkSize(b.mode) == 262144;
      }
    }
  }

  lemma BatchTotalBound(b: Batch)
    requires ValidFiles(b.files)
    ensures BatchTotal(b) <= MAX_CHUNKS * MAX_FILE_COUNT
  {
    ChunksBytes(b, |b.files|);
    assert b.files[..|b.files|] == b.files;
  }

  /**
   * The receiver's limits against the sender's: over the relay the metadata of every file of every
   * valid batch is accepted, over P2P exactly that of files of at most 2,146,729,984 bytes.
   */
  lemma LimitsAgree(b: Batch, i: nat)
    requires ValidBatch(b) && i < |b.files|
    ensures var m := Validate(b.codec.parse(b.codec.stringify(MetaFields(b, i))));
      && (m.Some? <==> b.mode == Relay || Size(b, i) <= 2_146_729_984)
      && (m.Some? <==> Chunks(b, i) <= MAX_CHUNKS)
      && (m.Some? ==> m.value == MetaOf(b, i))
  {
    BatchTotalBound(b);
    ChunkLimit(Size(b, i), b.mode);
    ChunksCover(Size(b, i), b.mode);
  }

  // ----- the two kinds of AAD never meet

  lemma ChunkIndexSmall(b: Batch, i: nat)
    requires ValidFiles(b.files) && i < |b.files|
    ensures Chunks(b, i) < METADATA_AAD_SEQ
  {
    if b.mode == P2P {
      assert ChunkSize(b.mode) == 262052;
    } else {
      assert ChunkSize(b.mode) == 262144;
    }
  }

  /** A sealing with the metadata AAD is the metadata of some file. */
  lemma MetaAadMeansMeta(b: Batch, j: nat) returns (i: nat)
    requires ValidBatch(b) && j < |Stream(b)| && Stream(b)[j].aad == MetadataAad(b.tid)
    ensures i < |b.files| && Stream(b)[j] == MetaSealing(b, i)
  {
    var k;
    i, k := Locate(b, |b.files|, j);
    SealingAt(b, |b.files|, i, k);
    if k > 0 {
      ChunkIndexSmall(b, i);
      ChunkNotMetadata(b.tid, i, k - 1);
    }
  }

  /** A sealing with the AAD of chunk k of file i is that chunk. */
  lemma ChunkAadMeansChunk(b: Batch, j: nat, i: nat, k: nat)
    requires ValidBatch(b) && i < |b.files| && k < UINT32
    requires j < |Stream(b)| && Stream(b)[j].aad == Aad(b.tid, i, k)
    ensures k < Chunks(b, i) && Stream(b)[j] == ChunkSealing(b, i, k)
  {
    var i', k' := Locate(b, |b.files|, j);
    SealingAt(b, |b.files|, i', k');
    if k' == 0 {
      ChunkNotMetadata(b.tid, i, k);
    } else {
      ChunkIndexSmall(b, i');
      SmallAadInjective(b.tid, i, k, i', k' - 1);
    }
  }
}
