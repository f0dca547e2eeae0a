/** Sizes and limits of a transfer, and the arithmetic of chunks. */
module Limits {
  import opened Bytes

  const MAX_FILE_BYTES := 2 * 1024 * 1024 * 1024
  const MAX_BATCH_BYTES := 5 * 1024 * 1024 * 1024
  const MAX_IN_MEMORY_RECEIVE_BYTES := 256 * 1024 * 1024
  const MAX_CHUNKS := 8192
  const MAX_FILE_COUNT := 100

  const CHUNK_SIZE := 256 * 1024
  const GCM_OVERHEAD := 12 + 16
  const P2P_MAX_PLAINTEXT := 256 * 1024 - GCM_OVERHEAD - 64

  datatype Mode = P2P | Relay

  /** effectiveChunkSize */
  function ChunkSize(mode: Mode): (s: nat)
    ensures s > 0
  {
    if mode == P2P then Min(CHUNK_SIZE, P2P_MAX_PLAINTEXT) else CHUNK_SIZE
  }

  /** Math.ceil(size / chunkSize); sizes are far below 2^53, where the division of doubles is exact enough. */
  function ChunkCount(size: nat, mode: Mode): nat {
    (size + ChunkSize(mode) - 1) / ChunkSize(mode)
  }

  /** Where chunk k of a file of this size starts: a multiple of the chunk size, cut at the end of the file. */
  function Offset(size: nat, mode: Mode, k: nat): (o: nat)
    ensures o <= size
  {
    Min(k * ChunkSize(mode), size)
  }

  /** The chunks of a file cover it: none for an empty file, every one non-empty, the last one ending at the size. */
  lemma ChunksCover(size: nat, mode: Mode)
    ensures var n := ChunkCount(size, mode);
      && (n == 0 <==> size == 0)
      && Offset(size, mode, n) == size
      && Offset(size, mode, 0) == 0
  {
    if mode == P2P {
      assert ChunkSize(mode) == 262052;
    } else {
      assert ChunkSize(mode) == 262144;
    }
  }

  lemma ChunkStep(size: nat, mode: Mode, k: nat)
    requires k < ChunkCount(size, mode)
    ensures Offset(size, mode, k) == k * ChunkSize(mode) < Offset(size, mode, k + 1)
    ensures Offset(size, mode, k + 1) == Min(k * ChunkSize(mode) + ChunkSize(mode), size)
  {
    if mode == P2P {
      assert ChunkSize(mode) == 262052;
    } else {
      assert ChunkSize(mode) == 262144;
    }
  }

  /** A file fits the receiver's chunk limit exactly up to 8192 full chunks. */
  lemma ChunkLimit(size: nat, mode: Mode)
    ensures ChunkCount(size, mode) <= MAX_CHUNKS <==> size <= if mode == P2P then 2_146_729_984 else MAX_FILE_BYTES
  {
    if mode == P2P {
      assert ChunkSize(mode) == 262052;
    } else {
      assert ChunkSize(mode) == 262144;
    }
  }

  // ----- what the sender accepts

  datatype SourceFile = SourceFile(name: string, bytes: seq<byte>)

  function TotalBytes(files: seq<SourceFile>): nat {
    if files == [] then 0 else TotalBytes(files[..|files| - 1]) + |files[|files| - 1].bytes|
  }

  ghost predicate ValidFiles(files: seq<SourceFile>) {
    && 1 <= |files| <= MAX_FILE_COUNT
    && (forall i :: 0 <= i < |files| ==> |files[i].bytes| <= MAX_FILE_BYTES)
    && TotalBytes(files) <= MAX_BATCH_BYTES
  }

  datatype SendFault = NoFiles | TooManyFiles | FileTooLarge(index: nat) | BatchTooLarge

  lemma {:induction false} TotalBytesPrefix(files: seq<SourceFile>, n: nat)
    requires n <= |files|
    ensures TotalBytes(files[..n]) <= TotalBytes(files)
  {
    if n < |files| {
      TotalBytesPrefix(files[..|files| - 1], n);
      assert files[..|files| - 1][..n] == files[..n];
    } else {
      assert files[..n] == files;
    }
  }

  /** A batch has 1 to 100 files, of at most 2 GiB each and 5 GiB together. */
  lemma ValidFilesMeans(files: seq<SourceFile>)
    ensures ValidFiles(files) <==>
      && 1 <= |files| <= 100 && TotalBytes(files) <= 5_368_709_120
      && forall i :: 0 <= i < |files| ==> |files[i].bytes| <= 2_147_483_648
  {
  }

  /** validateSendFiles: accepts exactly the valid selections, and names the first file that is too large. */
  method ValidateSendFiles(files: seq<SourceFile>) returns (fault: Option<SendFault>)
    ensures fault.None? <==> ValidFiles(files)
    ensures fault == Some(NoFiles) <==> files == []
    ensures fault == Some(TooManyFiles) <==> |files| > MAX_FILE_COUNT
    ensures fault == Some(BatchTooLarge) ==> TotalBytes(files) > MAX_BATCH_BYTES
    ensures fault.Some? && fault.value.FileTooLarge? ==>
      var i := fault.value.index;
      i < |files| && |files[i].bytes| > MAX_FILE_BYTES && forall j :: 0 <= j < i ==> |files[j].bytes| <= MAX_FILE_BYTES
  {
    if |files| == 0 {
      return Some(NoFiles);
    }
    if |files| > MAX_FILE_COUNT {
      return Some(TooManyFiles);
    }
    var totalBytes := 0;
    var i := 0;
    while i < |files|
      invariant 0 <= i <= |files|
      invariant totalBytes == TotalBytes(files[..i]) <= MAX_BATCH_BYTES
      invariant forall j :: 0 <= j < i ==> |files[j].bytes| <= MAX_FILE_BYTES
    {
      if |files[i].bytes| > MAX_FILE_BYTES {
        return Some(FileTooLarge(i));
      }
      assert files[..i + 1][..i] == files[..i];
      totalBytes := totalBytes + |files[i].bytes|;
      if totalBytes > MAX_BATCH_BYTES {
        TotalBytesPrefix(files, i + 1);
        return Some(BatchTooLarge);
      }
      i := i + 1;
    }
    assert files[..|files|] == files;
    return None;
  }
}
