/** The additional authenticated data of a frame: transfer id, file index, sequence number. */
module Binding {
  import opened Bytes

  const METADATA_AAD_SEQ := 0xffff_ffff
  const METADATA_FILE_INDEX := 0xffff_ffff

  /** transferIdBytes.slice(0, 16) copied into a zero-filled buffer of 16 bytes. */
  function TransferPrefix(tid: seq<byte>): (p: seq<byte>)
    ensures |p| == 16
    ensures |tid| == 16 ==> p == tid
  {
    seq(16, i requires 0 <= i => if i < |tid| then tid[i] else 0)
  }

  function Aad(tid: seq<byte>, fileIndex: nat, seqNo: nat): (a: seq<byte>)
    ensures |a| == 24
  {
    TransferPrefix(tid) + Uint32BE(fileIndex) + Uint32BE(seqNo)
  }

  function MetadataAad(tid: seq<byte>): seq<byte> {
    Aad(tid, METADATA_FILE_INDEX, METADATA_AAD_SEQ)
  }

  /** encodeAAD: fills a 24-byte buffer in place. */
  method EncodeAAD(tid: seq<byte>, fileIndex: nat, seqNo: nat) returns (aad: seq<byte>)
    ensures aad == Aad(tid, fileIndex, seqNo)
  {
    var buf := new byte[24](_ => 0);
    var i := 0;
    while i < |tid| && i < 16
      invariant 0 <= i <= 16 && i <= |tid|
      invariant forall k :: 0 <= k < i ==> buf[k] == tid[k]
      invariant forall k :: i <= k < 24 ==> buf[k] == 0
    {
      buf[i] := tid[i];
      i := i + 1;
    }
    SetUint32(buf, 16, fileIndex);
    SetUint32(buf, 20, seqNo);
    assert buf[..16] == TransferPrefix(tid);
    assert buf[16..20] == Uint32BE(fileIndex);
    assert buf[20..24] == Uint32BE(seqNo);
    aad := buf[..];
    assert aad == buf[..16] + buf[16..20] + buf[20..24];
  }

  method SetUint32(buf: array<byte>, offset: nat, n: nat)
    requires offset + 4 <= buf.Length
    modifies buf
    ensures buf[offset..offset + 4] == Uint32BE(n)
    ensures forall k :: 0 <= k < buf.Length && !(offset <= k < offset + 4) ==> buf[k] == old(buf[k])
  {
    var m := n % UINT32;
    buf[offset] := m / 256 / 256 / 256;
    buf[offset + 1] := m / 256 / 256 % 256;
    buf[offset + 2] := m / 256 % 256;
    buf[offset + 3] := m % 256;
  }

  /** A reader of the layout recovers both numbers, up to the 32 bits that are stored. */
  lemma AadLayout(tid: seq<byte>, fileIndex: nat, seqNo: nat)
    ensures Aad(tid, fileIndex, seqNo)[..16] == TransferPrefix(tid)
    ensures GetUint32BE(Aad(tid, fileIndex, seqNo)[16..20]) == fileIndex % UINT32
    ensures GetUint32BE(Aad(tid, fileIndex, seqNo)[20..24]) == seqNo % UINT32
  {
    var a := Aad(tid, fileIndex, seqNo);
    assert a[16..20] == Uint32BE(fileIndex);
    assert a[20..24] == Uint32BE(seqNo);
    Uint32RoundTrip(fileIndex);
    Uint32RoundTrip(seqNo);
  }

  /** Metadata carries eight bytes of ones behind the transfer, where a chunk has its file and its place. */
  lemma MetadataLayout(tid: seq<byte>)
    ensures MetadataAad(tid)[..16] == TransferPrefix(tid)
    ensures forall i :: 16 <= i < 24 ==> MetadataAad(tid)[i] == 255
  {
  }

  /** Two AADs of one transfer agree exactly when both numbers agree in their low 32 bits. */
  lemma AadInjective(tid: seq<byte>, i: nat, k: nat, j: nat, l: nat)
    ensures Aad(tid, i, k) == Aad(tid, j, l) <==> i % UINT32 == j % UINT32 && k % UINT32 == l % UINT32
  {
    AadLayout(tid, i, k);
    AadLayout(tid, j, l);
  }

  /** Numbers of 32 bits are stored whole, so the AAD determines them. */
  lemma SmallAadInjective(tid: seq<byte>, i: nat, k: nat, j: nat, l: nat)
    requires i < UINT32 && k < UINT32 && j < UINT32 && l < UINT32
    ensures Aad(tid, i, k) == Aad(tid, j, l) ==> i == j && k == l
  {
    if Aad(tid, i, k) == Aad(tid, j, l) {
      AadInjective(tid, i, k, j, l);
      SmallMod(i, j);
      SmallMod(k, l);
    }
  }

  lemma SmallMod(a: nat, b: nat)
    requires a < UINT32 && b < UINT32
    ensures a % UINT32 == b % UINT32 ==> a == b
  {
  }

  /** Of all pairs of 32-bit numbers only the reserved one has the AAD of metadata. */
  lemma ChunkNotMetadata(tid: seq<byte>, i: nat, k: nat)
    requires i < UINT32 && k < UINT32
    ensures Aad(tid, i, k) == MetadataAad(tid) <==> i == METADATA_FILE_INDEX && k == METADATA_AAD_SEQ
  {
    SmallAadInjective(tid, i, k, METADATA_FILE_INDEX, METADATA_AAD_SEQ);
  }
}
