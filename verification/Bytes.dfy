/** Bytes, options and the big-endian integers that the buffers of the system carry. */
module Bytes {
  type byte = b: int | 0 <= b < 256

  datatype Option<+T> = None | Some(value: T)

  const UINT32 := 0x1_0000_0000

  /** DataView.setUint32(offset, n >>> 0, false): the low 32 bits, most significant byte first. */
  function Uint32BE(n: nat): (b: seq<byte>)
    ensures |b| == 4
  {
    var m := n % UINT32;
    [m / 256 / 256 / 256, m / 256 / 256 % 256, m / 256 % 256, m % 256]
  }

  /** DataView.getUint32(0, false). */
  function GetUint32BE(b: seq<byte>): nat
    requires |b| == 4
  {
    256 * (256 * (256 * b[0] as int + b[1]) + b[2]) + b[3]
  }

  lemma Uint32RoundTrip(n: nat)
    ensures GetUint32BE(Uint32BE(n)) == n % UINT32
  {
  }

  /** The bytes of a number are ordered as the numbers are: the first that differs decides. */
  lemma Uint32Order(a: nat, b: nat) returns (i: nat)
    requires a < b < UINT32
    ensures i < 4 && Uint32BE(a)[..i] == Uint32BE(b)[..i] && Uint32BE(a)[i] < Uint32BE(b)[i]
  {
    var x, y := Uint32BE(a), Uint32BE(b);
    Uint32RoundTrip(a);
    Uint32RoundTrip(b);
    hide Uint32BE;
    i := if x[0] != y[0] then 0 else if x[1] != y[1] then 1 else if x[2] != y[2] then 2 else 3;
  }

  /** Every four bytes are those of one number. */
  lemma Uint32Onto(b: seq<byte>)
    requires |b| == 4
    ensures GetUint32BE(b) < UINT32 && Uint32BE(GetUint32BE(b)) == b
  {
  }

  function Min(a: int, b: int): int {
    if a < b then a else b
  }
}
