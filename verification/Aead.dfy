/**
 * The authenticated cipher as an ideal one: a frame is either what Seal produced from a key, a nonce,
 * additional data and a plaintext, or bytes that no key opens.
 */
module Aead {
  import opened Bytes

  type Key = seq<byte>

  const KEY_SIZE := 32

  datatype Frame =
    | Sealed(key: Key, nonce: seq<byte>, aad: seq<byte>, plain: seq<byte>)
    | Junk(bytes: seq<byte>)

  /** AES-GCM Open: the plaintext, when the frame was sealed under this key with this data. */
  function Open(key: Key, aad: seq<byte>, frame: Frame): Option<seq<byte>> {
    if frame.Sealed? && frame.key == key && frame.aad == aad then Some(frame.plain) else None
  }

  /** wasmDecrypt: keys of any other size are refused. */
  function Unseal(key: Key, aad: seq<byte>, frame: Frame): Option<seq<byte>> {
    if |key| != KEY_SIZE then None else Open(key, aad, frame)
  }
}
