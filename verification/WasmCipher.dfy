/** The cached AES-GCM cipher of the WASM module and its counter nonces. */
module WasmCipher {
  import opened Bytes
  import opened Aead

  const UINT64 := 0x1_0000_0000_0000_0000

  function Uint64BE(n: nat): (b: seq<byte>)
    ensures |b| == 8
  {
    Uint32BE(n / UINT32) + Uint32BE(n)
  }

  /** The 12-byte nonce that carries the counter in its first 8 bytes. */
  function Nonce(counter: nat): (b: seq<byte>)
    ensures |b| == 12
  {
    Uint64BE(counter) + [0, 0, 0, 0]
  }

  lemma NonceInjective(a: nat, b: nat)
    requires a < UINT64 && b < UINT64
    ensures Nonce(a) == Nonce(b) ==> a == b
  {
    hide Nonce, Uint32BE, GetUint32BE;
    if Nonce(a) == Nonce(b) {
      NonceReads(a);
      NonceReads(b);
      Uint32RoundTrip(a);
      Uint32RoundTrip(b);
      Uint32RoundTrip(a / UINT32);
      Uint32RoundTrip(b / UINT32);
    }
  }

  /** The two halves of the counter, as a reader of the nonce finds them. */
  lemma NonceReads(a: nat)
    ensures Nonce(a)[..4] == Uint32BE(a / UINT32) && Nonce(a)[4..8] == Uint32BE(a) && Nonce(a)[8..] == [0, 0, 0, 0]
  {
    hide Uint32BE;
  }

  // ----- calls and the cache they leave

  datatype Call = Enc(key: Key) | Dec(key: Key)

  /** Package variables: the cached key, the key the cached cipher was built from, the two counters. */
  datatype Cache = Cache(cachedKey: Key, cipher: Option<Key>, encryptCounter: nat, decryptCounter: nat)

  const EMPTY := Cache([], None, 0, 0)

  /** getCipher for a key of a valid size. */
  function Select(c: Cache, key: Key): Cache {
    if c.cipher.Some? && c.cachedKey == key then c else Cache(key, Some(key), 0, 0)
  }

  function Step(c: Cache, call: Call): Cache {
    if |call.key| != KEY_SIZE then c else
      var s := Select(c, call.key);
      if call.Enc? then s.(encryptCounter := (s.encryptCounter + 1) % UINT64) else s
  }

  function After(calls: seq<Call>, n: nat): Cache
    requires n <= |calls|
  {
    if n == 0 then EMPTY else Step(After(calls, n - 1), calls[n - 1])
  }

  /** Call n seals something under this key. */
  predicate Seals(calls: seq<Call>, n: nat, key: Key) {
    n < |calls| && calls[n] == Enc(key) && |key| == KEY_SIZE
  }

  /** The nonce call n would use under the key. */
  function NonceAt(calls: seq<Call>, n: nat, key: Key): seq<byte>
    requires n <= |calls|
  {
    Nonce(Select(After(calls, n), key).encryptCounter)
  }

  /** No (key, nonce) pair is used twice. */
  ghost predicate Unique(calls: seq<Call>) {
    forall m: nat, n: nat, key :: m < n && Seals(calls, m, key) && Seals(calls, n, key) ==>
      NonceAt(calls, m, key) != NonceAt(calls, n, key)
  }

  /** How often the key has sealed since another key was last used. */
  function RunLength(calls: seq<Call>, n: nat, key: Key): nat
    requires n <= |calls|
  {
    if n == 0 then 0
    else if |calls[n - 1].key| != KEY_SIZE then RunLength(calls, n - 1, key)
    else if calls[n - 1].key != key then 0
    else RunLength(calls, n - 1, key) + if calls[n - 1].Enc? then 1 else 0
  }

  /** Between calls m and n no other key is used. */
  ghost predicate SameRun(calls: seq<Call>, m: nat, n: nat, key: Key)
    requires n <= |calls|
  {
    forall p: nat :: m <= p < n && |calls[p].key| == KEY_SIZE ==> calls[p].key == key
  }

  /** The cipher in the cache is the one of the cached key, and the counter is the run length. */
  lemma {:induction false} CacheCoherent(calls: seq<Call>, n: nat, key: Key)
    requires n <= |calls|
    ensures var c := After(calls, n); c.cipher.Some? ==> c.cipher.value == c.cachedKey
    ensures Select(After(calls, n), key).encryptCounter == RunLength(calls, n, key) % UINT64
  {
    if n > 0 {
      CacheCoherent(calls, n - 1, key);
    }
  }

  lemma {:induction false} RunGrows(calls: seq<Call>, m: nat, n: nat, key: Key)
    requires m < n <= |calls| && Seals(calls, m, key) && SameRun(calls, m, n, key)
    ensures RunLength(calls, m, key) < RunLength(calls, n, key)
  {
    if m + 1 < n {
      RunGrows(calls, m, n - 1, key);
    }
  }

  /** Every smaller run length was reached by an earlier sealing of the same run. */
  lemma {:induction false} RunReaches(calls: seq<Call>, n: nat, key: Key, r: nat) returns (f: nat)
    requires n <= |calls| && r < RunLength(calls, n, key)
    ensures f < n && Seals(calls, f, key) && RunLength(calls, f, key) == r && SameRun(calls, f, n, key)
  {
    if |calls[n - 1].key| == KEY_SIZE && calls[n - 1].Enc? && r == RunLength(calls, n - 1, key) {
      f := n - 1;
    } else {
      f := RunReaches(calls, n - 1, key, r);
    }
  }

  lemma NonceAtIs(calls: seq<Call>, n: nat, key: Key)
    requires n <= |calls|
    ensures NonceAt(calls, n, key) == Nonce(RunLength(calls, n, key) % UINT64)
  {
    CacheCoherent(calls, n, key);
  }

  lemma NoncesDiffer(calls: seq<Call>, m: nat, n: nat, key: Key)
    requires m < n && Seals(calls, m, key) && Seals(calls, n, key) && SameRun(calls, m, n, key)
    requires RunLength(calls, n, key) < UINT64
    ensures NonceAt(calls, m, key) != NonceAt(calls, n, key)
  {
    hide NonceAt, Nonce, RunLength, SameRun;
    RunGrows(calls, m, n, key);
    NonceAtIs(calls, m, key);
    NonceAtIs(calls, n, key);
    var a, b := RunLength(calls, m, key), RunLength(calls, n, key);
    assert a % UINT64 == a && b % UINT64 == b;
    NonceInjective(a, b);
  }

  /** Two sealings whose run lengths agree in their low 64 bits use one nonce. */
  lemma Repeats(calls: seq<Call>, m: nat, n: nat, key: Key)
    requires m < n && Seals(calls, m, key) && Seals(calls, n, key)
    requires RunLength(calls, m, key) % UINT64 == RunLength(calls, n, key) % UINT64
    ensures !Unique(calls)
  {
    NonceAtIs(calls, m, key);
    NonceAtIs(calls, n, key);
  }

  /** A key that returns after another one starts again at nonce 0. */
  lemma ReturnRepeats(calls: seq<Call>, m: nat, p: nat, n: nat, key: Key)
    requires m < p < n && Seals(calls, m, key) && Seals(calls, n, key)
    requires |calls[p].key| == KEY_SIZE && calls[p].key != key
    ensures !Unique(calls)
  {
    assert RunLength(calls, m + 1, key) > 0;
    var f := RunReaches(calls, m + 1, key, 0);
    assert RunLength(calls, n + 1, key) > 0;
    var g := RunReaches(calls, n + 1, key, 0);
    assert g > p;
    Repeats(calls, f, g, key);
  }

  lemma WrapRepeats(calls: seq<Call>, n: nat, key: Key)
    requires Seals(calls, n, key) && RunLength(calls, n, key) >= UINT64
    ensures !Unique(calls)
  {
    var r := RunLength(calls, n, key);
    var f := RunReaches(calls, n, key, r - UINT64);
    Repeats(calls, f, n, key);
  }

  /** No key seals again after another key was used in between. */
  ghost predicate NoKeyReturns(calls: seq<Call>) {
    forall m: nat, n: nat, key :: m < n && Seals(calls, m, key) && Seals(calls, n, key) ==> SameRun(calls, m, n, key)
  }

  /** No run seals more than 2^64 times. */
  ghost predicate RunsBounded(calls: seq<Call>) {
    forall n: nat, key :: Seals(calls, n, key) ==> RunLength(calls, n, key) < UINT64
  }

  lemma NonceUniqueness(calls: seq<Call>)
    ensures Unique(calls) <==> NoKeyReturns(calls) && RunsBounded(calls)
  {
    if NoKeyReturns(calls) && RunsBounded(calls) {
      forall m: nat, n: nat, key | m < n && Seals(calls, m, key) && Seals(calls, n, key)
        ensures NonceAt(calls, m, key) != NonceAt(calls, n, key)
      {
        NoncesDiffer(calls, m, n, key);
      }
    }
    if !NoKeyReturns(calls) {
      var m: nat, n: nat, key :| m < n && Seals(calls, m, key) && Seals(calls, n, key) && !SameRun(calls, m, n, key);
      var p: nat :| m <= p < n && |calls[p].key| == KEY_SIZE && calls[p].key != key;
      ReturnRepeats(calls, m, p, n, key);
    }
    if !RunsBounded(calls) {
      var n: nat, key :| Seals(calls, n, key) && !(RunLength(calls, n, key) < UINT64);
      WrapRepeats(calls, n, key);
    }
  }

  lemma {:induction false} AfterAppend(calls: seq<Call>, call: Call, n: nat)
    requires n <= |calls|
    ensures After(calls + [call], n) == After(calls, n)
  {
    if n > 0 {
      AfterAppend(calls, call, n - 1);
    }
  }

  // ----- the module state

  class Wasm {
    var cachedKey: Key
    var cachedAESGCM: Option<Key>  // the key the cipher object was built from
    var encryptNonceCounter: nat
    var decryptNonceCounter: nat
    ghost var calls: seq<Call>  // encrypt and decrypt calls so far

    ghost predicate Valid()
      reads this
    {
      State() == After(calls, |calls|)
    }

    ghost function State(): Cache
      reads this
    {
      Cache(cachedKey, cachedAESGCM, encryptNonceCounter, decryptNonceCounter)
    }

    constructor ()
      ensures Valid() && calls == []
    {
      cachedKey, cachedAESGCM := [], None;
      encryptNonceCounter, decryptNonceCounter := 0, 0;
      calls := [];
    }

    /** aes.NewCipher refuses keys that are not 16, 24 or 32 bytes long. */
    method GetCipher(key: Key) returns (gcm: Option<Key>)
      modifies this`cachedKey, this`cachedAESGCM, this`encryptNonceCounter, this`decryptNonceCounter
      ensures |key| in {16, 24, 32} ==> State() == Select(old(State()), key) && gcm == State().cipher
      ensures gcm.None? ==> |key| !in {16, 24, 32} && State() == old(State())
    {
      if cachedAESGCM.Some? && cachedKey == key {
        return cachedAESGCM;
      }
      if |key| !in {16, 24, 32} {
        return None;
      }
      cachedKey := key;
      cachedAESGCM := Some(key);
      encryptNonceCounter := 0;
      decryptNonceCounter := 0;
      return Some(key);
    }

    method NextEncryptNonce() returns (nonce: seq<byte>)
      modifies this`encryptNonceCounter
      ensures nonce == Nonce(old(encryptNonceCounter))
      ensures encryptNonceCounter == (old(encryptNonceCounter) + 1) % UINT64
    {
      nonce := Nonce(encryptNonceCounter);
      encryptNonceCounter := (encryptNonceCounter + 1) % UINT64;
    }

    /** wasmEncrypt: the sealed frame, or None for the error response. */
    method Encrypt(key: Key, aad: seq<byte>, data: seq<byte>) returns (out: Option<Frame>)
      requires Valid()
      modifies this
      ensures Valid() && calls == old(calls) + [Enc(key)]
      ensures out == if |key| == KEY_SIZE
        then Some(Sealed(key, NonceAt(old(calls), |old(calls)|, key), aad, data)) else None
    {
      ghost var before := calls;
      AfterAppend(before, Enc(key), |before|);
      CacheCoherent(before, |before|, key);
      calls := calls + [Enc(key)];
      if |key| != KEY_SIZE {
        return None;
      }
      var gcm := GetCipher(key);
      if gcm.None? {
        return None;
      }
      var nonce := NextEncryptNonce();
      return Some(Sealed(gcm.value, nonce, aad, data));
    }

    /** wasmDecrypt: the plaintext, or None for any of the error responses. */
    method Decrypt(key: Key, aad: seq<byte>, frame: Frame) returns (out: Option<seq<byte>>)
      requires Valid()
      modifies this
      ensures Valid() && calls == old(calls) + [Dec(key)]
      ensures out == Unseal(key, aad, frame)
    {
      ghost var before := calls;
      AfterAppend(before, Dec(key), |before|);
      CacheCoherent(before, |before|, key);
      calls := calls + [Dec(key)];
      if |key| != KEY_SIZE {
        return None;
      }
      var gcm := GetCipher(key);
      if gcm.None? {
        return None;
      }
      return Open(gcm.value, aad, frame);
    }
  }
}
