/**
 * A codec that is faithful, so what is proved of every faithful codec is not empty; and with it the smallest file over
 * the direct channel that a sender offers and a receiver refuses. The codec writes numbers in unary.
 */
module CodecWitness {
  import opened Bytes
  import opened Limits
  import opened Metadata
  import opened Aead
  import opened Batch

  function Unary(n: nat): (b: seq<byte>)
    ensures |b| == n + 1
  {
    if n == 0 then [0] else [1] + Unary(n - 1)
  }

  /** The number at the start, and what follows it. */
  function ReadNat(b: seq<byte>): (nat, seq<byte>) {
    if b == [] then (0, [])
    else if b[0] == 0 then (0, b[1..])
    else
      var (n, rest) := ReadNat(b[1..]);
      (n + 1, rest)
  }

  lemma {:induction false} ReadUnary(n: nat, rest: seq<byte>)
    ensures ReadNat(Unary(n) + rest) == (n, rest)
  {
    if n == 0 {
      assert ([0] + rest)[1..] == rest;
    } else {
      ReadUnary(n - 1, rest);
      assert (Unary(n) + rest)[1..] == Unary(n - 1) + rest;
    }
  }

  function WriteInt(n: int): seq<byte> {
    Unary(if n >= 0 then 2 * n else -2 * n - 1)
  }

  function ReadInt(b: seq<byte>): (int, seq<byte>) {
    var (m, rest) := ReadNat(b);
    (if m % 2 == 0 then m / 2 else -((m + 1) / 2), rest)
  }

  lemma ReadWritten(n: int, rest: seq<byte>)
    ensures ReadInt(WriteInt(n) + rest) == (n, rest)
  {
    ReadUnary(if n >= 0 then 2 * n else -2 * n - 1, rest);
  }

  predicate IsChar(n: nat) {
    n < 0xD800 || 0xE000 <= n < 0x11_0000
  }

  function WriteChars(s: string): seq<byte> {
    if s == [] then [] else Unary(s[0] as nat) + WriteChars(s[1..])
  }

  function ReadChars(count: nat, b: seq<byte>): (string, seq<byte>) {
    if count == 0 then ([], b)
    else
      var (n, rest) := ReadNat(b);
      var (s, more) := ReadChars(count - 1, rest);
      ([if IsChar(n) then n as char else ' '] + s, more)
  }

  lemma {:induction false} ReadWrittenChars(s: string, rest: seq<byte>)
    ensures ReadChars(|s|, WriteChars(s) + rest) == (s, rest)
  {
    if s == [] {
      assert WriteChars(s) + rest == rest;
    } else {
      ReadUnary(s[0] as nat, WriteChars(s[1..]) + rest);
      ReadWrittenChars(s[1..], rest);
      assert WriteChars(s) + rest == Unary(s[0] as nat) + (WriteChars(s[1..]) + rest);
      assert [s[0]] + s[1..] == s;
    }
  }

  function WriteText(s: string): seq<byte> {
    Unary(|s|) + WriteChars(s)
  }

  function ReadText(b: seq<byte>): (string, seq<byte>) {
    var (n, rest) := ReadNat(b);
    ReadChars(n, rest)
  }

  lemma ReadWrittenText(s: string, rest: seq<byte>)
    ensures ReadText(WriteText(s) + rest) == (s, rest)
  {
    ReadUnary(|s|, WriteChars(s) + rest);
    ReadWrittenChars(s, rest);
    assert WriteText(s) + rest == Unary(|s|) + (WriteChars(s) + rest);
  }

  /** The kind comes first: 0 for none, 1 and its text. */
  function WriteKind(k: Json): seq<byte>
    requires k.Undefined? || k.Text?
  {
    if k.Text? then Unary(1) + WriteText(k.s) else Unary(0)
  }

  function ReadKind(b: seq<byte>): (Json, seq<byte>) {
    var (n, rest) := ReadNat(b);
    if n == 0 then (Undefined, rest)
    else
      var (s, more) := ReadText(rest);
      (Text(s), more)
  }

  lemma ReadWrittenKind(k: Json, rest: seq<byte>)
    requires k.Undefined? || k.Text?
    ensures ReadKind(WriteKind(k) + rest) == (k, rest)
  {
    hide ReadText, WriteText, ReadNat, Unary;
    if k.Text? {
      ReadUnary(1, WriteText(k.s) + rest);
      ReadWrittenText(k.s, rest);
      assert WriteKind(k) + rest == Unary(1) + (WriteText(k.s) + rest);
    } else {
      ReadUnary(0, rest);
    }
  }

  function WriteInts(ns: seq<int>): seq<byte> {
    if ns == [] then [] else WriteInt(ns[0]) + WriteInts(ns[1..])
  }

  function ReadInts(count: nat, b: seq<byte>): (r: seq<int>)
    ensures |r| == count
  {
    if count == 0 then []
    else
      var (n, rest) := ReadInt(b);
      [n] + ReadInts(count - 1, rest)
  }

  lemma {:induction false} ReadWrittenInts(ns: seq<int>)
    ensures ReadInts(|ns|, WriteInts(ns)) == ns
  {
    if ns != [] {
      ReadWritten(ns[0], WriteInts(ns[1..]));
      ReadWrittenInts(ns[1..]);
      assert [ns[0]] + ns[1..] == ns;
    }
  }

  function Numbers(f: Fields): seq<int>
    requires Sendable(f)
  {
    [f.size.n, f.chunks.n, f.fileIndex.n, f.fileCount.n, f.batchTotalChunks.n]
  }

  function Stringify(f: Fields): seq<byte> {
    if Sendable(f) then WriteKind(f.kind) + (WriteText(f.name.s) + WriteInts(Numbers(f))) else []
  }

  function Parse(b: seq<byte>): Parsed {
    var (kind, rest) := ReadKind(b);
    var (name, more) := ReadText(rest);
    var n := ReadInts(5, more);
    Object(Fields(Text(name), Int(n[0]), Int(n[1]), Int(n[2]), Int(n[3]), Int(n[4]), kind))
  }

  const CODEC := Codec(Stringify, Parse)

  /** There is a faithful codec. */
  lemma CodecFaithful()
    ensures CODEC.Faithful()
  {
    forall f | Sendable(f) ensures Parse(Stringify(f)) == Object(f) {
      ParseStringify(f);
    }
  }

  lemma ParseStringify(f: Fields)
    requires Sendable(f)
    ensures Parse(Stringify(f)) == Object(f)
  {
    hide ReadKind, WriteKind, ReadText, WriteText, ReadInts, WriteInts;
    ReadWrittenKind(f.kind, WriteText(f.name.s) + WriteInts(Numbers(f)));
    ReadWrittenText(f.name.s, WriteInts(Numbers(f)));
    ReadWrittenInts(Numbers(f));
  }

  // ----- a file the two ends disagree about

  /** A batch of one file of that many zero bytes. */
  function OneFile(size: nat, mode: Mode): Batch {
    Batch(seq(32, _ => 0), [], CODEC, [SourceFile("a", seq(size, _ => 0))], mode, false)
  }

  lemma OneFileValid(size: nat, mode: Mode)
    requires size <= MAX_FILE_BYTES
    ensures ValidBatch(OneFile(size, mode))
  {
    CodecFaithful();
    var files := OneFile(size, mode).files;
    assert files[..0] == [];
    assert TotalBytes(files) == size;
  }

  /** One byte more than 8192 chunks of the direct channel: accepted for sending, refused on arrival. */
  lemma TooManyChunks()
    ensures var b := OneFile(2_146_729_985, P2P);
      ValidBatch(b) && Validate(b.codec.parse(b.codec.stringify(MetaFields(b, 0)))) == None
  {
    hide Validate, MetaFields, ValidBatch;
    OneFileValid(2_146_729_985, P2P);
    LimitsAgree(OneFile(2_146_729_985, P2P), 0);
  }
}
