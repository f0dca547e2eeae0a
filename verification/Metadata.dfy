/** The metadata object that opens every file, and its validation at the receiver. */
module Metadata {
  import opened Bytes
  import opened Limits
  import opened Filenames

  /** A property value as JSON.parse can produce it; an absent property is Undefined. */
  datatype Json = Undefined | Null | Int(n: int) | Fraction | Text(s: string) | Other

  datatype Fields = Fields(
    name: Json, size: Json, chunks: Json, fileIndex: Json, fileCount: Json, batchTotalChunks: Json, kind: Json)

  datatype Parsed = SyntaxError | NotAnObject | Object(fields: Fields)

  /** The records a sender makes: a text name, integer sizes and counts, and at most a text kind. */
  predicate Sendable(f: Fields) {
    && f.name.Text? && f.size.Int? && f.chunks.Int? && f.fileIndex.Int? && f.fileCount.Int? && f.batchTotalChunks.Int?
    && (f.kind.Undefined? || f.kind.Text?)
  }

  /** TextEncoder ∘ JSON.stringify and JSON.parse ∘ TextDecoder. */
  datatype Codec = Codec(stringify: Fields -> seq<byte>, parse: seq<byte> -> Parsed)
  {
    ghost predicate Faithful() {
      forall f :: Sendable(f) ==> parse(stringify(f)) == Object(f)
    }
  }

  datatype Metadata = Metadata(
    name: string, size: nat, chunks: nat, fileIndex: nat, fileCount: nat, batchTotalChunks: nat, isText: bool)

  /** a ?? b */
  function OrElse(v: Json, default: Json): Json {
    if v.Undefined? || v.Null? then default else v
  }

  /** validatePositiveInt: the number, when it is an integer in 0..max. */
  function PositiveInt(v: Json, max: nat): (r: Option<nat>)
    ensures r.Some? <==> v.Int? && 0 <= v.n <= max
    ensures r.Some? ==> r.value == v.n
  {
    if !v.Int? || v.n < 0 then None
    else if v.n > max then None
    else Some(v.n)
  }

  /** validateMetadata */
  function Validate(p: Parsed): Option<Metadata> {
    if !p.Object? then None else
      var f := p.fields;
      var fileCount := PositiveInt(OrElse(f.fileCount, Int(1)), MAX_FILE_COUNT);
      if fileCount.None? then None else
      var fileIndex := PositiveInt(OrElse(f.fileIndex, Int(0)), MAX_FILE_COUNT - 1);
      if fileIndex.None? then None else
      if fileIndex.value >= fileCount.value then None else
      var chunks := PositiveInt(f.chunks, MAX_CHUNKS);
      if chunks.None? then None else
      var size := PositiveInt(f.size, MAX_FILE_BYTES);
      if size.None? then None else
      var total := PositiveInt(OrElse(f.batchTotalChunks, Int(chunks.value)), MAX_CHUNKS * MAX_FILE_COUNT);
      if total.None? then None else
      if size.value > 0 && chunks.value == 0 then None else
      var name := if f.name.Text? then Sanitize(f.name.s) else DOWNLOAD;
      Some(Metadata(name, size.value, chunks.value, fileIndex.value, fileCount.value, total.value,
        f.kind == Text("text")))
  }

  /** What every accepted metadata object guarantees to the receiver. */
  lemma ValidateBounds(p: Parsed)
    ensures Validate(p).Some? ==>
      var m := Validate(p).value;
      && m.fileIndex < m.fileCount <= MAX_FILE_COUNT
      && m.chunks <= MAX_CHUNKS && m.size <= MAX_FILE_BYTES && m.batchTotalChunks <= MAX_CHUNKS * MAX_FILE_COUNT
      && (m.chunks == 0 ==> m.size == 0)
      && Harmless(m.name)
  {
    if Validate(p).Some? {
      if p.fields.name.Text? {
        SanitizeHarmless(p.fields.name.s);
      } else {
        DownloadHarmless();
      }
    }
  }

  // ----- exactly what is accepted

  /** A property that stands for the number n: given as an integer, or absent or null and n the default. */
  predicate Stands(v: Json, n: int, default: int) {
    match v
    case Int(m) => m == n
    case Undefined => n == default
    case Null => n == default
    case _ => false
  }

  /** The metadata that an object describes, within the limits of 100 files, 8192 chunks and 2 GiB for each. */
  ghost predicate Describes(f: Fields, m: Metadata) {
    && Stands(f.fileCount, m.fileCount, 1) && m.fileCount <= 100
    && Stands(f.fileIndex, m.fileIndex, 0) && m.fileIndex < m.fileCount
    && f.chunks == Int(m.chunks) && m.chunks <= 8192
    && f.size == Int(m.size) && m.size <= 2_147_483_648
    && Stands(f.batchTotalChunks, m.batchTotalChunks, m.chunks) && m.batchTotalChunks <= 819_200
    && (m.size > 0 ==> m.chunks > 0)
    && m.name == (if f.name.Text? then Sanitize(f.name.s) else "download")
    && (m.isText <==> f.kind == Text("text"))
  }

  /** Metadata is accepted exactly if it is an object that describes some, and then as what it describes. */
  lemma ValidateExactly(p: Parsed, m: Metadata)
    ensures Validate(p) == Some(m) <==> p.Object? && Describes(p.fields, m)
  {
    hide Sanitize;
  }
}
