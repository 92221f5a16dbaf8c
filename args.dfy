/**
 * The command line's compression selection: a codec name, matched without regard to case,
 * and an optional `u8` level become an optional `Compression`; `write_all` then falls back to
 * the default compression and hands the resulting writer options to the durable sink.
 */
module Args {
  import opened Common
  import Gzip
  import Zstd
  import ParquetLib
  import CompressionParse
  import Core

  /** Lower-case of one character: ASCII `A`..`Z` become `a`..`z`, every other character is kept. */
  function LowerChar(c: char): char
  {
    if 'A' <= c <= 'Z' then (c as int + 32) as char else c
  }

  /** `to_lowercase`, character by character. */
  function ToLower(s: string): (t: string)
    ensures |t| == |s|
    ensures forall i | 0 <= i < |s| :: t[i] == LowerChar(s[i])
  {
    if s == [] then [] else [LowerChar(s[0])] + ToLower(s[1..])
  }

  /** The names the selection recognises, and the codec each one selects. */
  const Names: map<string, ParquetLib.CodecName> := map[
    "none" := ParquetLib.UNCOMPRESSED,
    "snappy" := ParquetLib.SNAPPY,
    "lzo" := ParquetLib.LZO,
    "lz4" := ParquetLib.LZ4,
    "lz4raw" := ParquetLib.LZ4_RAW,
    "gzip" := ParquetLib.GZIP,
    "zstd" := ParquetLib.ZSTD
  ]

  /** Whether a level given (or not) on the command line is one the selected codec takes. */
  predicate LevelAccepted(codec: ParquetLib.CodecName, level: Option<u8>)
  {
    match codec
    case GZIP => level.None? || level.value <= 9
    case ZSTD => level.None? || level.value <= 22
    case _ => true
  }

  /** The error for a name that is none of the seven; it quotes the name as given. */
  function UnsupportedCompression(s: string): IoError
  {
    IoError(InvalidInput, "unsupported compression: " + s)
  }

  /** The compression part of `raw2args`. */
  function SelectCompression(name: Option<string>, level: Option<u8>): (r: Result<Option<CompressionParse.Compression>>)
    ensures name.None? ==> r == Ok(None)
    ensures r.Ok? <==> name.None? || (ToLower(name.value) in Names && LevelAccepted(Names[ToLower(name.value)], level))
    ensures r.Ok? && name.Some? ==>
      && r.value.Some?
      && CompressionParse.NameOf(r.value.value) == Names[ToLower(name.value)]
      && CompressionParse.WellFormed(r.value.value)
    ensures name.Some? && ToLower(name.value) !in Names ==> r == Err(UnsupportedCompression(name.value))
  {
    match name
    case None => Ok(None)
    case Some(s) =>
      var lower := ToLower(s);
      if lower == "none" then Ok(Some(CompressionParse.Uncompressed))
      else if lower == "snappy" then Ok(Some(CompressionParse.Snappy))
      else if lower == "lzo" then Ok(Some(CompressionParse.Lzo))
      else if lower == "lz4" then Ok(Some(CompressionParse.Lz4))
      else if lower == "lz4raw" then Ok(Some(CompressionParse.Lz4Raw))
      else if lower == "gzip" then GzipChoice(level)
      else if lower == "zstd" then ZstdChoice(level)
      else Err(UnsupportedCompression(s))
  }

  /** The `gzip` arm: the default level without a level, otherwise the level conversion or its error. */
  function GzipChoice(level: Option<u8>): (r: Result<Option<CompressionParse.Compression>>)
    ensures r.Ok? <==> LevelAccepted(ParquetLib.GZIP, level)
    ensures r.Ok? ==> r.value.Some? && r.value.value.Gzip?
  {
    var gzLevel := match level
      case None => Ok(Gzip.Default())
      case Some(lvl) => Gzip.TryFromU8(lvl);
    match gzLevel
    case Err(e) => Err(e)
    case Ok(g) => Ok(Some(CompressionParse.Gzip(g)))
  }

  /** The `zstd` arm: level 3 without a level, otherwise the level conversion or its error. */
  function ZstdChoice(level: Option<u8>): (r: Result<Option<CompressionParse.Compression>>)
    ensures r.Ok? <==> LevelAccepted(ParquetLib.ZSTD, level)
    ensures r.Ok? ==> r.value.Some? && r.value.value.Zstd? && CompressionParse.WellFormed(r.value.value)
  {
    var zstdLevel := match level
      case None => Ok(Zstd.Default())
      case Some(lvl) => Zstd.TryFromU8(lvl);
    match zstdLevel
    case Err(e) => Err(e)
    case Ok(z) => Ok(Some(CompressionParse.Zstd(z)))
  }

  /**
   * The result depends on the name only through its lower-case form: names that lower to the
   * same string select the same compression and fail with the same level error; only the
   * message for an unknown name differs, since it quotes the name as given.
   */
  lemma CaseInsensitive(s: string, t: string, level: Option<u8>)
    requires ToLower(s) == ToLower(t)
    ensures SelectCompression(Some(s), level).Ok? <==> SelectCompression(Some(t), level).Ok?
    ensures ToLower(s) in Names ==> SelectCompression(Some(s), level) == SelectCompression(Some(t), level)
    ensures ToLower(s) !in Names ==>
      && SelectCompression(Some(s), level) == Err(UnsupportedCompression(s))
      && SelectCompression(Some(t), level) == Err(UnsupportedCompression(t))
  {
  }

  /** For the five codecs without a level, any level is ignored, even one no codec accepts. */
  lemma FixedCodecsIgnoreLevel(s: string, level: Option<u8>)
    requires ToLower(s) in Names && Names[ToLower(s)] !in {ParquetLib.GZIP, ParquetLib.ZSTD}
    ensures SelectCompression(Some(s), level) == SelectCompression(Some(s), None)
    ensures SelectCompression(Some(s), level).Ok?
  {
  }

  /** `gzip`: the default level 6 without a level, otherwise the level conversion or its error. */
  lemma GzipSelection(s: string, level: Option<u8>)
    requires ToLower(s) == "gzip"
    ensures level.None? ==> SelectCompression(Some(s), level) == Ok(Some(CompressionParse.Gzip(Gzip.Level6)))
    ensures level.Some? && level.value <= 9 ==>
      SelectCompression(Some(s), level) == Ok(Some(CompressionParse.Gzip(Gzip.TryFromU8(level.value).value)))
    ensures level.Some? && level.value > 9 ==> SelectCompression(Some(s), level) == Err(Gzip.UnsupportedLevel)
  {
  }

  /** `zstd`: level 3 without a level, otherwise the level conversion or its error. */
  lemma ZstdSelection(s: string, level: Option<u8>)
    requires ToLower(s) == "zstd"
    ensures level.None? ==> SelectCompression(Some(s), level) == Ok(Some(CompressionParse.Zstd(Zstd.ZstdLevel(3))))
    ensures level.Some? && level.value <= 22 ==>
      SelectCompression(Some(s), level) == Ok(Some(CompressionParse.Zstd(Zstd.TryFromU8(level.value).value)))
    ensures level.Some? && level.value > 22 ==> SelectCompression(Some(s), level) == Err(Zstd.InvalidLevel)
  {
  }

  /** Upper-case names select the same codecs as their lower-case forms. */
  lemma ExampleUpperCase()
    ensures SelectCompression(Some("ZSTD"), Some(10)) == Ok(Some(CompressionParse.Zstd(Zstd.ZstdLevel(10))))
    ensures SelectCompression(Some("LZ4"), Some(255)) == Ok(Some(CompressionParse.Lz4))
  {
    assert ToLower("ZSTD") == "zstd";
    assert ToLower("LZ4") == "lz4";
  }

  /** Zstd level 0 selects the default level. */
  lemma ExampleZstdLevelZero()
    ensures SelectCompression(Some("zstd"), Some(0)) == SelectCompression(Some("zstd"), None)
  {
    assert ToLower("zstd") == "zstd";
  }

  /** Gzip level 0 is a level of its own, not the default. */
  lemma ExampleGzipLevelZero()
    ensures SelectCompression(Some("gzip"), Some(0)) == Ok(Some(CompressionParse.Gzip(Gzip.Level0)))
    ensures SelectCompression(Some("gzip"), Some(0)) != SelectCompression(Some("gzip"), None)
  {
    assert ToLower("gzip") == "gzip";
  }

  /** An unknown name is refused with a message that quotes it unchanged. */
  lemma ExampleUnknownName()
    ensures SelectCompression(Some("Brotli"), None) == Err(UnsupportedCompression("Brotli"))
  {
    assert ToLower("Brotli") == "brotli";
  }

  /** `compression.unwrap_or_default()`. */
  function UnwrapOrDefault(c: Option<CompressionParse.Compression>): (r: CompressionParse.Compression)
    ensures c.None? ==> r == CompressionParse.Uncompressed
    ensures c.Some? ==> r == c.value
  {
    match c
    case None => CompressionParse.Default()
    case Some(v) => v
  }

  /**
   * The options `write_all` builds. Without a selected compression they are exactly the
   * library's default options, which are uncompressed.
   */
  function WriteOptions(c: Option<CompressionParse.Compression>, lib: ParquetLib.Library): (r: Result<ParquetLib.ArrowWriterOptions>)
    ensures c.None? ==> r == Ok(ParquetLib.NewOptions())
    ensures c.None? ==> r.value.properties.compression == ParquetLib.Uncompressed
    ensures r.Ok? ==> ParquetLib.NameOf(r.value.properties.compression) == CompressionParse.NameOf(UnwrapOrDefault(c))
    ensures c.Some? ==> (r.Ok? <==> CompressionParse.ToCodec(c.value, lib).Ok?)
  {
    CompressionParse.ToArrowWriterOptions(UnwrapOrDefault(c), lib)
  }

  /**
   * A selection that succeeded converts without failure under a library that accepts the
   * ranges the level types enforce.
   */
  lemma SelectedOptionsConvert(name: Option<string>, level: Option<u8>, lib: ParquetLib.Library)
    requires SelectCompression(name, level).Ok?
    requires forall u :: 0 <= u <= 9 ==> lib.gzipCheck(u).Accept?
    requires forall l :: 1 <= l <= 22 ==> lib.zstdCheck(l).Accept?
    ensures WriteOptions(SelectCompression(name, level).value, lib).Ok?
  {
    var c := SelectCompression(name, level).value;
    CompressionParse.ToCodecTotal(UnwrapOrDefault(c), lib);
  }

  /**
   * `write_all`: resolve the options, then run the durable sink with them. A configuration error is
   * returned before the file is created or the stream is touched.
   */
  method WriteAll(w: Core.World, compression: Option<CompressionParse.Compression>, lib: ParquetLib.Library,
                  path: string, fsync: bool) returns (r: Result<()>)
    requires w.Valid()
    modifies w
    ensures w.Valid()
    ensures WriteOptions(compression, lib).Err? ==>
      r == Err(WriteOptions(compression, lib).error) && w.trace == old(w.trace) && w.pos == old(w.pos)
    ensures WriteOptions(compression, lib).Ok? ==>
      var run := Core.FileRun(w.items[old(w.pos)..], Some(WriteOptions(compression, lib).value), path, fsync,
                              w.fault, old(w.trace));
      w.trace == old(w.trace) + Core.Events(run) && r == run.result
  {
    var opts := WriteOptions(compression, lib);
    if opts.Err? {
      return Err(opts.error);
    }
    r := Core.BatchToParquetFile(w, Some(opts.value), path, fsync);
  }

  /** The rows of a sequence of batches. */
  function Rows(bs: seq<Core.Batch>): nat
  {
    if bs == [] then 0 else bs[0].rows + Rows(bs[1..])
  }

  /** `--compression zstd --compression-level 10` configures the writer with zstd level 10. */
  lemma ScenarioOptions(lib: ParquetLib.Library)
    requires lib.zstdCheck(10).Accept?
    ensures var opts := WriteOptions(SelectCompression(Some("zstd"), Some(10)).value, lib);
      && opts.Ok?
      && opts.value.properties.compression == ParquetLib.Zstd(ParquetLib.ZstdLevel(10))
  {
    assert ToLower("zstd") == "zstd";
  }

  /**
   * Three batches of 10, 5 and 20 rows with one schema, no failing call and no sync: the writer
   * is initialised from the first batch's schema, each later batch is written right after it is
   * pulled, the three batches are written in order, 35 rows in all, and the run succeeds after
   * `finish` and both flushes.
   */
  lemma ScenarioThreeBatches(fault: Core.Fault, opts: ParquetLib.ArrowWriterOptions, path: string, h: seq<Core.Event>)
    requires forall h', e :: fault(h', e) == None
    ensures
      var s := Core.Schema(["name", "size"]);
      var bs := [Core.Batch(s, 10), Core.Batch(s, 5), Core.Batch(s, 20)];
      var run := Core.FileRun([Ok(bs[0]), Ok(bs[1]), Ok(bs[2])], Some(opts), path, false, fault, h);
      && run.result == Ok(())
      && Core.Events(run) == [Core.Create(path), Core.Pull, Core.Init(s, Some(opts)), Core.Write(bs[0])]
                             + Core.Paired([bs[1], bs[2]])
                             + [Core.Pull, Core.Finish, Core.BufFlush, Core.FileFlush]
      && Core.Writes(Core.Events(run)) == bs
      && Rows(Core.Writes(Core.Events(run))) == 35
  {
    var s := Core.Schema(["name", "size"]);
    var bs := [Core.Batch(s, 10), Core.Batch(s, 5), Core.Batch(s, 20)];
    var items: seq<Result<Core.Batch>> := [Ok(bs[0]), Ok(bs[1]), Ok(bs[2])];
    assert items[1..] == [Ok(bs[1]), Ok(bs[2])];
    assert items[1..][1..] == [Ok(bs[2])];
    assert items[1..][1..][1..] == [];
    assert Core.SourceError(items[1..][1..]).None?;
    assert Core.SourceError(items).None?;
    assert Core.Batches(items[1..][1..]) == [bs[2]];
    assert Core.Batches(items[1..]) == [bs[1], bs[2]];
    assert Core.Batches(items) == bs;
    Core.FileTraceWithoutFaults(items, Some(opts), path, false, fault, h);
    assert Rows(bs[2..]) == 20;
  }
}
