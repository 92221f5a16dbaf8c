/**
 * The boundary with the Parquet library: the values the modelled code hands to it
 * (`parquet::basic::Compression`, its level types, `WriterProperties`, `ArrowWriterOptions`)
 * and the library's own level range checks (`GzipLevel::try_new`, `ZstdLevel::try_new`),
 * which live in the library and are therefore parameters of the model.
 */
module ParquetLib {
  import opened Common

  /** What a library range check answers: accepted, or rejected with the library's message. */
  datatype Check = Accept | Reject(reason: string)

  /**
   * The library's two level checks. `gzipCheck` is applied to the level widened to `u32`,
   * `zstdCheck` to the level widened to `i32`; both widenings keep the value.
   */
  datatype Library = Library(gzipCheck: int -> Check, zstdCheck: int -> Check)

  /** `parquet::basic::GzipLevel`, a level the library has accepted. */
  datatype GzipLevel = GzipLevel(level: int)

  /** `parquet::basic::ZstdLevel`, a level the library has accepted. */
  datatype ZstdLevel = ZstdLevel(level: int)

  /** `parquet::basic::Compression`, restricted to the seven codecs the core can select. */
  datatype Codec =
    | Uncompressed
    | Snappy
    | Gzip(gzipLevel: GzipLevel)
    | Lzo
    | Lz4
    | Zstd(zstdLevel: ZstdLevel)
    | Lz4Raw

  /** The codec family, without its level: the name a codec is known by. */
  datatype CodecName = UNCOMPRESSED | SNAPPY | GZIP | LZO | LZ4 | ZSTD | LZ4_RAW

  function NameOf(c: Codec): CodecName
  {
    match c
    case Uncompressed => UNCOMPRESSED
    case Snappy => SNAPPY
    case Gzip(_) => GZIP
    case Lzo => LZO
    case Lz4 => LZ4
    case Zstd(_) => ZSTD
    case Lz4Raw => LZ4_RAW
  }

  /** `GzipLevel::try_new`, with the library's error turned into `io::Error::other`. */
  function GzipTryNew(lib: Library, level: int): (r: Result<GzipLevel>)
    ensures r.Ok? <==> lib.gzipCheck(level).Accept?
    ensures r.Ok? ==> r.value.level == level
    ensures r.Err? ==> r.error == IoError(Other, lib.gzipCheck(level).reason)
  {
    match lib.gzipCheck(level)
    case Accept => Ok(GzipLevel(level))
    case Reject(why) => Err(IoError(Other, why))
  }

  /** `ZstdLevel::try_new`, with the library's error turned into `io::Error::other`. */
  function ZstdTryNew(lib: Library, level: int): (r: Result<ZstdLevel>)
    ensures r.Ok? <==> lib.zstdCheck(level).Accept?
    ensures r.Ok? ==> r.value.level == level
    ensures r.Err? ==> r.error == IoError(Other, lib.zstdCheck(level).reason)
  {
    match lib.zstdCheck(level)
    case Accept => Ok(ZstdLevel(level))
    case Reject(why) => Err(IoError(Other, why))
  }

  /**
   * `WriterProperties`. Only the compression setting is modelled; every other property
   * keeps the library's default and is not represented.
   */
  datatype WriterProperties = WriterProperties(compression: Codec)

  /** `WriterProperties::builder()` before any setter: the library default codec is uncompressed. */
  datatype WriterPropertiesBuilder = WriterPropertiesBuilder(compression: Codec)

  function Builder(): WriterPropertiesBuilder
  {
    WriterPropertiesBuilder(Uncompressed)
  }

  function SetCompression(b: WriterPropertiesBuilder, c: Codec): (r: WriterPropertiesBuilder)
    ensures r.compression == c
  {
    b.(compression := c)
  }

  function Build(b: WriterPropertiesBuilder): (p: WriterProperties)
    ensures p.compression == b.compression
  {
    WriterProperties(b.compression)
  }

  /** `ArrowWriterOptions`: the writer properties the Arrow writer is built with. */
  datatype ArrowWriterOptions = ArrowWriterOptions(properties: WriterProperties)

  /** `ArrowWriterOptions::new()`: the default writer properties. */
  function NewOptions(): ArrowWriterOptions
  {
    ArrowWriterOptions(Build(Builder()))
  }

  function WithProperties(o: ArrowWriterOptions, p: WriterProperties): (r: ArrowWriterOptions)
    ensures r.properties == p
  {
    o.(properties := p)
  }
}
