/**
 * The validated compression configuration and its conversions into the Parquet codec,
 * the writer properties and the Arrow writer options.
 */
module CompressionParse {
  import opened Common
  import ParquetLib
  import Gzip
  import Zstd

  /** `Compression`, in the source's variant order. */
  datatype Compression =
    | Uncompressed
    | Snappy
    | Gzip(g: Gzip.GzipLevel)
    | Lzo
    | Lz4
    | Zstd(z: Zstd.ZstdLevel)
    | Lz4Raw

  /** Every level inside a configuration is one the level constructors can build. */
  predicate WellFormed(c: Compression)
  {
    c.Zstd? ==> Zstd.Valid(c.z)
  }

  /** The codec each variant stands for. */
  function NameOf(c: Compression): ParquetLib.CodecName
  {
    match c
    case Uncompressed => ParquetLib.UNCOMPRESSED
    case Snappy => ParquetLib.SNAPPY
    case Gzip(_) => ParquetLib.GZIP
    case Lzo => ParquetLib.LZO
    case Lz4 => ParquetLib.LZ4
    case Zstd(_) => ParquetLib.ZSTD
    case Lz4Raw => ParquetLib.LZ4_RAW
  }

  /** `DEFAULT_COMPRESSION`. */
  const DefaultCompression: Compression := Uncompressed

  /** `Compression::default()`. */
  function Default(): (c: Compression)
    ensures c == Uncompressed && WellFormed(c)
  {
    DefaultCompression
  }

  /** `TryFrom<Compression> for parquet::basic::Compression`. */
  function ToCodec(c: Compression, lib: ParquetLib.Library): (r: Result<ParquetLib.Codec>)
    ensures r.Ok? ==> ParquetLib.NameOf(r.value) == NameOf(c)
    ensures !c.Gzip? && !c.Zstd? ==> r.Ok?
    ensures c.Gzip? ==> (r.Ok? <==> Gzip.ToParquet(c.g, lib).Ok?)
    ensures c.Gzip? && r.Ok? ==> r.value.gzipLevel.level == Gzip.Discriminant(c.g) as int
    ensures c.Gzip? && r.Err? ==> r.error == Gzip.ToParquet(c.g, lib).error
    ensures c.Zstd? ==> (r.Ok? <==> Zstd.ToParquet(c.z, lib).Ok?)
    ensures c.Zstd? && r.Ok? ==> r.value.zstdLevel.level == c.z.level as int
    ensures c.Zstd? && r.Err? ==> r.error == Zstd.ToParquet(c.z, lib).error
  {
    match c
    case Uncompressed => Ok(ParquetLib.Uncompressed)
    case Snappy => Ok(ParquetLib.Snappy)
    case Gzip(g) => MapGzip(Gzip.ToParquet(g, lib))
    case Lzo => Ok(ParquetLib.Lzo)
    case Lz4 => Ok(ParquetLib.Lz4)
    case Zstd(z) => MapZstd(Zstd.ToParquet(z, lib))
    case Lz4Raw => Ok(ParquetLib.Lz4Raw)
  }

  /** A gzip level conversion, carried into the codec or propagated as the error. */
  function MapGzip(r: Result<ParquetLib.GzipLevel>): Result<ParquetLib.Codec>
  {
    match r
    case Ok(l) => Ok(ParquetLib.Gzip(l))
    case Err(e) => Err(e)
  }

  /** A zstd level conversion, carried into the codec or propagated as the error. */
  function MapZstd(r: Result<ParquetLib.ZstdLevel>): Result<ParquetLib.Codec>
  {
    match r
    case Ok(l) => Ok(ParquetLib.Zstd(l))
    case Err(e) => Err(e)
  }

  /** Distinct configurations never convert to the same codec. */
  lemma ToCodecInjective(c1: Compression, c2: Compression, lib: ParquetLib.Library)
    requires ToCodec(c1, lib).Ok? && ToCodec(c2, lib).Ok?
    requires ToCodec(c1, lib).value == ToCodec(c2, lib).value
    ensures c1 == c2
  {
    if c1.Gzip? {
      Gzip.DiscriminantInjective(c1.g, c2.g);
    } else if c1.Zstd? {
      assert c1.z.level == c2.z.level;
    }
  }

  /** With a library that accepts the ranges the level types enforce, no well-formed configuration fails. */
  lemma ToCodecTotal(c: Compression, lib: ParquetLib.Library)
    requires WellFormed(c)
    requires forall u :: 0 <= u <= 9 ==> lib.gzipCheck(u).Accept?
    requires forall l :: 1 <= l <= 22 ==> lib.zstdCheck(l).Accept?
    ensures ToCodec(c, lib).Ok?
  {
    if c.Gzip? {
      Gzip.ToParquetTotal(c.g, lib);
    } else if c.Zstd? {
      Zstd.ToParquetTotal(c.z, lib);
    }
  }

  /** `TryFrom<Compression> for WriterProperties`: only the compression is set, to the converted codec. */
  function ToWriterProperties(c: Compression, lib: ParquetLib.Library): (r: Result<ParquetLib.WriterProperties>)
    ensures r.Ok? <==> ToCodec(c, lib).Ok?
    ensures r.Ok? ==> r.value == ParquetLib.Build(ParquetLib.SetCompression(ParquetLib.Builder(), ToCodec(c, lib).value))
    ensures r.Ok? ==> r.value.compression == ToCodec(c, lib).value
    ensures r.Err? ==> r.error == ToCodec(c, lib).error
  {
    match ToCodec(c, lib)
    case Err(e) => Err(e)
    case Ok(pc) => Ok(ParquetLib.Build(ParquetLib.SetCompression(ParquetLib.Builder(), pc)))
  }

  /** `TryFrom<Compression> for ArrowWriterOptions`: the default options carrying those properties. */
  function ToArrowWriterOptions(c: Compression, lib: ParquetLib.Library): (r: Result<ParquetLib.ArrowWriterOptions>)
    ensures r.Ok? <==> ToWriterProperties(c, lib).Ok?
    ensures r.Ok? ==> r.value == ParquetLib.WithProperties(ParquetLib.NewOptions(), ToWriterProperties(c, lib).value)
    ensures r.Ok? ==> r.value.properties.compression == ToCodec(c, lib).value
    ensures r.Err? ==> r.error == ToCodec(c, lib).error
  {
    match ToWriterProperties(c, lib)
    case Err(e) => Err(e)
    case Ok(props) => Ok(ParquetLib.WithProperties(ParquetLib.NewOptions(), props))
  }
}
