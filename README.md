# zips2parquet core, modelled in Dafny

This project models the core of `rs-zips2meta2parquet`, a Rust tool that streams Arrow record
batches into a Parquet file. The model has two parts.

- **Compression resolution.** The command line gives an optional codec name and an optional
  `u8` level. The name is matched without regard to case against `none`, `snappy`, `lzo`,
  `lz4`, `lz4raw`, `gzip` and `zstd`. The result is an optional validated `Compression` value:
  `GzipLevel` takes 0..=9; `ZstdLevel` takes 0..=22 and turns 0 into 3. `write_all` falls back
  to the default compression (`Uncompressed`). It then converts the value into the Parquet
  codec, the `WriterProperties` and the `ArrowWriterOptions`.
- **The streaming encoder and the durable sink.** These are the four functions of `core.rs`.
  `batch2parquet` pulls the first element. If the stream is empty, nothing starts. If the
  first element is an error, it is returned. Otherwise the writer is initialised lazily from
  the first batch's schema, every batch is written in order, the run stops at the first error,
  and the writer is finished only after a clean traversal. `batch2parquet_file` creates the
  file and encodes into it. It then flushes the buffered writer, flushes the file, and syncs
  the data only when `fsync` is set.

Files and modules:

- `common.dfy` (`Common`): `u8`, `Option`, `Result`, and the I/O error with its kind and
  message.
- `parquet_lib.dfy` (`ParquetLib`): the Parquet library's side of the conversions.
  - Codecs, level values, writer properties and writer options.
  - A `Library` value holding the library's own level range checks.
- `gzip.dfy` (`Gzip`), `zstd.dfy` (`Zstd`), `compression.dfy` (`CompressionParse`): the three
  compression source files, as datatypes and total functions.
- `args.dfy` (`Args`): the codec-name dispatch of `raw2args` and the defaulting in
  `write_all`.
- `core.dfy` (`Core`): the encoder and sink as imperative code.
  - A class `World` holds the stream (`items`, and `pos`, how many have been pulled) and a
    `trace` of every call made into the file, the buffered writer and the Parquet writer.
  - A `fault` function decides which call fails, from the call and the history before it.
  - Each of the four operations is a method, as in the source. `WriteBatchAll` is a `while`
    loop over the stream, as `write_batch_all` is. The other three are straight-line code that
    returns early at the first failure.
  - Each method is proved against a pure function that returns the run it performs: the events
    and the result.
  - The lemmas state what those runs guarantee: fail-fast, writes in order, lazy
    initialisation, finish last, and ordered flushes.

## Model

| member | source | states |
|---|---|---|
| Gzip.Discriminant | src/compression/gzip.rs:3-16 | every level's `u8` discriminant is at most 9 |
| Gzip.Default | src/compression/gzip.rs:18-24 | the default level has discriminant 6 |
| Gzip.TryFromU8 | src/compression/gzip.rs:35-56 | succeeds exactly when `u <= 9`; the level built has discriminant `u`; otherwise the `InvalidInput` error "Unsupported GZIP level" |
| Gzip.DiscriminantRoundTrip | src/compression/gzip.rs:3-56 | every level is the one `try_from` builds from its own discriminant |
| Gzip.DiscriminantInjective | src/compression/gzip.rs:3-16 | distinct levels have distinct discriminants |
| Gzip.LevelZeroIsDistinct | src/compression/gzip.rs:8-40 | 0 builds `Level0`, whose value is 0, and not the default level 6 |
| Gzip.ToParquet | src/compression/gzip.rs:26-33 | forwards the discriminant unchanged; fails exactly when the library's check rejects it, with an error of kind `Other` |
| Gzip.ToParquetTotal | src/compression/gzip.rs:26-33 | under a library that accepts 0..=9, no level fails to convert |
| Zstd.Default | src/compression/zstd.rs:7-13 | the default carries level 3, a valid level |
| Zstd.TryFromU8 | src/compression/zstd.rs:15-26 | succeeds exactly when `u <= 22`; 0 gives 3; 1..=22 are kept; above 22 gives "invalid zstd level"; every level built is in 1..=22 |
| Zstd.ZeroIsDefault | src/compression/zstd.rs:7-26 | `try_from(0)`, `try_from(3)` and `default()` all give level 3 |
| Zstd.LevelRoundTrip | src/compression/zstd.rs:15-26 | a built level is rebuilt unchanged from its own number |
| Zstd.ToParquet | src/compression/zstd.rs:28-35 | forwards the stored level unchanged; fails exactly when the library's check rejects it, with an error of kind `Other` |
| Zstd.ToParquetTotal | src/compression/zstd.rs:28-35 | under a library that accepts 1..=22, no valid level fails to convert |
| CompressionParse.Default | src/compression/parse.rs:19-25 | the default compression is `Uncompressed` |
| CompressionParse.ToCodec | src/compression/parse.rs:27-41 | each variant maps to the codec of the same name; the five variants without a level never fail; `Gzip`/`Zstd` fail exactly when their level conversion fails, propagating its error, and otherwise carry the converted level |
| CompressionParse.ToCodecInjective | src/compression/parse.rs:31-39 | distinct configurations never convert to the same codec |
| CompressionParse.ToCodecTotal | src/compression/parse.rs:27-41 | under a library that accepts the ranges the level types enforce, no well-formed configuration fails to convert |
| CompressionParse.ToWriterProperties | src/compression/parse.rs:43-50 | fails exactly when the codec conversion fails, with its error; otherwise the default builder with only the compression set to the converted codec |
| CompressionParse.ToArrowWriterOptions | src/compression/parse.rs:52-59 | fails exactly when the properties fail, with the codec's error; otherwise the default options with those properties |
| Args.ToLower | examples/zips2meta2parquet/src/main.rs:67 | keeps the length and lowers each character; ASCII only (see Left out) |
| Args.SelectCompression | examples/zips2meta2parquet/src/main.rs:65-97 | no name gives `Ok(None)`; succeeds exactly when the lower-case name is one of the seven and the level suits its codec; a success selects the named codec with a well-formed value; an unknown name gives the `InvalidInput` error quoting the name as given |
| Args.GzipChoice | examples/zips2meta2parquet/src/main.rs:74-80 | the `gzip` arm succeeds exactly when there is no level or it is at most 9, and then gives a `Gzip` value |
| Args.ZstdChoice | examples/zips2meta2parquet/src/main.rs:81-87 | the `zstd` arm succeeds exactly when there is no level or it is at most 22, and then gives a well-formed `Zstd` value |
| Args.CaseInsensitive | examples/zips2meta2parquet/src/main.rs:67-93 | two names with the same lower-case form succeed together and select the same value; when unknown, each fails quoting itself |
| Args.FixedCodecsIgnoreLevel | examples/zips2meta2parquet/src/main.rs:69-73 | `none`/`snappy`/`lzo`/`lz4`/`lz4raw` ignore any level, even one no codec accepts, and always succeed |
| Args.GzipSelection | examples/zips2meta2parquet/src/main.rs:74-80 | `gzip` without a level gives level 6; with a level at most 9 gives `try_from(level)`; above 9 gives the gzip level error |
| Args.ZstdSelection | examples/zips2meta2parquet/src/main.rs:81-87 | `zstd` without a level gives level 3; with a level at most 22 gives `try_from(level)`; above 22 gives the zstd level error |
| Args.ExampleUpperCase | examples/zips2meta2parquet/src/main.rs:67-87 | `ZSTD` at 10 gives zstd level 10; `LZ4` at 255 gives `Lz4` |
| Args.ExampleZstdLevelZero | examples/zips2meta2parquet/src/main.rs:81-87 | `zstd` at level 0 selects the same as `zstd` without a level |
| Args.ExampleGzipLevelZero | examples/zips2meta2parquet/src/main.rs:74-80 | `gzip` at level 0 gives `Level0`, which differs from `gzip` without a level |
| Args.ExampleUnknownName | examples/zips2meta2parquet/src/main.rs:88-93 | `Brotli` is refused with the message quoting `Brotli` unchanged |
| Args.UnwrapOrDefault | examples/zips2meta2parquet/src/main.rs:123 | no compression becomes `Uncompressed`; a given one is kept |
| Args.WriteOptions | examples/zips2meta2parquet/src/main.rs:123-124 | no compression gives the library's default options, which are uncompressed; the codec's name is that of the configuration; a given configuration converts exactly when its codec does |
| Args.SelectedOptionsConvert | examples/zips2meta2parquet/src/main.rs:65-124 | a selection that succeeded always converts into writer options under a library that accepts the level ranges |
| Args.WriteAll | examples/zips2meta2parquet/src/main.rs:113-126 | a conversion error is returned before the file is created or the stream touched; otherwise the trace and result are those of the durable sink run with the converted options |
| Args.ScenarioOptions | examples/zips2meta2parquet/src/main.rs:65-124 | `zstd` at level 10 gives writer options whose codec is zstd level 10 |
| Args.ScenarioThreeBatches | src/core.rs:72-93 | three batches of 10, 5 and 20 rows, with no failure and no sync: `Ok`; the trace is create, initialise, each batch written right after its pull, finish, both flushes; the writes are the three batches, 35 rows in all |
| Core.Outcome | src/core.rs:27 | pulling an element never fails by itself |
| Core.World.Next | src/core.rs:27 | logs one pull; gives the next element and advances, or `None` once the stream is exhausted |
| Core.World.Perform | src/core.rs:29-31 | logs the call and answers it as `fault` decides from the history |
| Core.WriteBatchAll | src/core.rs:21-33 | logs exactly the events of `WriteAllRun` on the remaining items and returns its result; when it succeeds the stream is exhausted |
| Core.BatchToParquetInner | src/core.rs:35-53 | logs exactly the events of `InnerRun` and returns its result |
| Core.BatchToParquet | src/core.rs:55-70 | logs exactly the events of `EncodeRun` and returns its result |
| Core.BatchToParquetFile | src/core.rs:72-93 | logs exactly the events of `FileRun` and returns its result |
| Core.WriteAllFailFast | src/core.rs:21-33 | every call before the last succeeded and the last call's answer is the result; ending at a pull means the stream's first error is returned |
| Core.WriteAllWrites | src/core.rs:27-32 | the batches written are a prefix of the stream's batches; success means finish was last; finish comes only after a stream without errors, with every batch written |
| Core.WriteAllCalls | src/core.rs:21-33 | only pulls and writes come before the last call, which is a pull, a write or finish |
| Core.WriteAllPaced | src/core.rs:27-30 | each round pulls one element and writes it before the next pull; the run ends with a write, a failing pull, or the final pull and finish |
| Core.InnerFailFast | src/core.rs:35-53 | stops at its first failure: initialisation, the first write, a later write, the stream or finish |
| Core.InnerWrites | src/core.rs:45-53 | writes the first batch and then a prefix of the rest; success means finish was last; finish comes only after all of them were written |
| Core.EncodeFailFast | src/core.rs:55-70 | stops at its first failure; a pull is last only for an empty stream (`Ok`) or a first error (that error) |
| Core.EncodeWrites | src/core.rs:55-70 | writes a prefix of the stream's batches, first batch first; succeeds only on a stream without errors, and on a non-empty stream only after finish, which follows every batch |
| Core.EncodeLifecycle | src/core.rs:45-70 | an empty stream or a first error logs one pull and nothing else; otherwise the writer is initialised right after the first pull, with the first batch's schema and the given options, and only pulls, writes and finish follow; finish can only be last |
| Core.EncodeOk | src/core.rs:55-70 | succeeds exactly when the stream has no error and every call succeeded |
| Core.FlushFailFast | src/core.rs:86-92 | the flushes stop at the first failure; success means both flushes and, only with `fsync`, the sync; a sync only happens when asked, and last |
| Core.FileFailFast | src/core.rs:72-93 | stops at its first failure; succeeds only on a stream without errors |
| Core.FileOk | src/core.rs:72-93 | succeeds exactly when the stream has no error and every call succeeded |
| Core.FileCalls | src/core.rs:82-92 | create comes first; success means encode, buffer flush, file flush and, only with `fsync`, the sync, in that order; no flush or sync follows a failed encoding; a sync is always last |
| Core.FileEmpty | src/core.rs:65-92 | an empty stream makes no call to the Parquet writer, so the file gets no bytes; the file is still created and both layers flushed; success means exactly create, one pull, both flushes and the optional sync |
| Core.FileWithoutFaults | src/core.rs:21-93 | when no call fails, the result is the stream's first error or `Ok`, and the writes are exactly the batches before it |
| Core.WriteAllWithoutFaults | src/core.rs:21-33 | when no call fails on a stream without errors, each batch is written right after its pull, then the final pull and finish, with `Ok` |
| Core.InnerWithoutFaults | src/core.rs:35-53 | when no call fails on a stream without errors: initialise, write the first batch, pull and write each later batch, then finish, with `Ok` |
| Core.EncodeWithoutFaults | src/core.rs:55-70 | when no call fails on a non-empty stream without errors: pull, initialise from the first batch, write it, pull and write each later batch, then finish, with `Ok` |
| Core.FlushWithoutFaults | src/core.rs:86-92 | when no call fails: buffer flush, file flush and, only with `fsync`, the sync, with `Ok` |
| Core.FileTraceWithoutFaults | src/core.rs:72-93 | when no call fails on a non-empty stream without errors: `Ok`; the full trace, in order; the batches written are exactly the stream's batches |

## Left out

- The zips directory check in `raw2args`: it is file system I/O.
- Producing batches from zip archives: this is an external crate. The stream is an input
  sequence of batches and errors.
- Command line parsing, the runtime, `main`, and printing the error and exit code: these are
  program plumbing.
- Parquet encoding itself: row groups, statistics and the footer bytes. A batch is only its schema and
  row count, and the writer's calls are trace events.
- The Parquet library's level range checks: they live in the library, not in this
  repository. They are the `Library` parameter, so every property that needs them states
  its assumption about the accepted range.
- The Parquet library calls themselves are assumed, not modelled. `ParquetLib.GzipTryNew` and
  `ParquetLib.ZstdTryNew` stand for `GzipLevel::try_new` and `ZstdLevel::try_new`: they keep the
  level asked for, or give an `Other` error carrying the check's reason. The builder
  (`ParquetLib.SetCompression`, `ParquetLib.Build`) and `ParquetLib.WithProperties` only carry
  the compression through, since it is the only field modelled. What the repository's code
  does with these calls is stated by `Gzip.ToParquet`, `Zstd.ToParquet`,
  `CompressionParse.ToWriterProperties` and `CompressionParse.ToArrowWriterOptions`.
- The stream position after a call: `BatchToParquetInner`, `BatchToParquet`,
  `BatchToParquetFile` and `Args.WriteAll` leave `pos` unspecified on return, as does
  `WriteBatchAll` when it fails. The source takes the stream by value, so no caller can look at
  it afterwards.
- The other fields of `WriterProperties` and `ArrowWriterOptions`: only the compression is
  modelled, since that is the only field the source sets.
- Buffering inside the buffered writer, the effect of `flush` and `sync_data` on disk, and async
  suspension: each is one ordered event in the trace, and any such event may fail.
- The file, its buffered writer, the Parquet writer and the stream are fields of one `World`
  object. Ownership moves between them (the writer handed back by the encoder, the borrow of
  the file) are not modelled.
- Schema checks on later batches by the Parquet writer are not modelled separately. A
  writer's refusal of a batch is one failing `Write` event.
- Args.ToLower: lowers ASCII letters only, while Rust's `to_lowercase` is full Unicode. For
  this match the two agree. Only two non-ASCII characters have a lowercase form that contains
  ASCII. The Kelvin sign (U+212A) lowers to `k`, and no codec name contains `k`. The capital I
  with dot above (U+0130) lowers to `i` followed by the combining dot U+0307, and that
  non-ASCII mark keeps the result from matching any codec name. The message for an
  unknown name quotes the name as given, so it does not depend on lowering.
