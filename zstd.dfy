/** The zstd level of the compression configuration: `ZstdLevel { level: u8 }`. */
module Zstd {
  import opened Common
  import ParquetLib

  /** The struct's field is private: values only come from the constant below and from `TryFromU8`. */
  datatype ZstdLevel = ZstdLevel(level: u8)

  /** The levels a `ZstdLevel` can carry once built. */
  predicate Valid(z: ZstdLevel)
  {
    1 <= z.level <= 22
  }

  /** `ZSTD_LEVEL_DEFAULT`. */
  const ZstdLevelDefault: ZstdLevel := ZstdLevel(3)

  /** `ZstdLevel::default()`. */
  function Default(): (z: ZstdLevel)
    ensures z.level == 3 && Valid(z)
  {
    ZstdLevelDefault
  }

  /** The error for a level above 22. */
  const InvalidLevel: IoError := IoError(Other, "invalid zstd level")

  /** `ZstdLevel::try_from(u8)`: 0 is remapped to 3, 1..=22 kept, anything larger refused. */
  function TryFromU8(u: u8): (r: Result<ZstdLevel>)
    ensures r.Ok? <==> u <= 22
    ensures u == 0 ==> r == Ok(ZstdLevel(3))
    ensures 1 <= u <= 22 ==> r == Ok(ZstdLevel(u))
    ensures r.Err? ==> r.error == InvalidLevel
    ensures r.Ok? ==> Valid(r.value)
  {
    var level: Result<u8> :=
      if u == 0 then Ok(3)
      else if 1 <= u <= 22 then Ok(u)
      else Err(InvalidLevel);
    match level
    case Err(e) => Err(e)
    case Ok(l) => Ok(ZstdLevel(l))
  }

  /** Level 0, level 3 and the default all carry level 3. */
  lemma ZeroIsDefault()
    ensures TryFromU8(0) == TryFromU8(3) == Ok(Default())
  {
  }

  /** A built level is rebuilt unchanged from its own number. */
  lemma LevelRoundTrip(z: ZstdLevel)
    requires Valid(z)
    ensures TryFromU8(z.level) == Ok(z)
  {
  }

  /** `TryFrom<ZstdLevel> for parquet::basic::ZstdLevel`: the stored level is forwarded unchanged. */
  function ToParquet(z: ZstdLevel, lib: ParquetLib.Library): (r: Result<ParquetLib.ZstdLevel>)
    ensures r.Ok? <==> lib.zstdCheck(z.level as int).Accept?
    ensures r.Ok? ==> r.value.level == z.level as int
    ensures r.Err? ==> r.error.kind == Other
  {
    ParquetLib.ZstdTryNew(lib, z.level as int)
  }

  /** A library that accepts 1..=22 never rejects a built `ZstdLevel`. */
  lemma ToParquetTotal(z: ZstdLevel, lib: ParquetLib.Library)
    requires Valid(z)
    requires forall l :: 1 <= l <= 22 ==> lib.zstdCheck(l).Accept?
    ensures ToParquet(z, lib) == Ok(ParquetLib.ZstdLevel(z.level as int))
  {
  }
}
