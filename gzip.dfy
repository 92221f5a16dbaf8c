/** The gzip level of the compression configuration: `GzipLevel` with its `u8` discriminants. */
module Gzip {
  import opened Common
  import ParquetLib

  /** The ten levels; the names and their order are those of the source enum. */
  datatype GzipLevel =
    | Fast
    | Best
    | Level0
    | Level2
    | Level3
    | Level4
    | Level5
    | Level6
    | Level7
    | Level8

  /** The explicit `#[repr(u8)]` discriminant, that is `g as u8`. */
  function Discriminant(g: GzipLevel): (u: u8)
    ensures u <= 9
  {
    match g
    case Fast => 1
    case Best => 9
    case Level0 => 0
    case Level2 => 2
    case Level3 => 3
    case Level4 => 4
    case Level5 => 5
    case Level6 => 6
    case Level7 => 7
    case Level8 => 8
  }

  /** `GZIP_LEVEL_DEFAULT`. */
  const GzipLevelDefault: GzipLevel := Level6

  /** `GzipLevel::default()`. */
  function Default(): (g: GzipLevel)
    ensures Discriminant(g) == 6
  {
    GzipLevelDefault
  }

  /** The error for a level outside 0..=9. */
  const UnsupportedLevel: IoError := IoError(InvalidInput, "Unsupported GZIP level")

  /** `GzipLevel::try_from(u8)`. */
  function TryFromU8(u: u8): (r: Result<GzipLevel>)
    ensures r.Ok? <==> u <= 9
    ensures r.Ok? ==> Discriminant(r.value) == u
    ensures r.Err? ==> r.error == UnsupportedLevel
  {
    match u
    case 0 => Ok(Level0)
    case 1 => Ok(Fast)
    case 2 => Ok(Level2)
    case 3 => Ok(Level3)
    case 4 => Ok(Level4)
    case 5 => Ok(Level5)
    case 6 => Ok(Level6)
    case 7 => Ok(Level7)
    case 8 => Ok(Level8)
    case 9 => Ok(Best)
    case _ => Err(UnsupportedLevel)
  }

  /** Every level is the one `try_from` builds from its own discriminant. */
  lemma DiscriminantRoundTrip(g: GzipLevel)
    ensures TryFromU8(Discriminant(g)) == Ok(g)
  {
    match g
    case Fast =>
    case Best =>
    case Level0 =>
    case Level2 =>
    case Level3 =>
    case Level4 =>
    case Level5 =>
    case Level6 =>
    case Level7 =>
    case Level8 =>
  }

  /** Distinct levels have distinct discriminants. */
  lemma DiscriminantInjective(g1: GzipLevel, g2: GzipLevel)
    requires Discriminant(g1) == Discriminant(g2)
    ensures g1 == g2
  {
    DiscriminantRoundTrip(g1);
    DiscriminantRoundTrip(g2);
  }

  /** Level 0 is a level of its own with value 0, not an alias for the default level 6. */
  lemma LevelZeroIsDistinct()
    ensures TryFromU8(0) == Ok(Level0)
    ensures Discriminant(Level0) == 0
    ensures TryFromU8(0) != Ok(Default())
  {
  }

  /**
   * `TryFrom<GzipLevel> for parquet::basic::GzipLevel`: the discriminant is handed unchanged
   * to the library, whose range check is the only way the conversion can fail.
   */
  function ToParquet(g: GzipLevel, lib: ParquetLib.Library): (r: Result<ParquetLib.GzipLevel>)
    ensures r.Ok? <==> lib.gzipCheck(Discriminant(g) as int).Accept?
    ensures r.Ok? ==> r.value.level == Discriminant(g) as int
    ensures r.Err? ==> r.error.kind == Other
  {
    ParquetLib.GzipTryNew(lib, Discriminant(g) as int)
  }

  /** A library that accepts 0..=9 never rejects a `GzipLevel`. */
  lemma ToParquetTotal(g: GzipLevel, lib: ParquetLib.Library)
    requires forall u :: 0 <= u <= 9 ==> lib.gzipCheck(u).Accept?
    ensures ToParquet(g, lib) == Ok(ParquetLib.GzipLevel(Discriminant(g) as int))
  {
  }
}
