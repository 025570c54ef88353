/**
 * The seven options a `Build` carries (src/lib.rs:37-66), as a value:
 * what `try_build` reads from the builder.
 */
module Options {
  import opened Errors
  import opened LibraryName

  datatype Config = Config(
    buildMode: BuildMode,
    cargoMetadata: bool,
    changeDir: Option<string>,
    ldflags: Option<string>,
    outDir: Option<string>,
    packages: seq<string>,
    trimpath: bool)

  /** `Build::new()`: a C archive, metadata on, nothing else set. */
  function Default(): (c: Config)
    ensures c.buildMode == CArchive && c.cargoMetadata && !c.trimpath
    ensures c.changeDir == None && c.ldflags == None && c.outDir == None
    ensures c.packages == []
  {
    Config(CArchive, true, None, None, None, [], false)
  }
}
