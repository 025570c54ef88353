/**
 * `BuildMode`, its `Display` (src/lib.rs:239-265) and `format_lib_name`
 * (src/lib.rs:215-236). `hostWindows` stands for `cfg!(windows)`, the
 * operating system the build script itself runs on.
 */
module LibraryName {
  import opened Errors

  /** The artifact Go is asked for: a static C archive or a C shared library. */
  datatype BuildMode = CArchive | CShared

  /** `BuildMode`'s `Display`: the value of Go's `-buildmode` flag. */
  function ModeName(mode: BuildMode): (name: string)
    ensures ParseModeName(name) == Some(mode)
  {
    match mode
    case CArchive => "c-archive"
    case CShared => "c-shared"
  }

  /** Reads a `-buildmode` value back. */
  function ParseModeName(s: string): Option<BuildMode> {
    if s == "c-archive" then Some(CArchive)
    else if s == "c-shared" then Some(CShared)
    else None
  }

  /** Every value that reads back as a mode is that mode's display: `ModeName`'s round trip the other way. */
  lemma ParseModeNameRoundTrip(s: string, mode: BuildMode)
    requires ParseModeName(s) == Some(mode)
    ensures ModeName(mode) == s
  {
  }

  /** The link kind written into the `cargo:rustc-link-lib` line. */
  function LinkKind(mode: BuildMode): (kind: string)
    ensures kind == "static" <==> mode == CArchive
    ensures kind == "dylib" <==> mode == CShared
  {
    match mode
    case CArchive => "static"
    case CShared => "dylib"
  }

  /** The file extension of the artifact on the host: four characters on Windows, fewer elsewhere. */
  function LibExtension(mode: BuildMode, hostWindows: bool): (ext: string)
    ensures 2 <= |ext| && ext[0] == '.'
    ensures hostWindows <==> |ext| == 4
  {
    match mode
    case CArchive => if hostWindows then ".lib" else ".a"
    case CShared => if hostWindows then ".dll" else ".so"
  }

  /** Which extension each mode gets on a Windows host and elsewhere, as a table. */
  const ExtensionTable: set<(BuildMode, bool, string)> :=
    {(CArchive, true, ".lib"), (CArchive, false, ".a"), (CShared, true, ".dll"), (CShared, false, ".so")}

  /** `LibExtension` agrees with the table: each mode and host has exactly the extension listed for it. */
  lemma LibExtensionMatchesTable(mode: BuildMode, hostWindows: bool, ext: string)
    ensures LibExtension(mode, hostWindows) == ext <==> (mode, hostWindows, ext) in ExtensionTable
  {
  }

  /** The four file names an output called "example" gets, by mode and host. */
  lemma ExampleLibNames()
    ensures FormatLibName("example", CArchive, false) == "libexample.a"
    ensures FormatLibName("example", CArchive, true) == "libexample.lib"
    ensures FormatLibName("example", CShared, false) == "libexample.so"
    ensures FormatLibName("example", CShared, true) == "libexample.dll"
  {
  }

  /** `format_lib_name`: "lib", the output name, then the host's extension for the mode. */
  function FormatLibName(output: string, mode: BuildMode, hostWindows: bool): (name: string)
    ensures |name| == 3 + |output| + |LibExtension(mode, hostWindows)|
  {
    "lib" + output + LibExtension(mode, hostWindows)
  }

  predicate EndsWith(s: string, suffix: string) {
    |suffix| <= |s| && s[|s| - |suffix|..] == suffix
  }

  /**
   * Splits a library file name back into the output name and the build mode,
   * if it has the shape `FormatLibName` produces on this host.
   */
  function SplitLibName(name: string, hostWindows: bool): Option<(string, BuildMode)> {
    var archive := LibExtension(CArchive, hostWindows);
    var shared := LibExtension(CShared, hostWindows);
    if |name| < 3 || name[..3] != "lib" then None
    else if 3 + |archive| <= |name| && EndsWith(name, archive) then
      Some((name[3..|name| - |archive|], CArchive))
    else if 3 + |shared| <= |name| && EndsWith(name, shared) then
      Some((name[3..|name| - |shared|], CShared))
    else None
  }

  /** A formatted name determines the output name and the mode it was made from. */
  lemma {:induction false} SplitFormatLibName(output: string, mode: BuildMode, hostWindows: bool)
    ensures SplitLibName(FormatLibName(output, mode, hostWindows), hostWindows) == Some((output, mode))
  {
    var ext := LibExtension(mode, hostWindows);
    var name := FormatLibName(output, mode, hostWindows);
    assert name[..3] == "lib";
    assert name[|name| - |ext|..] == ext;
    assert name[3..|name| - |ext|] == output;
    if mode == CShared {
      // The last character tells the two extensions apart.
      var archive := LibExtension(CArchive, hostWindows);
      assert name[|name| - 1] == ext[|ext| - 1] != archive[|archive| - 1];
      assert name[|name| - |archive|..][|archive| - 1] == name[|name| - 1];
    }
  }

  /** Every name `SplitLibName` accepts is the formatted name of what it returns. */
  lemma {:induction false} FormatSplitLibName(name: string, hostWindows: bool)
    requires SplitLibName(name, hostWindows).Some?
    ensures var (output, mode) := SplitLibName(name, hostWindows).value;
      FormatLibName(output, mode, hostWindows) == name
  {
    var (output, mode) := SplitLibName(name, hostWindows).value;
    var ext := LibExtension(mode, hostWindows);
    assert name == name[..3] + name[3..|name| - |ext|] + name[|name| - |ext|..];
  }
}
