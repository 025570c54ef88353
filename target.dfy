/**
 * Translation of Cargo's target identifiers into the values Go expects in
 * GOARCH and GOOS (src/lib.rs:312-361). The process environment is a map.
 */
module Target {
  import opened Errors

  const TargetArchVar := "CARGO_CFG_TARGET_ARCH"
  const TargetOsVar := "CARGO_CFG_TARGET_OS"

  /** The Rust architectures the table knows. */
  const RustArches: set<string> := {"x86", "x86_64", "powerpc64", "aarch64", "mips", "mips64", "arm"}
  /** The Rust operating systems the table knows. */
  const RustOses: set<string> :=
    {"macos", "windows", "ios", "linux", "android", "freebsd", "dragonfly", "openbsd", "netbsd"}

  /** `get_env_var`: the variable's value, or `EnvVarNotFound` naming the key. */
  function GetEnvVar(env: map<string, string>, key: string): (r: Result<string>)
    ensures r.Ok? <==> key in env
    ensures r.Ok? ==> r.value == env[key]
    ensures r.Err? ==> r.error == Error(EnvVarNotFound, "could not find environment variable " + key)
  {
    if key in env then Ok(env[key])
    else Err(Error(EnvVarNotFound, "could not find environment variable " + key))
  }

  /** The match table of `goarch_from_env`, once the value is in hand. */
  function GoArch(targetArch: string): (r: Result<string>)
    ensures r.Ok? <==> targetArch in RustArches
    ensures r.Err? ==> r.error == Error(InvalidGOARCH, "unexpected target arch " + targetArch)
  {
    if targetArch == "x86" then Ok("386")
    else if targetArch == "x86_64" then Ok("amd64")
    else if targetArch == "powerpc64" then Ok("ppc64")
    else if targetArch == "aarch64" then Ok("arm64")
    else if targetArch == "mips" || targetArch == "mips64" || targetArch == "arm" then Ok(targetArch)
    else Err(Error(InvalidGOARCH, "unexpected target arch " + targetArch))
  }

  /** The match table of `goos_from_env`, once the value is in hand. */
  function GoOs(targetOs: string): (r: Result<string>)
    ensures r.Ok? <==> targetOs in RustOses
    ensures r.Err? ==> r.error == Error(InvalidGOOS, "unexpected target os " + targetOs)
  {
    if targetOs == "macos" then Ok("darwin")
    else if targetOs in {"windows", "ios", "linux", "android", "freebsd", "dragonfly", "openbsd", "netbsd"} then
      Ok(targetOs)
    else Err(Error(InvalidGOOS, "unexpected target os " + targetOs))
  }

  /** `goarch_from_env`: read CARGO_CFG_TARGET_ARCH, then translate it. */
  function GoArchFromEnv(env: map<string, string>): (r: Result<string>)
    ensures TargetArchVar !in env ==> r == GetEnvVar(env, TargetArchVar)
    ensures TargetArchVar in env ==> r == GoArch(env[TargetArchVar])
  {
    var arch :- GetEnvVar(env, TargetArchVar);
    GoArch(arch)
  }

  /** `goos_from_env`: read CARGO_CFG_TARGET_OS, then translate it. */
  function GoOsFromEnv(env: map<string, string>): (r: Result<string>)
    ensures TargetOsVar !in env ==> r == GetEnvVar(env, TargetOsVar)
    ensures TargetOsVar in env ==> r == GoOs(env[TargetOsVar])
  {
    var os :- GetEnvVar(env, TargetOsVar);
    GoOs(os)
  }

  /** The architecture table read right to left: Go name to Rust name. */
  function RustArchOf(goarch: string): Option<string> {
    if goarch == "386" then Some("x86")
    else if goarch == "amd64" then Some("x86_64")
    else if goarch == "ppc64" then Some("powerpc64")
    else if goarch == "arm64" then Some("aarch64")
    else if goarch in {"mips", "mips64", "arm"} then Some(goarch)
    else None
  }

  /** The OS table read right to left: Go name to Rust name. */
  function RustOsOf(goos: string): Option<string> {
    if goos == "darwin" then Some("macos")
    else if goos in {"windows", "ios", "linux", "android", "freebsd", "dragonfly", "openbsd", "netbsd"} then
      Some(goos)
    else None
  }

  /**
   * `GoArch` is exactly the architecture table: every translation it makes is
   * a row of the table, and every row is a translation it makes.
   */
  lemma GoArchMatchesTable(targetArch: string, goarch: string)
    ensures GoArch(targetArch) == Ok(goarch) <==> RustArchOf(goarch) == Some(targetArch)
  {
  }

  /** `GoOs` is exactly the OS table, in both directions. */
  lemma GoOsMatchesTable(targetOs: string, goos: string)
    ensures GoOs(targetOs) == Ok(goos) <==> RustOsOf(goos) == Some(targetOs)
  {
  }
}
