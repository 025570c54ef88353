/**
 * `try_build` as a function of its inputs (src/lib.rs:135-213): the
 * configuration, the output name, the process environment, the host OS, the
 * C and C++ compiler paths, and an executor standing for `cmd.output()`.
 */
module Engine {
  import opened Errors
  import opened Target
  import opened LibraryName
  import opened Options
  import opened Command
  import opened Report

  /** The command to run and the directory the library goes to. */
  datatype Plan = Plan(command: Command, outDir: string)

  /** The outcome of `try_build` and the lines it printed to stdout, in order. */
  datatype BuildRun = BuildRun(result: Result<()>, lines: seq<string>)

  const OutDirVar := "OUT_DIR"

  /** Where the library goes: the configured directory, else OUT_DIR. */
  function OutDir(cfg: Config, env: map<string, string>): (r: Result<string>)
    ensures cfg.outDir.Some? ==> r == Ok(cfg.outDir.value)
    ensures cfg.outDir.None? ==> r == GetEnvVar(env, OutDirVar)
  {
    match cfg.outDir
    case Some(dir) => Ok(dir)
    case None => GetEnvVar(env, OutDirVar)
  }

  /**
   * Everything `try_build` does before it runs `go`: the OS, then the
   * architecture, then the output directory, stopping at the first error.
   */
  function PlanBuild(cfg: Config, output: string, env: map<string, string>, hostWindows: bool, cc: string, cxx: string)
    : (r: Result<Plan>)
    ensures r.Ok? <==> GoOsFromEnv(env).Ok? && GoArchFromEnv(env).Ok? && OutDir(cfg, env).Ok?
    ensures GoOsFromEnv(env).Err? ==> r == Err(GoOsFromEnv(env).error)
    ensures GoOsFromEnv(env).Ok? && GoArchFromEnv(env).Err? ==> r == Err(GoArchFromEnv(env).error)
    ensures GoOsFromEnv(env).Ok? && GoArchFromEnv(env).Ok? && OutDir(cfg, env).Err? ==> r == Err(OutDir(cfg, env).error)
    ensures r.Ok? ==> r.value.outDir == OutDir(cfg, env).value && r.value.command.program == "go"
  {
    var goos :- GoOsFromEnv(env);
    var goarch :- GoArchFromEnv(env);
    var libName := FormatLibName(output, cfg.buildMode, hostWindows);
    var outDir :- OutDir(cfg, env);
    var outPath := JoinPath(outDir, libName, hostWindows);
    Ok(Plan(Command("go", ChildEnv(env, goos, goarch, cc, cxx), Args(cfg, outPath)), outDir))
  }

  /** `try_build`, given what `exec` makes of the planned command. */
  function TryBuild(cfg: Config, output: string, env: map<string, string>, hostWindows: bool, cc: string, cxx: string,
                    exec: Command -> SpawnResult): (run: BuildRun)
    ensures PlanBuild(cfg, output, env, hostWindows, cc, cxx).Err? ==>
      run == BuildRun(Err(PlanBuild(cfg, output, env, hostWindows, cc, cxx).error), [])
    ensures run.result.Ok? ==>
      && PlanBuild(cfg, output, env, hostWindows, cc, cxx).Ok?
      && exec(PlanBuild(cfg, output, env, hostWindows, cc, cxx).value.command).Spawned?
      && exec(PlanBuild(cfg, output, env, hostWindows, cc, cxx).value.command).status.Success()
    ensures run.lines != [] ==>
      && cfg.cargoMetadata
      && PlanBuild(cfg, output, env, hostWindows, cc, cxx).Ok?
      && exec(PlanBuild(cfg, output, env, hostWindows, cc, cxx).value.command).Spawned?
  {
    match PlanBuild(cfg, output, env, hostWindows, cc, cxx)
    case Err(e) => BuildRun(Err(e), [])
    case Ok(plan) => RunPlan(cfg, output, plan, exec(plan.command))
  }

  /**
   * The part of `try_build` after the command is built, given what starting
   * it gave: a spawn failure is its own error with nothing printed; once the
   * child ran, the metadata lines are printed (when enabled) whatever the
   * status, and the result is Ok exactly on a successful exit.
   */
  function RunPlan(cfg: Config, output: string, plan: Plan, spawned: SpawnResult): (run: BuildRun)
    ensures run.result.Ok? <==> spawned.Spawned? && spawned.status.Success()
    ensures spawned.SpawnFailed? ==> run == BuildRun(Err(SpawnError(spawned.reason)), [])
    ensures spawned.Spawned? && !spawned.status.Success() ==>
      run.result == Err(Error(ToolExecError, FailureText(spawned.status, spawned.stdout, spawned.stderr)))
    ensures spawned.Spawned? && cfg.cargoMetadata ==> run.lines == MetadataLines(cfg.buildMode, output, plan.outDir)
    ensures !cfg.cargoMetadata ==> run.lines == []
  {
    match spawned
    case SpawnFailed(reason) => BuildRun(Err(SpawnError(reason)), [])
    case Spawned(status, stdout, stderr) =>
      var lines := if cfg.cargoMetadata then MetadataLines(cfg.buildMode, output, plan.outDir) else [];
      if status.Success() then BuildRun(Ok(()), lines)
      else BuildRun(Err(ExitError(status, stdout, stderr)), lines)
  }

  /**
   * The target is read OS first: a missing or unknown CARGO_CFG_TARGET_OS is
   * the error reported whatever CARGO_CFG_TARGET_ARCH holds, and nothing is
   * printed; only a usable OS lets the architecture be looked at.
   */
  lemma TargetOsFirst(cfg: Config, output: string, env: map<string, string>, hostWindows: bool, cc: string,
                      cxx: string, exec: Command -> SpawnResult)
    ensures TargetOsVar !in env ==>
      TryBuild(cfg, output, env, hostWindows, cc, cxx, exec)
        == BuildRun(Err(Error(EnvVarNotFound, "could not find environment variable " + TargetOsVar)), [])
    ensures TargetOsVar in env && env[TargetOsVar] !in RustOses ==>
      TryBuild(cfg, output, env, hostWindows, cc, cxx, exec)
        == BuildRun(Err(Error(InvalidGOOS, "unexpected target os " + env[TargetOsVar])), [])
    ensures TargetOsVar in env && env[TargetOsVar] in RustOses && TargetArchVar !in env ==>
      TryBuild(cfg, output, env, hostWindows, cc, cxx, exec)
        == BuildRun(Err(Error(EnvVarNotFound, "could not find environment variable " + TargetArchVar)), [])
    ensures (TargetOsVar in env && env[TargetOsVar] in RustOses && TargetArchVar in env
             && env[TargetArchVar] !in RustArches) ==>
      TryBuild(cfg, output, env, hostWindows, cc, cxx, exec)
        == BuildRun(Err(Error(InvalidGOARCH, "unexpected target arch " + env[TargetArchVar])), [])
  {
  }

  /**
   * OUT_DIR is consulted only when no output directory was configured: with
   * one configured, removing OUT_DIR from the environment changes neither
   * whether planning succeeds nor the arguments nor the output directory.
   * Without one, a missing OUT_DIR is reported once the target is usable.
   */
  lemma OutDirOnlyWhenUnset(cfg: Config, output: string, env: map<string, string>, hostWindows: bool, cc: string,
                            cxx: string)
    ensures var withVar := PlanBuild(cfg, output, env, hostWindows, cc, cxx);
      var withoutVar := PlanBuild(cfg, output, env - {OutDirVar}, hostWindows, cc, cxx);
      cfg.outDir.Some? ==>
        && withVar.Ok? == withoutVar.Ok?
        && (withVar.Ok? ==>
              && withVar.value.command.args == withoutVar.value.command.args
              && withVar.value.outDir == withoutVar.value.outDir == cfg.outDir.value)
    ensures cfg.outDir.None? && OutDirVar !in env && GoOsFromEnv(env).Ok? && GoArchFromEnv(env).Ok? ==>
      PlanBuild(cfg, output, env, hostWindows, cc, cxx)
        == Err(Error(EnvVarNotFound, "could not find environment variable " + OutDirVar))
  {
    var env' := env - {OutDirVar};
    assert TargetOsVar in env <==> TargetOsVar in env';
    assert TargetOsVar in env ==> env[TargetOsVar] == env'[TargetOsVar];
    assert TargetArchVar in env <==> TargetArchVar in env';
    assert TargetArchVar in env ==> env[TargetArchVar] == env'[TargetArchVar];
  }

  /**
   * The command handed to the executor: `go`, with CGO_ENABLED, GOOS, GOARCH,
   * CC and CXX set over the inherited environment, and an argument vector
   * that reads back as the configuration, the output path being the library
   * file inside the output directory.
   */
  lemma PlannedCommand(cfg: Config, output: string, env: map<string, string>, hostWindows: bool, cc: string,
                       cxx: string)
    requires PlanBuild(cfg, output, env, hostWindows, cc, cxx).Ok?
    ensures var plan := PlanBuild(cfg, output, env, hostWindows, cc, cxx).value;
      var outPath := JoinPath(plan.outDir, FormatLibName(output, cfg.buildMode, hostWindows), hostWindows);
      && (cfg.outDir.Some? ==> plan.outDir == cfg.outDir.value)
      && (cfg.outDir.None? ==> plan.outDir == env[OutDirVar])
      && plan.command.program == "go"
      && plan.command.env["CGO_ENABLED"] == "1"
      && Ok(plan.command.env["GOOS"]) == GoOs(env[TargetOsVar])
      && Ok(plan.command.env["GOARCH"]) == GoArch(env[TargetArchVar])
      && plan.command.env["CC"] == cc && plan.command.env["CXX"] == cxx
      && plan.command.env.Keys == env.Keys + GoEnvKeys
      && (forall k | k in env && k !in GoEnvKeys :: plan.command.env[k] == env[k])
      && ParseArgs(plan.command.args)
        == Some(Invocation(cfg.changeDir, cfg.ldflags, cfg.trimpath, cfg.buildMode, outPath, cfg.packages))
  {
    var plan := PlanBuild(cfg, output, env, hostWindows, cc, cxx).value;
    var outPath := JoinPath(plan.outDir, FormatLibName(output, cfg.buildMode, hostWindows), hostWindows);
    ParseArgsRoundTrip(cfg, outPath);
  }

  /** A command that cannot be started is a `ToolExecError` with the spawn error's text, and nothing is printed. */
  lemma SpawnFailureReported(cfg: Config, output: string, env: map<string, string>, hostWindows: bool, cc: string,
                             cxx: string, exec: Command -> SpawnResult)
    requires PlanBuild(cfg, output, env, hostWindows, cc, cxx).Ok?
    requires exec(PlanBuild(cfg, output, env, hostWindows, cc, cxx).value.command).SpawnFailed?
    ensures var run := TryBuild(cfg, output, env, hostWindows, cc, cxx, exec);
      var reason := exec(PlanBuild(cfg, output, env, hostWindows, cc, cxx).value.command).reason;
      && run.lines == []
      && run.result == Err(Error(ToolExecError, "failed to execute go command: " + reason))
  {
  }

  /**
   * Once `go` has run, the result is `Ok` exactly when it exited
   * successfully; otherwise the error carries the failure message. With
   * metadata on, exactly two lines are printed whatever the exit status:
   * the link directive (static for an archive, dylib for a shared library)
   * and then the search path; with metadata off, none.
   */
  lemma ExitedOutcome(cfg: Config, output: string, env: map<string, string>, hostWindows: bool, cc: string,
                      cxx: string, exec: Command -> SpawnResult)
    requires PlanBuild(cfg, output, env, hostWindows, cc, cxx).Ok?
    requires exec(PlanBuild(cfg, output, env, hostWindows, cc, cxx).value.command).Spawned?
    ensures var plan := PlanBuild(cfg, output, env, hostWindows, cc, cxx).value;
      var spawned := exec(plan.command);
      var run := TryBuild(cfg, output, env, hostWindows, cc, cxx, exec);
      && (run.result.Ok? <==> spawned.status.Success())
      && (run.result.Err? ==>
            run.result.error == Error(ToolExecError, FailureText(spawned.status, spawned.stdout, spawned.stderr)))
      && (cfg.cargoMetadata ==> run.lines == [
            "cargo:rustc-link-lib=" + LinkKind(cfg.buildMode) + "=" + output,
            "cargo:rustc-link-search=native=" + OutDir(cfg, env).value])
      && (!cfg.cargoMetadata ==> run.lines == [])
  {
  }

  /** Nothing is ever printed when metadata is off, and at most the two lines when it is on. */
  lemma MetadataOnlyWhenEnabled(cfg: Config, output: string, env: map<string, string>, hostWindows: bool, cc: string,
                                cxx: string, exec: Command -> SpawnResult)
    ensures var run := TryBuild(cfg, output, env, hostWindows, cc, cxx, exec);
      && (!cfg.cargoMetadata ==> run.lines == [])
      && (run.lines == [] || run.lines == MetadataLines(cfg.buildMode, output, OutDir(cfg, env).value))
  {
  }

  /** What the process-exiting wrapper `build` does with a run's result. */
  datatype Termination = Finished | Exit(code: int, diagnostic: string)

  /**
   * `build`: on an error, print it to stderr after "error occurred: " and
   * exit with status 1; otherwise return normally.
   */
  function ExitOnError(result: Result<()>): (t: Termination)
    ensures t.Finished? <==> result.Ok?
    ensures t.Exit? ==> t.code == 1
  {
    match result
    case Ok(_) => Finished
    case Err(e) => Exit(1, "\n\nerror occurred: " + Display(e) + "\n\n")
  }

  /** The diagnostic `build` prints names the error: its kind and its message can be read back from it. */
  lemma ExitDiagnosticNamesError(e: Error)
    ensures var d := ExitOnError(Err(e)).diagnostic;
      |d| >= 20 && ParseDisplay(d[18..|d| - 2]) == Some(e)
  {
    var d := ExitOnError(Err(e)).diagnostic;
    assert d == "\n\nerror occurred: " + Display(e) + "\n\n";
    assert d[18..|d| - 2] == Display(e);
    DisplayRoundTrip(e);
  }
}
