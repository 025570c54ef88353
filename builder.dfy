/**
 * The `Build` builder (src/lib.rs:36-213): seven fields that the fluent
 * setters update in place, and `try_build`/`build`, which read them.
 */
module Builder {
  import opened Errors
  import opened Target
  import opened LibraryName
  import opened Options
  import opened Command
  import opened Report
  import Engine

  class Build {
    var buildMode: BuildMode
    var cargoMetadata: bool
    var changeDir: Option<string>
    var ldflags: Option<string>
    var outDir: Option<string>
    var packages: seq<string>
    var trimpath: bool

    /** The builder's current options, as a value. */
    function Snapshot(): Config
      reads this
    {
      Config(buildMode, cargoMetadata, changeDir, ldflags, outDir, packages, trimpath)
    }

    /** `Build::new()` (and `Default`): the default options. */
    constructor ()
      ensures Snapshot() == Default()
    {
      buildMode := CArchive;
      cargoMetadata := true;
      changeDir := None;
      ldflags := None;
      outDir := None;
      packages := [];
      trimpath := false;
    }

    /** `build_mode`: sets the mode, leaves every other option as it was, returns the builder. */
    method SetBuildMode(mode: BuildMode) returns (self: Build)
      modifies this
      ensures self == this
      ensures Snapshot() == old(Snapshot()).(buildMode := mode)
    {
      buildMode := mode;
      self := this;
    }

    /** `cargo_metadata`: turns the `cargo:` lines on or off. */
    method SetCargoMetadata(enabled: bool) returns (self: Build)
      modifies this
      ensures self == this
      ensures Snapshot() == old(Snapshot()).(cargoMetadata := enabled)
    {
      cargoMetadata := enabled;
      self := this;
    }

    /** `change_dir`: the directory `go` changes to before building. */
    method SetChangeDir(dir: string) returns (self: Build)
      modifies this
      ensures self == this
      ensures Snapshot() == old(Snapshot()).(changeDir := Some(dir))
    {
      changeDir := Some(dir);
      self := this;
    }

    /** `ldflags`: the linker flags passed through to `go build`. */
    method SetLdflags(flags: string) returns (self: Build)
      modifies this
      ensures self == this
      ensures Snapshot() == old(Snapshot()).(ldflags := Some(flags))
    {
      ldflags := Some(flags);
      self := this;
    }

    /** `out_dir`: the output directory, in place of OUT_DIR. */
    method SetOutDir(dir: string) returns (self: Build)
      modifies this
      ensures self == this
      ensures Snapshot() == old(Snapshot()).(outDir := Some(dir))
    {
      outDir := Some(dir);
      self := this;
    }

    /** `package`: one more package, after those already added. */
    method AddPackage(package: string) returns (self: Build)
      modifies this
      ensures self == this
      ensures Snapshot() == old(Snapshot()).(packages := old(packages) + [package])
    {
      packages := packages + [package];
      self := this;
    }

    /** `trimpath`: turns `-trimpath` on or off. */
    method SetTrimpath(enabled: bool) returns (self: Build)
      modifies this
      ensures self == this
      ensures Snapshot() == old(Snapshot()).(trimpath := enabled)
    {
      trimpath := enabled;
      self := this;
    }

    /**
     * The first half of `try_build`, step by step: translate the target, find
     * the output directory and assemble the command, stopping at the first
     * error.
     */
    method PlanCommand(output: string, env: map<string, string>, hostWindows: bool, cc: string, cxx: string)
      returns (planned: Result<Engine.Plan>)
      ensures planned == Engine.PlanBuild(Snapshot(), output, env, hostWindows, cc, cxx)
    {
      var goos := GoOsFromEnv(env);
      if goos.Err? {
        return Err(goos.error);
      }
      var goarch := GoArchFromEnv(env);
      if goarch.Err? {
        return Err(goarch.error);
      }
      var libName := FormatLibName(output, buildMode, hostWindows);
      var dir: string;
      if outDir.Some? {
        dir := outDir.value;
      } else {
        var fromEnv := GetEnvVar(env, Engine.OutDirVar);
        if fromEnv.Err? {
          return Err(fromEnv.error);
        }
        dir := fromEnv.value;
      }
      var outPath := JoinPath(dir, libName, hostWindows);
      var childEnv := ChildEnv(env, goos.value, goarch.value, cc, cxx);
      var args := BuildArgs(Snapshot(), outPath);
      return Ok(Engine.Plan(Command("go", childEnv, args), dir));
    }

    /**
     * `try_build`, step by step: plan the command, run it through `exec`,
     * print the metadata lines once it ran, and turn a bad exit into an
     * error.
     */
    method TryBuild(output: string, env: map<string, string>, hostWindows: bool, cc: string, cxx: string,
                    exec: Command -> SpawnResult)
      returns (run: Engine.BuildRun)
      ensures run == Engine.TryBuild(Snapshot(), output, env, hostWindows, cc, cxx, exec)
    {
      var planned := PlanCommand(output, env, hostWindows, cc, cxx);
      if planned.Err? {
        return Engine.BuildRun(Err(planned.error), []);
      }
      var plan := planned.value;
      var spawned := exec(plan.command);
      if spawned.SpawnFailed? {
        return Engine.BuildRun(Err(SpawnError(spawned.reason)), []);
      }
      var lines := [];
      if cargoMetadata {
        lines := MetadataLines(buildMode, output, plan.outDir);
      }
      if spawned.status.Success() {
        return Engine.BuildRun(Ok(()), lines);
      }
      var message := FailureMessage(spawned.status, spawned.stdout, spawned.stderr);
      return Engine.BuildRun(Err(Error(ToolExecError, message)), lines);
    }

    /**
     * `build`: `try_build`, then, on an error, the diagnostic and exit status
     * the process ends with. The lines printed before that are returned too.
     */
    method BuildOrExit(output: string, env: map<string, string>, hostWindows: bool, cc: string, cxx: string,
                       exec: Command -> SpawnResult)
      returns (lines: seq<string>, termination: Engine.Termination)
      ensures var run := Engine.TryBuild(Snapshot(), output, env, hostWindows, cc, cxx, exec);
        && lines == run.lines
        && (termination.Finished? <==> run.result.Ok?)
        && (termination.Exit? ==>
              && termination.code == 1
              && termination.diagnostic == "\n\nerror occurred: " + Display(run.result.error) + "\n\n")
    {
      var run := TryBuild(output, env, hostWindows, cc, cxx, exec);
      lines := run.lines;
      termination := Engine.ExitOnError(run.result);
    }
  }

  /**
   * The chain the example build script uses: trimpath, ldflags, a change of
   * directory and one package on a fresh builder give exactly those options
   * over the defaults.
   */
  method ExampleChain() returns (b: Build)
    ensures fresh(b)
    ensures b.Snapshot() == Default().(trimpath := true, ldflags := Some("-s -w"),
      changeDir := Some("./tests/example"), packages := ["main.go"])
  {
    b := new Build();
    var self := b.SetTrimpath(true);
    self := self.SetLdflags("-s -w");
    self := self.SetChangeDir("./tests/example");
    self := self.AddPackage("main.go");
  }
}
