/**
 * The `go build` command `try_build` assembles (src/lib.rs:139-168): the
 * output path, the child's environment and the argument vector.
 */
module Command {
  import opened Errors
  import opened LibraryName
  import opened Options

  /** What is handed to the process executor. */
  datatype Command = Command(program: string, env: map<string, string>, args: seq<string>)

  const GoEnvKeys: set<string> := {"CGO_ENABLED", "GOOS", "GOARCH", "CC", "CXX"}

  predicate IsSeparator(c: char, hostWindows: bool) {
    c == '/' || (hostWindows && c == '\\')
  }

  /**
   * `PathBuf::join` with a relative file name: a separator goes between the
   * two unless the directory is empty or already ends with one.
   */
  function JoinPath(dir: string, name: string, hostWindows: bool): (path: string)
    ensures |dir| <= |path| && path[..|dir|] == dir
    ensures |name| <= |path| && path[|path| - |name|..] == name
    ensures |path| == |dir| + |name| || (|path| == |dir| + |name| + 1 && path[|dir|] == (if hostWindows then '\\' else '/'))
    ensures |path| == |dir| + |name| <==> (dir == [] || IsSeparator(dir[|dir| - 1], hostWindows))
  {
    if dir == [] || IsSeparator(dir[|dir| - 1], hostWindows) then dir + name
    else dir + [if hostWindows then '\\' else '/'] + name
  }

  /** The part of a path after its last separator. */
  function FileName(path: string, hostWindows: bool): string {
    if path == [] then []
    else if IsSeparator(path[|path| - 1], hostWindows) then []
    else FileName(path[..|path| - 1], hostWindows) + [path[|path| - 1]]
  }

  /** The joined path names the library file itself as its last component. */
  lemma {:induction false} FileNameOfJoin(dir: string, name: string, hostWindows: bool)
    requires forall k | 0 <= k < |name| :: !IsSeparator(name[k], hostWindows)
    ensures FileName(JoinPath(dir, name, hostWindows), hostWindows) == name
  {
    var path := JoinPath(dir, name, hostWindows);
    FileNameOfSuffix(path[..|path| - |name|], name, hostWindows);
    assert path == path[..|path| - |name|] + name;
  }

  lemma {:induction false} FileNameOfSuffix(front: string, name: string, hostWindows: bool)
    requires front == [] || IsSeparator(front[|front| - 1], hostWindows)
    requires forall k | 0 <= k < |name| :: !IsSeparator(name[k], hostWindows)
    ensures FileName(front + name, hostWindows) == name
  {
    if name == [] {
      assert front + name == front;
    } else {
      var init := name[..|name| - 1];
      assert (front + name)[..|front + name| - 1] == front + init;
      FileNameOfSuffix(front, init, hostWindows);
    }
  }

  /**
   * The child's environment: the inherited one with CGO_ENABLED, GOOS,
   * GOARCH, CC and CXX set (src/lib.rs:147-151).
   */
  function ChildEnv(inherited: map<string, string>, goos: string, goarch: string, cc: string, cxx: string)
    : (env: map<string, string>)
    ensures env.Keys == inherited.Keys + GoEnvKeys
    ensures env["CGO_ENABLED"] == "1" && env["GOOS"] == goos && env["GOARCH"] == goarch
    ensures env["CC"] == cc && env["CXX"] == cxx
    ensures forall key | key in inherited && key !in GoEnvKeys :: env[key] == inherited[key]
  {
    inherited["CGO_ENABLED" := "1"]["GOOS" := goos]["GOARCH" := goarch]["CC" := cc]["CXX" := cxx]
  }

  /** The tokens an optional flag with a value contributes: none when it is unset. */
  function FlagTokens(flag: string, value: Option<string>): seq<string> {
    if value.Some? then [flag, value.value] else []
  }

  /** The tokens `-trimpath` contributes. */
  function TrimpathTokens(trimpath: bool): seq<string> {
    if trimpath then ["-trimpath"] else []
  }

  /** The build mode and output flags, then the packages in insertion order. */
  function ModeAndPackages(cfg: Config, outPath: string): seq<string> {
    ["-buildmode", ModeName(cfg.buildMode), "-o", outPath] + cfg.packages
  }

  /** The argument vector, token groups in the order `try_build` adds them. */
  function Args(cfg: Config, outPath: string): seq<string> {
    ["build"] + (FlagTokens("-C", cfg.changeDir) + (FlagTokens("-ldflags", cfg.ldflags)
      + (TrimpathTokens(cfg.trimpath) + ModeAndPackages(cfg, outPath))))
  }

  /**
   * The argument vector built step by step, as `try_build` does with
   * `cmd.arg`/`cmd.args` and its loop over the packages.
   */
  method BuildArgs(cfg: Config, outPath: string) returns (args: seq<string>)
    ensures args == Args(cfg, outPath)
  {
    args := ["build"];
    if cfg.changeDir.Some? {
      args := args + ["-C", cfg.changeDir.value];
    }
    ghost var dir := args;
    if cfg.ldflags.Some? {
      args := args + ["-ldflags", cfg.ldflags.value];
    }
    ghost var ld := args;
    if cfg.trimpath {
      args := args + ["-trimpath"];
    }
    ghost var tp := args;
    args := args + ["-buildmode", ModeName(cfg.buildMode)];
    args := args + ["-o", outPath];
    ghost var flags := args;
    var i := 0;
    while i < |cfg.packages|
      invariant 0 <= i <= |cfg.packages|
      invariant args == flags + cfg.packages[..i]
    {
      args := args + [cfg.packages[i]];
      i := i + 1;
    }
    assert cfg.packages[..i] == cfg.packages;
    ArgsInParts(cfg, outPath, dir, ld, tp, args);
  }

  /** Concatenating the token groups left to right gives `Args`. */
  lemma ArgsInParts(cfg: Config, outPath: string, dir: seq<string>, ld: seq<string>, tp: seq<string>, args: seq<string>)
    requires dir == ["build"] + FlagTokens("-C", cfg.changeDir)
    requires ld == dir + FlagTokens("-ldflags", cfg.ldflags)
    requires tp == ld + TrimpathTokens(cfg.trimpath)
    requires args == tp + ["-buildmode", ModeName(cfg.buildMode)] + ["-o", outPath] + cfg.packages
    ensures args == Args(cfg, outPath)
  {
  }

  /** What a `go build` argument vector of this shape asks for. */
  datatype Invocation = Invocation(
    changeDir: Option<string>,
    ldflags: Option<string>,
    trimpath: bool,
    buildMode: BuildMode,
    outPath: string,
    packages: seq<string>)

  /** An optional flag: what follows it, and its value if the tokens start with it. */
  function TakeFlag(tokens: seq<string>, flag: string): (seq<string>, Option<string>) {
    if |tokens| >= 2 && tokens[0] == flag then (tokens[2..], Some(tokens[1])) else (tokens, None)
  }

  /** Reads an argument vector back, positionally, in the order `try_build` writes it. */
  function ParseArgs(args: seq<string>): Option<Invocation> {
    if args == [] || args[0] != "build" then None else ParseFlags(args[1..])
  }

  function ParseFlags(tokens: seq<string>): Option<Invocation> {
    var (afterDir, changeDir) := TakeFlag(tokens, "-C");
    var (afterLdflags, ldflags) := TakeFlag(afterDir, "-ldflags");
    ParseRest(afterLdflags, changeDir, ldflags)
  }

  function ParseRest(tokens: seq<string>, changeDir: Option<string>, ldflags: Option<string>): Option<Invocation> {
    var trimpath := tokens != [] && tokens[0] == "-trimpath";
    var rest := if trimpath then tokens[1..] else tokens;
    if |rest| >= 4 && rest[0] == "-buildmode" && ParseModeName(rest[1]).Some? && rest[2] == "-o" then
      Some(Invocation(changeDir, ldflags, trimpath, ParseModeName(rest[1]).value, rest[3], rest[4..]))
    else None
  }

  lemma TakeFlagTokens(flag: string, value: Option<string>, rest: seq<string>)
    requires rest != [] && rest[0] != flag
    ensures TakeFlag(FlagTokens(flag, value) + rest, flag) == (rest, value)
  {
    if value.Some? {
      assert (FlagTokens(flag, value) + rest)[2..] == rest;
    } else {
      assert FlagTokens(flag, value) + rest == rest;
    }
  }

  lemma ParseRestTokens(cfg: Config, outPath: string)
    ensures ParseRest(TrimpathTokens(cfg.trimpath) + ModeAndPackages(cfg, outPath), cfg.changeDir, cfg.ldflags)
      == Some(Invocation(cfg.changeDir, cfg.ldflags, cfg.trimpath, cfg.buildMode, outPath, cfg.packages))
  {
    var tail := ModeAndPackages(cfg, outPath);
    var tokens := TrimpathTokens(cfg.trimpath) + tail;
    if cfg.trimpath {
      assert tokens[1..] == tail;
    } else {
      assert tokens == tail;
    }
    assert tail[4..] == cfg.packages;
  }

  /** The argument vector carries every option of the configuration, and the output path. */
  lemma {:induction false} ParseArgsRoundTrip(cfg: Config, outPath: string)
    ensures ParseArgs(Args(cfg, outPath)) ==
      Some(Invocation(cfg.changeDir, cfg.ldflags, cfg.trimpath, cfg.buildMode, outPath, cfg.packages))
  {
    var afterLdflags := TrimpathTokens(cfg.trimpath) + ModeAndPackages(cfg, outPath);
    var afterDir := FlagTokens("-ldflags", cfg.ldflags) + afterLdflags;
    assert Args(cfg, outPath)[1..] == FlagTokens("-C", cfg.changeDir) + afterDir;
    TakeFlagTokens("-ldflags", cfg.ldflags, afterLdflags);
    TakeFlagTokens("-C", cfg.changeDir, afterDir);
    ParseRestTokens(cfg, outPath);
  }

  /**
   * The subcommand comes first; a change of directory, when set, is the very
   * next flag; the output flag and path come right before the packages, which
   * close the vector in insertion order.
   */
  lemma ArgsLayout(cfg: Config, outPath: string)
    ensures var args := Args(cfg, outPath);
      && |args| >= 5 + |cfg.packages|
      && args[0] == "build"
      && (cfg.changeDir.Some? ==> args[1] == "-C" && args[2] == cfg.changeDir.value)
      && args[|args| - |cfg.packages| - 2] == "-o"
      && args[|args| - |cfg.packages| - 1] == outPath
      && args[|args| - |cfg.packages|..] == cfg.packages
  {
    var args := Args(cfg, outPath);
    var n := |args| - |cfg.packages|;
    assert args == (args[..n - 4] + ["-buildmode", ModeName(cfg.buildMode), "-o", outPath]) + cfg.packages;
  }
}
