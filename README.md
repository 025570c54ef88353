# cgo build helper — a Dafny model

This project models the core of the `cgo` crate (`src/lib.rs`), a library for
Cargo build scripts that compiles a Go package into a C archive or a C shared
library with `go build` and then tells Cargo how to link it.

The model covers:

- the `Build` builder. It is a class with the seven options as fields and one
  setter per option, each proved to change only its own field.
- the translation of Cargo's `CARGO_CFG_TARGET_OS` / `CARGO_CFG_TARGET_ARCH`
  into Go's `GOOS` / `GOARCH`.
- `BuildMode` and its display, and `format_lib_name`.
- the planning of the `go build` command in `try_build`: output directory,
  output path, child environment, and the argument vector. The argument vector
  is built by a method with a loop over the packages.
- the outcome of running `go`: the spawn-failure error, the nonzero-exit
  message built from the trimmed output streams, and the two `cargo:` lines.
  Rust's `str::trim` is modelled with the Unicode White_Space set.
- `Error`'s display, and the `build` wrapper that exits on error.

`try_build` reads the environment, runs a process and prints lines. In the
model these effects become inputs and outputs:

- the process environment is a `map<string, string>`. `try_build` reads it,
  and the child process inherits it.
- `cfg!(windows)` is the `hostWindows` flag.
- the results of `get_cc`/`get_cxx` are two strings.
- running the command (`cmd.output()`) is an executor function
  `exec: Command -> SpawnResult`. It gives either the spawn error's text, or
  the exit status and the two captured streams.
- the lines printed to stdout are returned as a sequence.

`Engine.TryBuild` is the functional statement of `try_build`. The class
method `Builder.Build.TryBuild` does the same work step by step and is
proved equal to it.

Modules, one file each: `Errors` (errors.dfy), `Text` (text.dfy), `Target`
(target.dfy), `LibraryName` (library_name.dfy), `Options` (options.dfy),
`Command` (command.dfy), `Report` (report.dfy), `Engine` (engine.dfy),
`Builder` (builder.dfy).

Some of this behaviour is easy to misremember. The model follows the code:

- `try_build` reads the target OS before the architecture
  (src/lib.rs:136-137), so a bad OS is reported even when the architecture
  is bad too.
- The `cargo:rustc-link-lib` line comes before `cargo:rustc-link-search`
  (src/lib.rs:185-186).
- The link kind for `CShared` is `dylib`, not `dynamic` (src/lib.rs:183).
- Both lines are printed as soon as `go` has run, so also when it exits with
  a failure status. Only a spawn failure or an earlier error prints nothing
  (src/lib.rs:170-191).
- `CC` and `CXX` are always set in the child's environment
  (src/lib.rs:150-151).

## Model

| member | source | states |
|---|---|---|
| Errors.KindNameInjective | src/lib.rs:267-274 | the derived `Debug` names of the four kinds are pairwise distinct: two kinds have the same name exactly when they are the same kind |
| Errors.Display | src/lib.rs:294-298 | the display is the kind's name, ": " and the message; it ends with the message |
| Errors.DisplayRoundTrip | src/lib.rs:294-298 | the displayed text determines the error: parsing it back gives the same kind and message |
| Text.TrimStart | src/lib.rs:200 | the result is a suffix of the input, everything dropped is whitespace, and it does not start with whitespace |
| Text.TrimEnd | src/lib.rs:200 | the result is a prefix of the input, everything dropped is whitespace, and it does not end with whitespace |
| Text.Trim | src/lib.rs:198-204 | the result is a slice of the input with only whitespace around it, with no whitespace at either end; it is empty exactly when the input is all whitespace |
| Text.TrimOfPadded | src/lib.rs:200 | trimming text padded with whitespace on both sides gives back exactly that text |
| Text.TrimIdempotent | src/lib.rs:200 | trimming twice is the same as trimming once |
| Target.GetEnvVar | src/lib.rs:354-361 | a present key gives its value; a missing key gives EnvVarNotFound with "could not find environment variable " and the key |
| Target.GoArch | src/lib.rs:318-331 | translation succeeds exactly for x86, x86_64, powerpc64, aarch64, mips, mips64 and arm; anything else is InvalidGOARCH with "unexpected target arch " and the value |
| Target.GoOs | src/lib.rs:340-351 | translation succeeds exactly for macos, windows, ios, linux, android, freebsd, dragonfly, openbsd and netbsd; anything else is InvalidGOOS with "unexpected target os " and the value |
| Target.GoArchFromEnv | src/lib.rs:312-332 | a missing CARGO_CFG_TARGET_ARCH is the env-var error; otherwise the result is the table's translation of its value |
| Target.GoOsFromEnv | src/lib.rs:334-352 | a missing CARGO_CFG_TARGET_OS is the env-var error; otherwise the result is the table's translation of its value |
| Target.GoArchMatchesTable | src/lib.rs:318-330 | GoArch maps a to g exactly when the reverse table maps g to a: x86/386, x86_64/amd64, powerpc64/ppc64, aarch64/arm64, and mips, mips64 and arm unchanged |
| Target.GoOsMatchesTable | src/lib.rs:340-350 | GoOs maps a to g exactly when the reverse table maps g to a: macos/darwin, and the eight other systems unchanged |
| LibraryName.ModeName | src/lib.rs:258-265 | a mode's display reads back as that mode |
| LibraryName.ParseModeNameRoundTrip | src/lib.rs:258-265 | every value that reads back as a mode is exactly that mode's display, so "c-archive" and "c-shared" correspond to the two modes one to one |
| LibraryName.LinkKind | src/lib.rs:181-184 | the link kind is "static" exactly for CArchive and "dylib" exactly for CShared |
| LibraryName.LibExtension | src/lib.rs:219-234 | the extension starts with a dot and is four characters long exactly on a Windows host; LibExtensionMatchesTable pins which extension goes with which mode |
| LibraryName.LibExtensionMatchesTable | src/lib.rs:219-234 | the extension for a mode and host is exactly the table's: .lib/.a for CArchive and .dll/.so for CShared, on a Windows/other host |
| LibraryName.ExampleLibNames | src/lib.rs:215-236 | an output called "example" becomes libexample.a, libexample.lib, libexample.so or libexample.dll by mode and host |
| LibraryName.FormatLibName | src/lib.rs:215-236 | the name's length is 3 plus the output's plus the extension's |
| LibraryName.SplitFormatLibName | src/lib.rs:215-236 | a formatted name starts with "lib", then the output, then .lib/.a (archive) or .dll/.so (shared) on a Windows/other host; splitting it gives back the output and the mode |
| LibraryName.FormatSplitLibName | src/lib.rs:215-236 | every name that splits as lib, output, and a host extension is the formatted name of that output and mode |
| Options.Default | src/lib.rs:56-66 | defaults: CArchive, metadata on, no change_dir, ldflags or out_dir, no packages, trimpath off |
| Command.JoinPath | src/lib.rs:144 | the path starts with the directory and ends with the file name; one separator, the host's own (`\` on Windows, `/` elsewhere), is inserted between them exactly when the directory is non-empty and does not already end with one |
| Command.FileNameOfJoin | src/lib.rs:144 | the joined output path's last component is the library file name |
| Command.ChildEnv | src/lib.rs:146-151 | the child gets CGO_ENABLED=1 and the given GOOS, GOARCH, CC and CXX; every other inherited variable is unchanged |
| Command.BuildArgs | src/lib.rs:152-168 | the vector built step by step, looping over the packages, equals the reference vector `Args` |
| Command.ParseArgsRoundTrip | src/lib.rs:152-168 | reading the vector back in the fixed flag order gives change_dir, ldflags, trimpath, mode, output path and packages |
| Command.ArgsLayout | src/lib.rs:152-168 | "build" is first; a set change_dir is "-C" and the directory right after it; "-o" and the path come right before the packages; the packages come last in insertion order |
| Report.SpawnError | src/lib.rs:170-178 | a spawn failure is a ToolExecError whose message is "failed to execute go command: " followed by the spawn error's text |
| Report.FailureHeader | src/lib.rs:193-196 | the header is "failed to build Go library (", the status's display, then "). Build output:" |
| Report.Section | src/lib.rs:198-207 | a stream's section is empty exactly when the stream is all whitespace; otherwise it is "\n=== name:\n" and the trimmed stream |
| Report.FailureMessage | src/lib.rs:193-210 | the message built by appending is the header, then the stdout section, then the stderr section |
| Report.ExitError | src/lib.rs:193-212 | a failed exit is a ToolExecError whose message starts with "failed to build Go library (status). Build output:" |
| Report.FailureTextSections | src/lib.rs:193-212 | the message is the header alone exactly when both streams are blank; with one blank stream it is the header and the other stream's section |
| Report.FailureTextCompileError | src/lib.rs:193-212 | with stdout "compile error: x.go:3" plus a newline and an empty stderr, the message is the header and a stdout section with exactly that text |
| Report.FailureTextExample | src/lib.rs:193-210 | with stdout "compile error: x.go:3" plus a newline and an empty stderr, the whole message is "failed to build Go library (", the status, "). Build output:", "\n=== stdout:\n" and "compile error: x.go:3" |
| Report.MetadataLines | src/lib.rs:180-187 | two lines: `cargo:rustc-link-lib=kind=output`, then `cargo:rustc-link-search=native=out_dir` |
| Engine.OutDir | src/lib.rs:140-143 | the configured directory when set; otherwise the OUT_DIR lookup |
| Engine.PlanBuild | src/lib.rs:135-168 | planning succeeds exactly when the OS, the architecture and the output directory all resolve; the OS error wins over the architecture's, which wins over OUT_DIR's; the planned directory is `OutDir` and the program is `go` |
| Engine.TryBuild | src/lib.rs:135-213 | a planning error is the result with nothing printed; Ok only when `go` was started and exited successfully; lines are printed only with metadata on and only once `go` was started |
| Engine.RunPlan | src/lib.rs:170-212 | a spawn failure is the spawn error with nothing printed; once the child ran, the result is Ok exactly on a successful exit and otherwise the ToolExecError with the failure message, and the two metadata lines are printed when enabled whatever the status; none when disabled |
| Engine.TargetOsFirst | src/lib.rs:135-137 | a missing or unknown target OS is the reported error whatever the architecture is, with nothing printed; the architecture's error is reported only when the OS is usable |
| Engine.OutDirOnlyWhenUnset | src/lib.rs:139-144 | with out_dir set, removing OUT_DIR changes neither success nor the arguments nor the directory; without it, a missing OUT_DIR is EnvVarNotFound naming OUT_DIR |
| Engine.PlannedCommand | src/lib.rs:139-168 | the command run is `go` with CGO_ENABLED=1, the translated GOOS and GOARCH, CC and CXX, every other variable of the environment inherited unchanged; its arguments read back as the configuration and the output path, whose directory is out_dir when set and OUT_DIR's value otherwise |
| Engine.SpawnFailureReported | src/lib.rs:170-178 | if spawning fails, the result is ToolExecError "failed to execute go command: " and the error text, and no line is printed |
| Engine.ExitedOutcome | src/lib.rs:180-212 | after `go` ran, the result is Ok exactly when the exit status is success, and otherwise the ToolExecError with the failure message; with metadata on, exactly the link-lib line (static or dylib) and then the link-search line for the `OutDir` directory are printed, whatever the status; with metadata off, none |
| Engine.MetadataOnlyWhenEnabled | src/lib.rs:180-187 | with metadata off nothing is ever printed; otherwise either nothing or exactly the two metadata lines |
| Engine.ExitOnError | src/lib.rs:127-132 | `build` returns normally exactly when `try_build` succeeded, and otherwise exits with status 1 |
| Engine.ExitDiagnosticNamesError | src/lib.rs:127-132 | the diagnostic printed before exiting contains the error's display, from which its kind and message are read back |
| Builder.Build.constructor | src/lib.rs:56-66 | a new builder holds the default options |
| Builder.Build.SetBuildMode | src/lib.rs:73-76 | sets the build mode; every other option is unchanged; returns the same builder |
| Builder.Build.SetCargoMetadata | src/lib.rs:81-84 | sets the metadata flag only; returns the same builder |
| Builder.Build.SetChangeDir | src/lib.rs:88-91 | sets change_dir to the directory only; returns the same builder |
| Builder.Build.SetLdflags | src/lib.rs:94-97 | sets ldflags only; returns the same builder |
| Builder.Build.SetOutDir | src/lib.rs:102-105 | sets out_dir only; returns the same builder |
| Builder.Build.AddPackage | src/lib.rs:111-114 | appends the package after the earlier ones, which keep their order; nothing else changes; returns the same builder |
| Builder.Build.SetTrimpath | src/lib.rs:117-120 | sets trimpath only; returns the same builder |
| Builder.Build.PlanCommand | src/lib.rs:136-168 | the step-by-step planning on the builder's fields (target, output directory, environment and the argument loop) gives exactly `Engine.PlanBuild` on its options, errors included |
| Builder.Build.TryBuild | src/lib.rs:135-213 | the step-by-step `try_build` on the builder's fields gives the same result and printed lines as `Engine.TryBuild` on its options |
| Builder.Build.BuildOrExit | src/lib.rs:127-132 | `build` prints what `try_build` prints; it finishes exactly when that succeeded, and otherwise exits with 1 after "error occurred: " and the error's display |
| Builder.ExampleChain | cgo-test/build.rs:1-9 | chaining trimpath, ldflags, change_dir and package on a new builder gives exactly those options over the defaults |

## Left out

- Running `go` (`cmd.output()`) is not modelled: the executor is a parameter, and nothing is said about what Go produces.
- Reading the real environment (`env::var`) is not modelled: the environment is a map. A variable that is present but not valid Unicode is an error in Rust; the map cannot express that case.
- `get_cc`/`get_cxx` call into the `cc` crate, which is not part of this model: their paths are opaque string inputs, their own failures (panics) are not modelled, and neither is anything the `cc` crate itself prints to stdout (such as its `cargo:rerun-if-env-changed` lines). The printed lines the model returns are only `try_build`'s own `println!` output.
- Printing (`println!`, `eprintln!`) and `process::exit` are not modelled: the printed lines and the exit request are returned as values.
- `String::from_utf8_lossy` is not modelled: the captured streams are taken as already-decoded strings.
- `ExitStatus`'s display text is an opaque string in the model; only its success test (exit code 0) is modelled.
- Command.JoinPath models `PathBuf::join` only for a relative file name, which is the only case here since the name starts with "lib". Windows drive prefixes such as `C:` and verbatim `\\?\` prefixes are not modelled.
- The output directory is taken as a string; `OsString` contents that are not valid Unicode are not modelled.
- Rust's `Clone`/`Debug` derives and the `Default` impl are not modelled separately. `Default` is `new()`.
