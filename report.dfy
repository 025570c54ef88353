/**
 * What `try_build` makes of the child process (src/lib.rs:170-212): the
 * spawn failure, the nonzero-exit message and the two `cargo:` lines.
 */
module Report {
  import opened Errors
  import opened Text
  import opened LibraryName

  /** How the child ended: its exit code (none if a signal ended it) and `ExitStatus`'s display text. */
  datatype ExitStatus = ExitStatus(code: Option<int>, display: string) {
    /** `ExitStatus::success`: exited with code 0. */
    predicate Success() {
      code == Some(0)
    }
  }

  /** What running the command gives: the spawn error's text, or the captured status and streams. */
  datatype SpawnResult =
    | SpawnFailed(reason: string)
    | Spawned(status: ExitStatus, stdout: string, stderr: string)

  const SpawnErrorPrefix := "failed to execute go command: "

  /** The error for a command that could not be started. */
  function SpawnError(reason: string): (e: Error)
    ensures e.kind == ToolExecError
    ensures StartsWith(e.message, SpawnErrorPrefix) && e.message[|SpawnErrorPrefix|..] == reason
  {
    Error(ToolExecError, SpawnErrorPrefix + reason)
  }

  /** The first line of the nonzero-exit message, naming the status. */
  function FailureHeader(status: ExitStatus): (header: string)
    ensures |header| == 44 + |status.display|
    ensures header[..28] == "failed to build Go library ("
    ensures header[28..28 + |status.display|] == status.display
    ensures header[28 + |status.display|..] == "). Build output:"
  {
    "failed to build Go library (" + status.display + "). Build output:"
  }

  /** The marker that opens a stream's section. */
  function SectionMarker(streamName: string): string {
    "\n=== " + streamName + ":\n"
  }

  /**
   * What the `push_output` closure appends for one stream: nothing when the
   * trimmed stream is empty, else the marker and the trimmed text.
   */
  function Section(streamName: string, stream: string): (section: string)
    ensures section == [] <==> AllWhitespace(stream)
    ensures section != [] ==> section == SectionMarker(streamName) + Trim(stream)
  {
    var text := Trim(stream);
    if text == [] then [] else SectionMarker(streamName) + text
  }

  /**
   * The message of a nonzero exit, built by appending to a mutable string as
   * `try_build` does: the header, then the stdout section, then the stderr
   * section, each only when the stream holds more than whitespace.
   */
  method FailureMessage(status: ExitStatus, stdout: string, stderr: string) returns (message: string)
    ensures message == FailureHeader(status) + Section("stdout", stdout) + Section("stderr", stderr)
  {
    message := FailureHeader(status);
    var text := Trim(stdout);
    if text != [] {
      message := message + (SectionMarker("stdout") + text);
    }
    assert message == FailureHeader(status) + Section("stdout", stdout);
    text := Trim(stderr);
    if text != [] {
      message := message + (SectionMarker("stderr") + text);
    }
  }

  /** The message as a value, for the functional statement of `try_build`. */
  function FailureText(status: ExitStatus, stdout: string, stderr: string): string {
    FailureHeader(status) + Section("stdout", stdout) + Section("stderr", stderr)
  }

  /** The error for a child that exited unsuccessfully. */
  function ExitError(status: ExitStatus, stdout: string, stderr: string): (e: Error)
    ensures e.kind == ToolExecError
    ensures StartsWith(e.message, FailureHeader(status))
  {
    PrefixOfConcat(FailureHeader(status), Section("stdout", stdout), Section("stderr", stderr));
    Error(ToolExecError, FailureText(status, stdout, stderr))
  }

  lemma PrefixOfConcat(a: string, b: string, c: string)
    ensures StartsWith(a + b + c, a)
  {
    assert (a + b + c)[..|a|] == a;
  }

  /**
   * The header stands alone exactly when both streams are blank; a stream's
   * section is there exactly when the stream holds a non-whitespace
   * character, and carries that stream with its surrounding whitespace cut.
   */
  lemma FailureTextSections(status: ExitStatus, stdout: string, stderr: string)
    ensures FailureText(status, stdout, stderr) == FailureHeader(status)
      <==> AllWhitespace(stdout) && AllWhitespace(stderr)
    ensures !AllWhitespace(stdout) && AllWhitespace(stderr) ==>
      FailureText(status, stdout, stderr) == FailureHeader(status) + SectionMarker("stdout") + Trim(stdout)
    ensures AllWhitespace(stdout) && !AllWhitespace(stderr) ==>
      FailureText(status, stdout, stderr) == FailureHeader(status) + SectionMarker("stderr") + Trim(stderr)
  {
    var h := FailureHeader(status);
    var out := Section("stdout", stdout);
    var err := Section("stderr", stderr);
    if FailureText(status, stdout, stderr) == h {
      assert |h + out + err| == |h| + |out| + |err|;
    }
    if out == [] { assert h + out + err == h + err; }
    if err == [] { assert h + out + err == h + out; }
  }

  /**
   * A child that exits with status 1, a compiler complaint on stdout and
   * nothing on stderr: the message is the header and a stdout section with
   * that complaint, and has no stderr section.
   */
  lemma FailureTextCompileError(status: ExitStatus)
    ensures FailureText(status, "compile error: x.go:3\n", "")
      == FailureHeader(status) + SectionMarker("stdout") + "compile error: x.go:3"
  {
    var text := "compile error: x.go:3";
    var stdout := "compile error: x.go:3\n";
    assert stdout == [] + text + "\n";
    assert AllWhitespace("\n");
    TrimOfPadded([], text, "\n");
    assert !AllWhitespace(stdout) by {
      assert !IsWhitespace(stdout[0]);
    }
    FailureTextSections(status, stdout, "");
  }

  /** The whole message for a compile error reported on stdout, whatever the exit status. */
  lemma FailureTextExample(status: ExitStatus)
    ensures FailureText(status, "compile error: x.go:3\n", "")
      == "failed to build Go library (" + status.display + "). Build output:" + "\n=== stdout:\n" + "compile error: x.go:3"
  {
    FailureTextCompileError(status);
    StdoutMarker();
  }

  lemma StdoutMarker()
    ensures SectionMarker("stdout") == "\n=== stdout:\n"
  {
  }

  /**
   * The two lines printed for cargo when metadata is on, in the order the
   * source prints them: the link directive, then the search path.
   */
  function MetadataLines(mode: BuildMode, output: string, outDir: string): (lines: seq<string>)
    ensures |lines| == 2
    ensures lines[0] == "cargo:rustc-link-lib=" + LinkKind(mode) + "=" + output
    ensures lines[1] == "cargo:rustc-link-search=native=" + outDir
  {
    ["cargo:rustc-link-lib=" + LinkKind(mode) + "=" + output,
     "cargo:rustc-link-search=native=" + outDir]
  }
}
