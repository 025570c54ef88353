/**
 * The error taxonomy of the Go-build helper (src/lib.rs:267-298) and the
 * failure-compatible wrappers used throughout the model.
 */
module Errors {

  datatype Option<+T> = None | Some(value: T)

  /** The four kinds of error `try_build` can report. */
  datatype ErrorKind = EnvVarNotFound | InvalidGOARCH | InvalidGOOS | ToolExecError

  /** An error: its kind and a free-form, human-readable message. */
  datatype Error = Error(kind: ErrorKind, message: string)

  /** `Result<T, Error>`; usable with `:-`. */
  datatype Result<+T> = Ok(value: T) | Err(error: Error) {
    predicate IsFailure() {
      Err?
    }

    function PropagateFailure<U>(): Result<U>
      requires Err?
    {
      Err(error)
    }

    function Extract(): T
      requires Ok?
    {
      value
    }
  }

  /** The `Debug` rendering of a kind: the variant's own name. */
  function KindName(kind: ErrorKind): string {
    match kind
    case EnvVarNotFound => "EnvVarNotFound"
    case InvalidGOARCH => "InvalidGOARCH"
    case InvalidGOOS => "InvalidGOOS"
    case ToolExecError => "ToolExecError"
  }

  /** Distinct kinds have distinct names, so the name identifies the kind. */
  lemma KindNameInjective(a: ErrorKind, b: ErrorKind)
    ensures KindName(a) == KindName(b) <==> a == b
  {
  }

  /** `Error`'s `Display`: the kind's name, a colon and a space, then the message. */
  function Display(e: Error): (s: string)
    ensures |s| == |KindName(e.kind)| + 2 + |e.message|
    ensures s[|s| - |e.message|..] == e.message
  {
    KindName(e.kind) + ": " + e.message
  }

  /** Recognises `prefix` at the start of `s`. */
  predicate StartsWith(s: string, prefix: string) {
    |prefix| <= |s| && s[..|prefix|] == prefix
  }

  /**
   * Reads an error back from its display form: the first kind whose name and
   * ": " start the text, the rest being the message.
   */
  function ParseDisplay(s: string): Option<Error> {
    if StartsWith(s, "EnvVarNotFound: ") then Some(Error(EnvVarNotFound, s[16..]))
    else if StartsWith(s, "InvalidGOARCH: ") then Some(Error(InvalidGOARCH, s[15..]))
    else if StartsWith(s, "InvalidGOOS: ") then Some(Error(InvalidGOOS, s[13..]))
    else if StartsWith(s, "ToolExecError: ") then Some(Error(ToolExecError, s[15..]))
    else None
  }

  /** The displayed form of an error determines the error: kind and message. */
  lemma DisplayRoundTrip(e: Error)
    ensures ParseDisplay(Display(e)) == Some(e)
  {
    var s := Display(e);
    var p := KindName(e.kind) + ": ";
    assert s == p + e.message;
    assert s[..|p|] == p;
    assert s[|p|..] == e.message;
    // The kind names differ within their first ten characters, so no other
    // kind's prefix matches.
    match e.kind
    case EnvVarNotFound =>
    case InvalidGOARCH =>
      assert s[0] != "EnvVarNotFound: "[0];
    case InvalidGOOS =>
      assert s[0] != "EnvVarNotFound: "[0];
      assert s[9] != "InvalidGOARCH: "[9];
    case ToolExecError =>
      assert s[0] != "EnvVarNotFound: "[0];
      assert s[0] != "InvalidGOARCH: "[0];
      assert s[0] != "InvalidGOOS: "[0];
  }
}
