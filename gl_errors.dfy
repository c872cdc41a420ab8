/**
 * The OpenGL error reporting of the Week 4 helper library (Exception.cpp/.hpp): naming an error
 * flag, and the check that turns a raised flag into an exception. The flag that glGetError
 * returns is an input here: the GL context itself is outside the model.
 */
module GlErrors {
  import opened GlEnums
  import opened Wrappers

  /** The error flags that have a name of their own, each with its name. */
  const ErrorNames: map<GLenum, string> := map[
    GL_INVALID_ENUM := "GL_INVALID_ENUM",
    GL_INVALID_VALUE := "GL_INVALID_VALUE",
    GL_INVALID_OPERATION := "GL_INVALID_OPERATION",
    GL_OUT_OF_MEMORY := "GL_OUT_OF_MEMORY",
    GL_STACK_OVERFLOW := "GL_STACK_OVERFLOW",
    GL_STACK_UNDERFLOW := "GL_STACK_UNDERFLOW"]

  /** What every other value, GL_NO_ERROR included, is called. */
  const UnknownError := "UNKNOWN_GL_ERROR_ENUM"

  /** glErrToString: the name of an error flag. Total: it never throws. */
  function GlErrToString(err: GLenum): (name: string)
    ensures err in ErrorNames ==> name == ErrorNames[err]
    ensures name == UnknownError <==> err !in ErrorNames
  {
    if err == GL_INVALID_ENUM then "GL_INVALID_ENUM"
    else if err == GL_INVALID_VALUE then "GL_INVALID_VALUE"
    else if err == GL_INVALID_OPERATION then "GL_INVALID_OPERATION"
    else if err == GL_OUT_OF_MEMORY then "GL_OUT_OF_MEMORY"
    else if err == GL_STACK_OVERFLOW then "GL_STACK_OVERFLOW"
    else if err == GL_STACK_UNDERFLOW then "GL_STACK_UNDERFLOW"
    else "UNKNOWN_GL_ERROR_ENUM"
  }

  /** The name identifies the flag: two named flags never share a name. */
  lemma GlErrToStringInjective(a: GLenum, b: GLenum)
    requires a in ErrorNames && b in ErrorNames
    requires GlErrToString(a) == GlErrToString(b)
    ensures a == b
  {
  }

  /**
   * throwOnGlError_: reads the error flag once and throws `info + " " + name` exactly when
   * the flag is not GL_NO_ERROR; otherwise it returns normally.
   */
  function ThrowOnGlError(info: string, flag: GLenum): (r: Outcome<string>)
    ensures r.Fail? <==> flag != GL_NO_ERROR
    ensures r.Fail? ==> r.error == info + " " + GlErrToString(flag)
  {
    var errname := GlErrToString(flag);
    if flag != GL_NO_ERROR then Fail(info + " " + errname) else Pass
  }

  /** Given the same `info`, the thrown message tells the named flags apart. */
  lemma {:induction false} ThrowMessageIdentifiesError(info: string, a: GLenum, b: GLenum)
    requires a in ErrorNames && b in ErrorNames
    requires ThrowOnGlError(info, a) == ThrowOnGlError(info, b)
    ensures a == b
  {
    var prefix := info + " ";
    assert (prefix + GlErrToString(a))[|prefix|..] == GlErrToString(a);
    assert (prefix + GlErrToString(b))[|prefix|..] == GlErrToString(b);
    GlErrToStringInjective(a, b);
  }

  /**
   * The throwOnGlError() macro: in a _DEBUG build it calls throwOnGlError_ with the prefix
   * "GL Error in file <file>: "; in any other build it expands to nothing.
   */
  function ThrowOnGlErrorMacro(debug: bool, file: string, flag: GLenum): (r: Outcome<string>)
    ensures !debug ==> r == Pass
    ensures debug ==> (r.Fail? <==> flag != GL_NO_ERROR)
    ensures debug && r.Fail? ==> r.error == "GL Error in file " + file + ": " + " " + GlErrToString(flag)
  {
    if debug then ThrowOnGlError("GL Error in file " + file + ": ", flag) else Pass
  }

  /** Position of the first raised flag among successive glGetError readings, if any. */
  function FirstRaised(flags: seq<GLenum>): (r: Option<nat>)
    ensures r.None? <==> forall i :: 0 <= i < |flags| ==> flags[i] == GL_NO_ERROR
    ensures r.Some? ==> r.value < |flags| && flags[r.value] != GL_NO_ERROR &&
                        forall i :: 0 <= i < r.value ==> flags[i] == GL_NO_ERROR
  {
    if flags == [] then None
    else if flags[0] != GL_NO_ERROR then Some(0)
    else match FirstRaised(flags[1..])
      case None => None
      case Some(i) => Some(i + 1)
  }

  /**
   * Successive throwOnGlError() calls, the i-th reading `flags[i]`: the first call that throws
   * ends the run. Outside a _DEBUG build none of them throws; in one the run throws exactly
   * when some reading is raised, with the message for the first raised one.
   */
  function ThrowOnGlErrors(debug: bool, file: string, flags: seq<GLenum>): (r: Outcome<string>)
    ensures !debug ==> r == Pass
    ensures debug ==> (r.Pass? <==> FirstRaised(flags).None?)
    ensures debug && r.Fail? ==> r == ThrowOnGlErrorMacro(debug, file, flags[FirstRaised(flags).value])
  {
    if flags == [] then Pass
    else match ThrowOnGlErrorMacro(debug, file, flags[0])
      case Fail(message) => Fail(message)
      case Pass => ThrowOnGlErrors(debug, file, flags[1..])
  }

  /** A run of checks split in two: the second part runs only when the first one passes. */
  lemma {:induction false} ThrowOnGlErrorsSplit(debug: bool, file: string, flags: seq<GLenum>, k: nat)
    requires k <= |flags|
    ensures ThrowOnGlErrors(debug, file, flags) ==
            if ThrowOnGlErrors(debug, file, flags[..k]).Fail? then ThrowOnGlErrors(debug, file, flags[..k])
            else ThrowOnGlErrors(debug, file, flags[k..])
  {
    if k > 0 {
      assert flags[..k][1..] == flags[1..][..k - 1];
      assert flags[k..] == flags[1..][k - 1..];
      ThrowOnGlErrorsSplit(debug, file, flags[1..], k - 1);
    }
  }
}
