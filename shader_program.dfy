/**
 * The shader-program helper of the Week 10 helper library (ShaderProgram.cpp): naming GL
 * errors and framebuffer statuses, recognising a shader stage from its file name, the
 * uniform-location cache, and ownership of the GL program handle.
 *
 * GL calls are inputs: the flag glGetError returns, the location glGetUniformLocation returns,
 * the outcome of compiling and linking. Console output becomes a returned flag.
 */
module Shaders {
  import opened GlEnums
  import opened Wrappers
  import Strings
  import GlErrors

  // ---------------------------------------------------------------------------
  // GL error names

  /** glErrToString, the ShaderProgram.cpp copy: the name of an error flag; never throws. */
  function GlErrToString(err: GLenum): (name: string)
    ensures name == GlErrors.GlErrToString(err)
    ensures name == GlErrors.UnknownError <==> err !in GlErrors.ErrorNames
  {
    if err == GL_INVALID_ENUM then "GL_INVALID_ENUM"
    else if err == GL_INVALID_VALUE then "GL_INVALID_VALUE"
    else if err == GL_INVALID_OPERATION then "GL_INVALID_OPERATION"
    else if err == GL_OUT_OF_MEMORY then "GL_OUT_OF_MEMORY"
    else if err == GL_STACK_OVERFLOW then "GL_STACK_OVERFLOW"
    else if err == GL_STACK_UNDERFLOW then "GL_STACK_UNDERFLOW"
    else "UNKNOWN_GL_ERROR_ENUM"
  }

  /**
   * checkForGLError: reads the flag and names it, but the throw that would report a raised flag
   * is commented out, so it returns normally whatever the flag says.
   */
  function CheckForGlError(exception: string, flag: GLenum): (r: Outcome<string>)
    ensures r == Pass
  {
    Pass
  }

  // ---------------------------------------------------------------------------
  // Shader stage from file name

  /** The recognised extensions, each with the shader stage it selects. */
  const ShaderExtensions: map<string, GLenum> := map[
    "vert" := GL_VERTEX_SHADER,
    "geom" := GL_GEOMETRY_SHADER,
    "frag" := GL_FRAGMENT_SHADER,
    "tesc" := GL_TESS_CONTROL_SHADER,
    "tese" := GL_TESS_EVALUATION_SHADER,
    "comp" := GL_COMPUTE_SHADER]

  /** The six shader stages a file name can select. */
  const ShaderStages: set<GLenum> := {
    GL_VERTEX_SHADER, GL_GEOMETRY_SHADER, GL_FRAGMENT_SHADER,
    GL_TESS_CONTROL_SHADER, GL_TESS_EVALUATION_SHADER, GL_COMPUTE_SHADER}

  /** The message of both failures of shaderTypeFromFilename. */
  const UnrecognisedExtension := "Supplied shader filename did not have recognised extension."

  /** The extension that selects a stage: the inverse of the extension table. */
  function StageExtension(stage: GLenum): (ext: string)
    requires stage in ShaderStages
    ensures ext in ShaderExtensions && ShaderExtensions[ext] == stage
    ensures '.' !in ext
  {
    if stage == GL_VERTEX_SHADER then "vert"
    else if stage == GL_GEOMETRY_SHADER then "geom"
    else if stage == GL_FRAGMENT_SHADER then "frag"
    else if stage == GL_TESS_CONTROL_SHADER then "tesc"
    else if stage == GL_TESS_EVALUATION_SHADER then "tese"
    else "comp"
  }

  /** Each stage has exactly one extension: the extension table is injective. */
  lemma StageExtensionUnique(ext: string, stage: GLenum)
    requires ext in ShaderExtensions && ShaderExtensions[ext] == stage
    ensures stage in ShaderStages && ext == StageExtension(stage)
  {
  }

  /** The text after the last '.', or None when the name has no '.'. */
  function Extension(filename: string): (ext: Option<string>)
    ensures ext.None? <==> '.' !in filename
    ensures ext.Some? ==> '.' !in ext.value && |ext.value| < |filename|
    ensures ext.Some? ==> filename[|filename| - |ext.value| - 1] == '.'
    ensures ext.Some? ==> filename[|filename| - |ext.value|..] == ext.value
  {
    match Strings.LastIndexOf(filename, '.')
    case None => None
    case Some(pos) => Some(filename[pos + 1..])
  }

  /**
   * shaderTypeFromFilename: the stage named by the text after the last '.'. A name without a
   * '.' and any extension other than the six (compared exactly, so case matters) throw.
   */
  function ShaderTypeFromFilename(filename: string): (r: Result<GLenum, string>)
    ensures r.Success? <==> Extension(filename).Some? && Extension(filename).value in ShaderExtensions
    ensures r.Success? ==> r.value in ShaderStages && r.value == ShaderExtensions[Extension(filename).value]
    ensures r.Failure? ==> r.error == UnrecognisedExtension
  {
    match Extension(filename)
    case None => Failure(UnrecognisedExtension)
    case Some(extension) =>
      if extension == "vert" then Success(GL_VERTEX_SHADER)
      else if extension == "geom" then Success(GL_GEOMETRY_SHADER)
      else if extension == "frag" then Success(GL_FRAGMENT_SHADER)
      else if extension == "tesc" then Success(GL_TESS_CONTROL_SHADER)
      else if extension == "tese" then Success(GL_TESS_EVALUATION_SHADER)
      else if extension == "comp" then Success(GL_COMPUTE_SHADER)
      else Failure(UnrecognisedExtension)
  }

  /** Whatever comes before it, a name ending in '.' and a stage's extension selects that stage. */
  lemma {:induction false} ShaderTypeOfExtension(base: string, stage: GLenum)
    requires stage in ShaderStages
    ensures ShaderTypeFromFilename(base + "." + StageExtension(stage)) == Success(stage)
  {
    var ext := StageExtension(stage);
    Strings.LastIndexOfJoin(base, '.', ext);
    assert base + "." + ext == base + ['.'] + ext;
    assert (base + ['.'] + ext)[|base| + 1..] == ext;
  }

  /** A name that selects a stage ends in '.' followed by that stage's extension. */
  lemma {:induction false} ShaderTypeEndsWithExtension(filename: string, stage: GLenum)
    requires ShaderTypeFromFilename(filename) == Success(stage)
    ensures stage in ShaderStages
    ensures var suffix := "." + StageExtension(stage);
            |suffix| <= |filename| && filename[|filename| - |suffix|..] == suffix
  {
    var ext := Extension(filename).value;
    StageExtensionUnique(ext, stage);
    var suffix := "." + ext;
    assert filename[|filename| - |suffix|..] == [filename[|filename| - |ext| - 1]] + filename[|filename| - |ext|..];
  }

  /** A name ending in '.' followed by a stage's extension selects that stage. */
  lemma {:induction false} ShaderTypeOfSuffix(filename: string, stage: GLenum)
    requires stage in ShaderStages
    requires var suffix := "." + StageExtension(stage);
             |suffix| <= |filename| && filename[|filename| - |suffix|..] == suffix
    ensures ShaderTypeFromFilename(filename) == Success(stage)
  {
    var ext := StageExtension(stage);
    var base := filename[..|filename| - |ext| - 1];
    assert filename == base + "." + ext;
    ShaderTypeOfExtension(base, stage);
  }

  /** A name selects a stage exactly when it ends in '.' followed by that stage's extension. */
  lemma {:induction false} ShaderTypeFromFilenameIff(filename: string, stage: GLenum)
    requires stage in ShaderStages
    ensures ShaderTypeFromFilename(filename) == Success(stage) <==>
            var suffix := "." + StageExtension(stage);
            |suffix| <= |filename| && filename[|filename| - |suffix|..] == suffix
  {
    var suffix := "." + StageExtension(stage);
    if |suffix| <= |filename| && filename[|filename| - |suffix|..] == suffix {
      ShaderTypeOfSuffix(filename, stage);
    }
    if ShaderTypeFromFilename(filename) == Success(stage) {
      ShaderTypeEndsWithExtension(filename, stage);
    }
  }

  /** A stage's extension selects it, with the directories before it left alone. */
  lemma ShaderTypeExampleFrag()
    ensures ShaderTypeFromFilename("../shaders/TexturedMesh.frag") == Success(GL_FRAGMENT_SHADER)
  {
    ShaderTypeOfExtension("../shaders/TexturedMesh", GL_FRAGMENT_SHADER);
  }

  /** Extension matching is case-sensitive. */
  lemma ShaderTypeExampleUpperCase()
    ensures ShaderTypeFromFilename("Mesh.VERT").Failure?
  {
    Strings.LastIndexOfJoin("Mesh", '.', "VERT");
    assert "Mesh.VERT" == "Mesh" + ['.'] + "VERT";
  }

  /** Only the text after the last '.' counts. */
  lemma ShaderTypeExampleDoubleExtension()
    ensures ShaderTypeFromFilename("a.vert.glsl").Failure?
  {
    Strings.LastIndexOfJoin("a.vert", '.', "glsl");
    assert "a.vert.glsl" == "a.vert" + ['.'] + "glsl";
  }

  // ---------------------------------------------------------------------------
  // Framebuffer status messages

  /** The eight framebuffer-incompleteness statuses with their names. */
  const FramebufferStatusNames: map<int, string> := map[
    GL_FRAMEBUFFER_UNDEFINED as int := "GL_FRAMEBUFFER_UNDEFINED",
    GL_FRAMEBUFFER_INCOMPLETE_ATTACHMENT as int := "GL_FRAMEBUFFER_INCOMPLETE_ATTACHMENT",
    GL_FRAMEBUFFER_INCOMPLETE_MISSING_ATTACHMENT as int := "GL_FRAMEBUFFER_INCOMPLETE_MISSING_ATTACHMENT",
    GL_FRAMEBUFFER_INCOMPLETE_DRAW_BUFFER as int := "GL_FRAMEBUFFER_INCOMPLETE_DRAW_BUFFER",
    GL_FRAMEBUFFER_INCOMPLETE_READ_BUFFER as int := "GL_FRAMEBUFFER_INCOMPLETE_READ_BUFFER",
    GL_FRAMEBUFFER_UNSUPPORTED as int := "GL_FRAMEBUFFER_UNSUPPORTED",
    GL_FRAMEBUFFER_INCOMPLETE_MULTISAMPLE as int := "GL_FRAMEBUFFER_INCOMPLETE_MULTISAMPLE",
    GL_FRAMEBUFFER_INCOMPLETE_LAYER_TARGETS as int := "GL_FRAMEBUFFER_INCOMPLETE_LAYER_TARGETS"]

  /** The message for code 0, which is what glCheckFramebufferStatus returns when it fails. */
  const CheckFailedMessage := "Error encountered checking framebuffer completeness"

  /** The message thrown for every code that is neither a status nor 0. */
  function NoSuchCodeMessage(errcode: int): string
  {
    "No such framebuffer error code \"" + Strings.IntToString(errcode) + "\"!"
  }

  /** A status's message: its name, ": ", then what the status means. */
  function Described(name: string, meaning: string): (message: string)
    ensures |name| + 2 <= |message| && message[..|name| + 2] == name + ": "
  {
    name + ": " + meaning
  }

  /** What each framebuffer status means, as the message describes it. */
  function StatusMeaning(status: int): string
    requires status in FramebufferStatusNames
  {
    if status == GL_FRAMEBUFFER_UNDEFINED as int then
      "returned if target is the default framebuffer,"
        + " but the default framebuffer does not exist."
    else if status == GL_FRAMEBUFFER_INCOMPLETE_ATTACHMENT as int then
      "returned if any of the framebuffer attachment"
        + " points are framebuffer incomplete."
    else if status == GL_FRAMEBUFFER_INCOMPLETE_MISSING_ATTACHMENT as int then
      "returned if the framebuffer does not have"
        + " at least one image attached to it."
    else if status == GL_FRAMEBUFFER_INCOMPLETE_DRAW_BUFFER as int then
      "returned if the value of GL_FRAMEBUFFER_ATTACHMENT_OBJECT_TYPE "
        + "is GL_NONE for any color attachment point(s) named by GL_DRAW_BUFFERi."
    else if status == GL_FRAMEBUFFER_INCOMPLETE_READ_BUFFER as int then
      "returned if GL_READ_BUFFER is not GL_NONE"
        + " and the value of GL_FRAMEBUFFER_ATTACHMENT_OBJECT_TYPE is"
        + " GL_NONE for the color attachment point named"
        + " by GL_READ_BUFFER."
    else if status == GL_FRAMEBUFFER_UNSUPPORTED as int then
      "returned if the combination of internal formats of"
        + " the attached images violates"
        + "an implementation-dependent set of restrictions."
    else if status == GL_FRAMEBUFFER_INCOMPLETE_MULTISAMPLE as int then
      "returned if the value of GL_RENDERBUFFER_SAMPLES is not the same"
        + "for all attached renderbuffers; if the value of GL_TEXTURE_SAMPLES"
        + " is the not same for all attached textures; or, if the attached"
        + "images are a mix of renderbuffers and textures, the value of"
        + " GL_RENDERBUFFER_SAMPLES does not match the value of GL_TEXTURE_SAMPLES."
        + "also returned if the value of GL_TEXTURE_FIXED_SAMPLE_LOCATIONS is"
        + "not the same for all attached textures; or, if the attached"
        + " images are a mix of renderbuffers and textures, the value "
        + "of GL_TEXTURE_FIXED_SAMPLE_LOCATIONS"
        + "is not GL_TRUE for all attached textures."
    else
      "returned if any framebuffer attachment is layered, and any"
        + " populated attachment is not layered,"
        + "or if all populated color attachments are not"
        + " from textures of the same target."
  }

  /**
   * framebufferErrorToString: a description for exactly the eight statuses and 0, each
   * status's description opening with its name and ": "; every other code throws.
   */
  function FramebufferErrorToString(errcode: GLint): (r: Result<string, string>)
    ensures r.Success? <==> errcode == 0 || errcode in FramebufferStatusNames
    ensures errcode in FramebufferStatusNames ==>
              var prefix := FramebufferStatusNames[errcode] + ": ";
              r.Success? && |prefix| <= |r.value| && r.value[..|prefix|] == prefix
    ensures errcode == 0 ==> r == Success(CheckFailedMessage)
    ensures r.Failure? ==> r.error == NoSuchCodeMessage(errcode)
  {
    if errcode in FramebufferStatusNames then
      Success(Described(FramebufferStatusNames[errcode], StatusMeaning(errcode)))
    else if errcode == 0 then
      Success(CheckFailedMessage)
    else
      Failure(NoSuchCodeMessage(errcode))
  }

  // ---------------------------------------------------------------------------
  // Uniform-location cache

  /** The location glGetUniformLocation reports for a name the program does not have. */
  const NotFoundLocation: GLint := -1

  /** What uniformLoc remembers: the locations found, and the names already warned about. */
  datatype UniformCache = UniformCache(found: map<string, GLint>, notFound: set<string>)

  /** The answer of one uniformLoc call: the location, the cache after it, and whether it warned. */
  datatype Lookup = Lookup(loc: GLint, cache: UniformCache, warned: bool)

  /**
   * uniformLoc on a cache. `queried` is the location glGetUniformLocation would report and `err`
   * the flag the following glGetError reads; neither is consulted for a cached name. A lookup
   * that reports -1 or raises an error is not cached, and warns only if the name was not
   * already warned about; its reported location is still returned.
   */
  function LookupUniform(c: UniformCache, name: string, queried: GLint, err: GLenum): (l: Lookup)
    ensures name in c.found ==> l == Lookup(c.found[name], c, false)
    ensures name !in c.found ==> l.loc == queried
    ensures name !in c.found && queried != NotFoundLocation && err == GL_NO_ERROR ==>
              l.cache == c.(found := c.found[name := queried]) && !l.warned
    ensures name !in c.found && (queried == NotFoundLocation || err != GL_NO_ERROR) ==>
              l.cache.found == c.found && l.cache.notFound == c.notFound + {name} &&
              (l.warned <==> name !in c.notFound)
  {
    if name in c.found then Lookup(c.found[name], c, false)
    else if queried == NotFoundLocation || err != GL_NO_ERROR then
      if name !in c.notFound then Lookup(queried, c.(notFound := c.notFound + {name}), true)
      else Lookup(queried, c, false)
    else Lookup(queried, c.(found := c.found[name := queried]), false)
  }

  /**
   * A cache agrees with the program when every cached location is the one the program reports
   * for that name, and is not -1.
   */
  ghost predicate Coherent(c: UniformCache, locate: string -> GLint)
  {
    forall n :: n in c.found ==> c.found[n] == locate(n) && locate(n) != NotFoundLocation
  }

  /**
   * When GL reports no errors, a coherent cache is invisible: every lookup returns what the
   * program reports, and the cache stays coherent.
   */
  lemma LookupTransparent(c: UniformCache, locate: string -> GLint, name: string)
    requires Coherent(c, locate)
    ensures var l := LookupUniform(c, name, locate(name), GL_NO_ERROR);
            l.loc == locate(name) && Coherent(l.cache, locate)
  {
  }

  /** One uniformLoc call as the program's GL context answers it. */
  datatype Query = Query(name: string, queried: GLint, err: GLenum)

  /** The outcome of a series of uniformLoc calls: locations, final cache, warnings in order. */
  datatype Trace = Trace(locs: seq<GLint>, cache: UniformCache, warnings: seq<string>)

  /** uniformLoc called once per query, in order, threading the cache through. */
  function RunLookups(c: UniformCache, qs: seq<Query>): (t: Trace)
    ensures |t.locs| == |qs|
    ensures c.notFound <= t.cache.notFound
    ensures forall n :: n in c.found ==> n in t.cache.found && t.cache.found[n] == c.found[n]
    decreases |qs|
  {
    if qs == [] then Trace([], c, [])
    else
      var l := LookupUniform(c, qs[0].name, qs[0].queried, qs[0].err);
      var rest := RunLookups(l.cache, qs[1..]);
      Trace([l.loc] + rest.locs, rest.cache,
            (if l.warned then [qs[0].name] else []) + rest.warnings)
  }

  /**
   * A series of warnings is sound when no name appears twice, none was warned about before
   * the series started, and every one is remembered at its end.
   */
  ghost predicate WarnedOnce(before: set<string>, t: Trace)
  {
    (forall i, j :: 0 <= i < j < |t.warnings| ==> t.warnings[i] != t.warnings[j]) &&
    (forall i :: 0 <= i < |t.warnings| ==> t.warnings[i] !in before && t.warnings[i] in t.cache.notFound)
  }

  /**
   * Over any series of calls, each name is warned about at most once, never when it was already
   * in notfound_, and every name warned about ends up in notfound_.
   */
  lemma {:induction false} WarnedAtMostOnce(c: UniformCache, qs: seq<Query>)
    ensures WarnedOnce(c.notFound, RunLookups(c, qs))
    decreases |qs|
  {
    if qs != [] {
      var l := LookupUniform(c, qs[0].name, qs[0].queried, qs[0].err);
      var rest := RunLookups(l.cache, qs[1..]);
      WarnedAtMostOnce(l.cache, qs[1..]);
      assert WarnedOnce(l.cache.notFound, rest);
      var t := RunLookups(c, qs);
      assert c.notFound <= l.cache.notFound && t.cache == rest.cache;
      if l.warned {
        assert t.warnings == [qs[0].name] + rest.warnings;
        assert qs[0].name in l.cache.notFound && qs[0].name !in c.notFound;
        forall i, j | 0 <= i < j < |t.warnings|
          ensures t.warnings[i] != t.warnings[j]
        {
          assert t.warnings[j] == rest.warnings[j - 1];
          if i > 0 {
            assert t.warnings[i] == rest.warnings[i - 1];
          }
        }
        forall i | 0 <= i < |t.warnings|
          ensures t.warnings[i] !in c.notFound && t.warnings[i] in t.cache.notFound
        {
          if i > 0 {
            assert t.warnings[i] == rest.warnings[i - 1];
          }
        }
      } else {
        assert t.warnings == rest.warnings;
      }
    }
  }

  /** A lookup that GL answers with -1 or an error never enters the cache, however often it recurs. */
  lemma {:induction false} FailedNeverCached(c: UniformCache, qs: seq<Query>, name: string)
    requires name !in c.found
    requires forall i :: 0 <= i < |qs| && qs[i].name == name ==>
               qs[i].queried == NotFoundLocation || qs[i].err != GL_NO_ERROR
    ensures name !in RunLookups(c, qs).cache.found
    decreases |qs|
  {
    if qs != [] {
      var l := LookupUniform(c, qs[0].name, qs[0].queried, qs[0].err);
      FailedNeverCached(l.cache, qs[1..], name);
    }
  }

  // ---------------------------------------------------------------------------
  // The program object

  /** A double-quoted file name. */
  function Quoted(s: string): string
  {
    "\"" + s + "\""
  }

  /** The constructor's filenames_: each name quoted, separated by ", ". */
  function QuotedList(names: seq<string>): (t: string)
    requires |names| > 0
    decreases |names|
  {
    if |names| == 1 then Quoted(names[0])
    else Quoted(names[0]) + ", " + QuotedList(names[1..])
  }

  /** Appending a name to the list adds ", " and the quoted name, as the constructor's loop does. */
  lemma {:induction false} QuotedListAppend(names: seq<string>, name: string)
    requires |names| > 0
    ensures QuotedList(names + [name]) == QuotedList(names) + ", " + Quoted(name)
    decreases |names|
  {
    if |names| > 1 {
      assert (names + [name])[1..] == names[1..] + [name];
      QuotedListAppend(names[1..], name);
    } else {
      assert (names + [name])[1..] == [name];
    }
  }

  /**
   * Splits a quoted list back into its names: a '"', the text up to the next '"', then either
   * the end or ", " and the next quoted name.
   */
  function ParseQuotedList(t: string): (r: Option<seq<string>>)
    ensures r.Some? ==> |r.value| > 0
    decreases |t|
  {
    if |t| < 2 || t[0] != '"' then None
    else match Strings.IndexOf(t[1..], '"')
      case None => None
      case Some(k) =>
        var rest := t[k + 2..];
        if rest == [] then Some([t[1..k + 1]])
        else if |rest| >= 2 && rest[..2] == ", " then
          match ParseQuotedList(rest[2..])
          case None => None
          case Some(names) => Some([t[1..k + 1]] + names)
        else None
  }

  /** In a quoted name followed by anything, the closing '"' is the first one after the opening. */
  lemma QuotedHead(n: string, tail: string)
    requires '"' !in n
    ensures var t := Quoted(n) + tail;
            |t| >= 2 && t[0] == '"' && Strings.IndexOf(t[1..], '"') == Some(|n|) &&
            t[1..|n| + 1] == n && t[|n| + 2..] == tail
  {
    var t := Quoted(n) + tail;
    assert t[1..] == n + ['"'] + tail;
    Strings.IndexOfJoin(n, '"', tail);
  }

  /** A single quoted name parses back to that name. */
  lemma ParseQuotedSingle(n: string)
    requires '"' !in n
    ensures ParseQuotedList(Quoted(n)) == Some([n])
  {
    QuotedHead(n, "");
    assert Quoted(n) + "" == Quoted(n);
  }

  /** A quoted name, ", " and more text parse as that name followed by whatever the rest gives. */
  lemma ParseQuotedCons(n: string, more: string)
    requires '"' !in n
    ensures ParseQuotedList(Quoted(n) + ", " + more) ==
            match ParseQuotedList(more)
            case None => None
            case Some(names) => Some([n] + names)
  {
    var tail := ", " + more;
    QuotedHead(n, tail);
    assert Quoted(n) + tail == Quoted(n) + ", " + more;
    assert tail[..2] == ", " && tail[2..] == more;
  }

  /**
   * The joined file names are unambiguous: when no name holds a '"', splitting the list gives
   * the names back.
   */
  lemma {:induction false} QuotedListRoundTrip(names: seq<string>)
    requires |names| > 0
    requires forall i :: 0 <= i < |names| ==> '"' !in names[i]
    ensures ParseQuotedList(QuotedList(names)) == Some(names)
    decreases |names|
  {
    if |names| == 1 {
      ParseQuotedSingle(names[0]);
      assert names == [names[0]];
    } else {
      var more := QuotedList(names[1..]);
      assert QuotedList(names) == Quoted(names[0]) + ", " + more;
      ParseQuotedCons(names[0], more);
      QuotedListRoundTrip(names[1..]);
      assert ParseQuotedList(more) == Some(names[1..]);
      assert [names[0]] + names[1..] == names;
    }
  }

  /** All file names have a recognised extension. */
  ghost predicate AllRecognised(sources: seq<string>)
  {
    forall i :: 0 <= i < |sources| ==> ShaderTypeFromFilename(sources[i]).Success?
  }

  /** The constructor's first loop: the stage of every file, throwing at the first unrecognised one. */
  method ShaderTypes(sources: seq<string>) returns (r: Result<seq<GLenum>, string>)
    ensures r.Success? <==> AllRecognised(sources)
    ensures r.Success? ==> |r.value| == |sources|
    ensures r.Success? ==>
              forall i :: 0 <= i < |sources| ==> ShaderTypeFromFilename(sources[i]) == Success(r.value[i])
    ensures r.Failure? ==> r.error == UnrecognisedExtension
  {
    var types: seq<GLenum> := [];
    var i := 0;
    while i < |sources|
      invariant 0 <= i <= |sources| && |types| == i
      invariant forall k :: 0 <= k < i ==> ShaderTypeFromFilename(sources[k]) == Success(types[k])
    {
      var t := ShaderTypeFromFilename(sources[i]);
      if t.Failure? {
        return Failure(t.error);
      }
      types := types + [t.value];
      i := i + 1;
    }
    return Success(types);
  }

  /** The constructor's second loop: the quoted file names joined with ", ". */
  method JoinFilenames(sources: seq<string>) returns (joined: string)
    requires |sources| > 0
    ensures joined == QuotedList(sources)
  {
    joined := "\"" + sources[0] + "\"";
    var i := 1;
    while i < |sources|
      invariant 1 <= i <= |sources|
      invariant joined == QuotedList(sources[..i])
    {
      QuotedListAppend(sources[..i], sources[i]);
      assert sources[..i + 1] == sources[..i] + [sources[i]];
      joined := joined + ", \"" + sources[i] + "\"";
      i := i + 1;
    }
    assert sources[..i] == sources;
  }

  /** ShaderProgram: the GL program handle it owns and the uniform cache for it. */
  class ShaderProgram {
    var program: GLuint
    var uniforms: map<string, GLint>
    var notFound: set<string>
    var filenames: string

    /** The uniform cache as a value. */
    function Cache(): UniformCache
      reads this
    {
      UniformCache(uniforms, notFound)
    }

    /** The state the main constructor leaves: a linked program, an empty cache, the names. */
    constructor Init(program: GLuint, filenames: string)
      ensures this.program == program && this.filenames == filenames
      ensures uniforms == map[] && notFound == {}
    {
      this.program := program;
      this.filenames := filenames;
      uniforms := map[];
      notFound := {};
    }

    /**
     * The main constructor. `linked` is what compiling and linking the sources gives (a handle
     * or the error thrown); it is consulted only once every file name has a recognised
     * extension. sources[0] is read only after linking succeeds.
     */
    static method Create(sources: seq<string>, linked: Result<GLuint, string>)
      returns (r: Result<ShaderProgram, string>)
      requires |sources| > 0 || linked.Failure?
      ensures r.Success? <==> AllRecognised(sources) && linked.Success?
      ensures !AllRecognised(sources) ==> r == Failure(UnrecognisedExtension)
      ensures AllRecognised(sources) && linked.Failure? ==> r == Failure(linked.error)
      ensures r.Success? ==> fresh(r.value) && r.value.program == linked.value
      ensures r.Success? ==> r.value.filenames == QuotedList(sources) && r.value.Cache() == UniformCache(map[], {})
    {
      var types := ShaderTypes(sources);
      if types.Failure? {
        return Failure(types.error);
      }
      if linked.Failure? {
        return Failure(linked.error);
      }
      var filenames := JoinFilenames(sources);
      var p := new ShaderProgram.Init(linked.value, filenames);
      return Success(p);
    }

    /** uniformLoc: a lookup through the cache; `warned` stands for the console warning. */
    method UniformLoc(name: string, queried: GLint, err: GLenum) returns (loc: GLint, warned: bool)
      modifies this
      ensures Lookup(loc, Cache(), warned) == LookupUniform(old(Cache()), name, queried, err)
      ensures program == old(program) && filenames == old(filenames)
    {
      if name in uniforms {
        loc := uniforms[name];
        warned := false;
      } else {
        loc := queried;
        warned := false;
        if loc == NotFoundLocation || err != GL_NO_ERROR {
          if name !in notFound {
            warned := true;
            notFound := notFound + {name};
          }
        } else {
          uniforms := uniforms[name := loc];
        }
      }
    }

    /**
     * The move constructor: takes the handle and zeroes the source's. The cache and the file
     * names are not moved, so the new object starts with them empty.
     */
    constructor Moved(other: ShaderProgram)
      modifies other
      ensures program == old(other.program) && other.program == 0
      ensures uniforms == map[] && notFound == {} && filenames == ""
      ensures other.uniforms == old(other.uniforms) && other.notFound == old(other.notFound)
      ensures other.filenames == old(other.filenames)
    {
      program := other.program;
      uniforms := map[];
      notFound := {};
      filenames := "";
      new;
      other.program := 0;
    }

    /**
     * The move assignment as written: only the handle moves. The target's old handle is
     * overwritten without being deleted, its cache and file names stay, and a self-assignment
     * zeroes the handle.
     */
    method MoveAssignAsWritten(other: ShaderProgram)
      modifies this, other
      ensures other != this ==> program == old(other.program) && other.program == 0
      ensures other == this ==> program == 0
      ensures uniforms == old(uniforms) && notFound == old(notFound) && filenames == old(filenames)
      ensures other != this ==>
                other.uniforms == old(other.uniforms) && other.notFound == old(other.notFound) &&
                other.filenames == old(other.filenames)
    {
      program := other.program;
      other.program := 0;
    }

    /**
     * Move assignment as intended: the target releases its old handle, then takes the
     * source's handle, cache and file names; the source is left empty. Self-assignment
     * changes nothing.
     */
    method MoveAssign(other: ShaderProgram) returns (released: Option<GLuint>)
      modifies this, other
      ensures other == this ==> released == None && program == old(program) && Cache() == old(Cache())
      ensures other == this ==> filenames == old(filenames)
      ensures other != this ==> released == (if old(program) != 0 then Some(old(program)) else None)
      ensures other != this ==>
                program == old(other.program) && Cache() == old(other.Cache()) &&
                filenames == old(other.filenames)
      ensures other != this ==>
                other.program == 0 && other.Cache() == UniformCache(map[], {}) && other.filenames == ""
    {
      if other == this {
        released := None;
      } else {
        released := if program != 0 then Some(program) else None;
        program, uniforms, notFound, filenames := other.program, other.uniforms, other.notFound, other.filenames;
        other.program, other.uniforms, other.notFound, other.filenames := 0, map[], {}, "";
      }
    }

    /** The destructor: deletes the handle only when it is not 0. */
    method Destroy() returns (deleted: Option<GLuint>)
      ensures deleted.Some? <==> program != 0
      ensures deleted.Some? ==> deleted.value == program
    {
      deleted := if program != 0 then Some(program) else None;
    }
  }

  // ---------------------------------------------------------------------------
  // Move assignment: the program as written against the intended behaviour

  /**
   * After `a = std::move(b)` as written, `a` answers a uniform query from the cache it built for
   * its old program (location 3) instead of asking `b`'s program (which reports 5).
   */
  method StaleLocationAfterMoveAssign() returns (loc: GLint)
    ensures loc == 3
  {
    var a := new ShaderProgram.Init(1, "\"a.vert\"");
    var _, _ := a.UniformLoc("mvp", 3, GL_NO_ERROR);
    var b := new ShaderProgram.Init(2, "\"b.vert\"");
    a.MoveAssignAsWritten(b);
    var warned;
    loc, warned := a.UniformLoc("mvp", 5, GL_NO_ERROR);
  }

  /** With the intended move assignment the same query reaches `b`'s program. */
  method CurrentLocationAfterMoveAssign() returns (loc: GLint)
    ensures loc == 5
  {
    var a := new ShaderProgram.Init(1, "\"a.vert\"");
    var _, _ := a.UniformLoc("mvp", 3, GL_NO_ERROR);
    var b := new ShaderProgram.Init(2, "\"b.vert\"");
    var _ := a.MoveAssign(b);
    var warned;
    loc, warned := a.UniformLoc("mvp", 5, GL_NO_ERROR);
  }

  /**
   * After `a = std::move(b)` as written and both destructors, only program 2 was deleted:
   * program 1, which `a` owned before the assignment, is never deleted.
   */
  method LeakedProgramAfterMoveAssign() returns (deleted: multiset<GLuint>)
    ensures deleted == multiset{2}
  {
    var a := new ShaderProgram.Init(1, "\"a.vert\"");
    var b := new ShaderProgram.Init(2, "\"b.vert\"");
    a.MoveAssignAsWritten(b);
    var da := a.Destroy();
    var db := b.Destroy();
    deleted := Elements(da) + Elements(db);
  }

  /** With the intended move assignment both programs are deleted, each once. */
  method ReleasedProgramsAfterMoveAssign() returns (deleted: multiset<GLuint>)
    ensures deleted == multiset{1, 2}
  {
    var a := new ShaderProgram.Init(1, "\"a.vert\"");
    var b := new ShaderProgram.Init(2, "\"b.vert\"");
    var released := a.MoveAssign(b);
    var da := a.Destroy();
    var db := b.Destroy();
    deleted := Elements(released) + Elements(da) + Elements(db);
  }
}
