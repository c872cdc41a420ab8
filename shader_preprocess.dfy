/**
 * ShaderProgram::preprocessSource (Week10 ShaderProgram.cpp): copies a shader source line by
 * line, replacing every `#pragma include <name>` line with the preprocessed contents of
 * `<directory of the top-level source>/<name>`.
 *
 * The file system is a map from path to contents; a path missing from it is a file that
 * cannot be opened. Include nesting is bounded by a `fuel` count: the source has no guard
 * against an include cycle and recurses without end on one, which the model shows as a
 * result that needs more fuel than any bound.
 */
module ShaderPreprocess {
  import opened Wrappers
  import Strings

  /** The prefix that marks an include line. */
  const IncludeDirective := "#pragma include "

  // ---------------------------------------------------------------------------
  // Lines as std::getline reads them

  /**
   * The lines std::getline yields: the text between newlines, with a final piece that lacks a
   * '\n' still read as a line, and no empty line after a trailing '\n'.
   */
  function Lines(s: string): (ls: seq<string>)
    ensures forall i :: 0 <= i < |ls| ==> '\n' !in ls[i]
    ensures s == [] <==> ls == []
    decreases |s|
  {
    if s == [] then []
    else match Strings.IndexOf(s, '\n')
      case None => [s]
      case Some(i) => [s[..i]] + Lines(s[i + 1..])
  }

  /** Lines written back, each followed by '\n', as `stream << line << "\n"` writes them. */
  function Unlines(ls: seq<string>): (s: string)
    ensures ls == [] <==> s == []
    ensures s != [] ==> s[|s| - 1] == '\n'
  {
    if ls == [] then "" else ls[0] + "\n" + Unlines(ls[1..])
  }

  /** Writing two runs of lines one after the other. */
  lemma {:induction false} UnlinesAppend(a: seq<string>, b: seq<string>)
    ensures Unlines(a + b) == Unlines(a) + Unlines(b)
    decreases |a|
  {
    if a != [] {
      assert (a + b)[1..] == a[1..] + b;
      UnlinesAppend(a[1..], b);
    } else {
      assert a + b == b;
    }
  }

  /** A line and its '\n' in front of a text are read as that line, then the lines of the text. */
  lemma LinesCons(line: string, rest: string)
    requires '\n' !in line
    ensures Lines(line + "\n" + rest) == [line] + Lines(rest)
  {
    var s := line + "\n" + rest;
    Strings.IndexOfJoin(line, '\n', rest);
    assert s == line + ['\n'] + rest;
    assert s[..|line|] == line;
    assert s[|line| + 1..] == rest;
  }

  /** A nonempty text without '\n' is one line. */
  lemma LinesNoNewline(s: string)
    requires s != [] && '\n' !in s
    ensures Lines(s) == [s]
  {
  }

  /** A final '\n' added to a text that lacks one does not change its lines. */
  lemma {:induction false} LinesAddNewline(s: string)
    requires s != [] && s[|s| - 1] != '\n'
    ensures Lines(s + "\n") == Lines(s)
    decreases |s|
  {
    match Strings.IndexOf(s, '\n')
    case None =>
      LinesCons(s, "");
      assert s + "\n" == s + "\n" + "";
    case Some(i) =>
      var rest := s[i + 1..];
      assert s == s[..i] + "\n" + rest;
      assert s + "\n" == s[..i] + "\n" + (rest + "\n");
      LinesCons(s[..i], rest);
      LinesCons(s[..i], rest + "\n");
      LinesAddNewline(rest);
  }

  /** Reading back written lines gives the same lines, when none holds a '\n'. */
  lemma {:induction false} LinesOfUnlines(ls: seq<string>)
    requires forall i :: 0 <= i < |ls| ==> '\n' !in ls[i]
    ensures Lines(Unlines(ls)) == ls
    decreases |ls|
  {
    if ls != [] {
      LinesCons(ls[0], Unlines(ls[1..]));
      LinesOfUnlines(ls[1..]);
    }
  }

  /** Writing back the lines read from an empty text or one that ends in '\n' gives it back. */
  lemma {:induction false} UnlinesOfLines(s: string)
    requires s == [] || s[|s| - 1] == '\n'
    ensures Unlines(Lines(s)) == s
    decreases |s|
  {
    if s != [] {
      match Strings.IndexOf(s, '\n')
      case None =>
      case Some(i) =>
        var rest := s[i + 1..];
        assert s == s[..i] + "\n" + rest;
        UnlinesOfLines(rest);
    }
  }

  // ---------------------------------------------------------------------------
  // Include resolution

  /** A line that starts with the include directive. */
  predicate IsIncludeLine(line: string)
  {
    |IncludeDirective| <= |line| && line[..|IncludeDirective|] == IncludeDirective
  }

  /**
   * std::filesystem::path::parent_path on a '/'-separated path: everything before the last
   * '/', the root "/" when that '/' is the first character, and "" when there is none.
   */
  function ParentPath(p: string): (dir: string)
    ensures '/' !in p ==> dir == ""
    ensures forall i :: 0 <= i < |p| && p[i] == '/' && '/' !in p[i + 1..] ==>
              dir == (if i == 0 then "/" else p[..i])
  {
    match Strings.LastIndexOf(p, '/')
    case None => ""
    case Some(k) =>
      if k == 0 then "/" else p[..k]
  }

  /** The file an include line names: the directory, '/', and the rest of the line. */
  function IncludePath(dir: string, line: string): (path: string)
    requires IsIncludeLine(line)
    ensures |path| == |dir| + 1 + |line| - |IncludeDirective|
    ensures path[..|dir|] == dir && path[|dir|] == '/' && path[|dir| + 1..] == line[|IncludeDirective|..]
  {
    dir + "/" + line[|IncludeDirective|..]
  }

  /** What getFileContents throws for a path it cannot open. */
  function MissingFile(path: string): string
  {
    "Could not open file \"" + path + "\"."
  }

  /**
   * The outcome of preprocessing a run of lines: the lines written, the message of the first
   * exception, or `TooDeep` when the includes nest deeper than the fuel allows.
   */
  datatype Expansion = Expanded(lines: seq<string>) | Failed(message: string) | TooDeep

  /** Lines already written in front of the outcome of the rest. */
  function After(written: seq<string>, e: Expansion): (r: Expansion)
    ensures e.Expanded? <==> r.Expanded?
    ensures e.Expanded? ==> r.lines == written + e.lines
    ensures !e.Expanded? ==> r == e
  {
    if e.Expanded? then Expanded(written + e.lines) else e
  }

  /** Writing `a` and then `b` in front of an outcome is writing `a + b` in front of it. */
  lemma AfterAfter(a: seq<string>, b: seq<string>, e: Expansion)
    ensures After(a, After(b, e)) == After(a + b, e)
  {
    if e.Expanded? {
      assert a + (b + e.lines) == (a + b) + e.lines;
    }
  }

  /**
   * preprocessSource on lines. A plain line is written as it is. An include line is
   * written as an empty line, the preprocessed included file, and another empty line (the two
   * "\n" around it); the included file's own includes are resolved against the same `dir`,
   * the directory of the top-level source. A file that cannot be opened stops everything.
   */
  function ExpandLines(lines: seq<string>, dir: string, files: map<string, string>, fuel: nat): (e: Expansion)
    ensures e.Expanded? ==> |e.lines| >= |lines|
    decreases fuel, |lines|
  {
    if lines == [] then Expanded([])
    else
      var line := lines[0];
      if IsIncludeLine(line) then
        var path := IncludePath(dir, line);
        if path !in files then Failed(MissingFile(path))
        else if fuel == 0 then TooDeep
        else match ExpandLines(Lines(files[path]), dir, files, fuel - 1)
          case Expanded(included) =>
            After([""] + included + [""], ExpandLines(lines[1..], dir, files, fuel))
          case other => other
      else After([line], ExpandLines(lines[1..], dir, files, fuel))
  }

  /** The text an expansion stands for: what preprocessSource returns, or the message it throws. */
  function Output(e: Expansion): (r: Result<string, string>)
    requires !e.TooDeep?
    ensures r.Success? <==> e.Expanded?
    ensures e.Failed? ==> r == Failure(e.message)
    ensures e.Expanded? ==> r == Success(Unlines(e.lines))
  {
    if e.Expanded? then Success(Unlines(e.lines)) else Failure(e.message)
  }

  /** The text preprocessSource returns for a source read from `sourcePath`. */
  function Preprocessed(source: string, sourcePath: string, files: map<string, string>, fuel: nat): (e: Expansion)
  {
    ExpandLines(Lines(source), ParentPath(sourcePath), files, fuel)
  }

  /** Writing a plain line keeps the loop's account of what is left to write. */
  lemma StepPlain(lines: seq<string>, i: nat, dir: string, files: map<string, string>, fuel: nat, written: seq<string>)
    requires i < |lines| && !IsIncludeLine(lines[i])
    requires After(written, ExpandLines(lines[i..], dir, files, fuel)) == ExpandLines(lines, dir, files, fuel)
    ensures After(written + [lines[i]], ExpandLines(lines[i + 1..], dir, files, fuel)) == ExpandLines(lines, dir, files, fuel)
    ensures Unlines(written + [lines[i]]) == Unlines(written) + lines[i] + "\n"
  {
    assert lines[i..][1..] == lines[i + 1..];
    UnlinesAppend(written, [lines[i]]);
    AfterAfter(written, [lines[i]], ExpandLines(lines[i + 1..], dir, files, fuel));
  }

  /** Writing an included file between two newlines keeps the loop's account. */
  lemma StepInclude(lines: seq<string>, i: nat, dir: string, files: map<string, string>, fuel: nat,
                    written: seq<string>, included: seq<string>)
    requires i < |lines| && IsIncludeLine(lines[i]) && IncludePath(dir, lines[i]) in files && fuel > 0
    requires ExpandLines(Lines(files[IncludePath(dir, lines[i])]), dir, files, fuel - 1) == Expanded(included)
    requires After(written, ExpandLines(lines[i..], dir, files, fuel)) == ExpandLines(lines, dir, files, fuel)
    ensures After(written + ([""] + included + [""]), ExpandLines(lines[i + 1..], dir, files, fuel)) ==
            ExpandLines(lines, dir, files, fuel)
    ensures Unlines(written + ([""] + included + [""])) == Unlines(written) + "\n" + Unlines(included) + "\n"
  {
    assert lines[i..][1..] == lines[i + 1..];
    UnlinesAppend(written, [""] + included + [""]);
    UnlinesAppend([""] + included, [""]);
    UnlinesAppend([""], included);
    AfterAfter(written, [""] + included + [""], ExpandLines(lines[i + 1..], dir, files, fuel));
  }

  /** An include line whose file is missing, or whose file fails, ends the whole run the same way. */
  lemma StepFails(lines: seq<string>, i: nat, dir: string, files: map<string, string>, fuel: nat, written: seq<string>)
    requires i < |lines|
    requires !ExpandLines(lines[i..], dir, files, fuel).Expanded?
    requires After(written, ExpandLines(lines[i..], dir, files, fuel)) == ExpandLines(lines, dir, files, fuel)
    ensures ExpandLines(lines, dir, files, fuel) == ExpandLines(lines[i..], dir, files, fuel)
  {
  }

  /**
   * preprocessSource: reads the source line by line and writes each line or the included
   * file, calling itself on each included file with the top-level `sourcePath`.
   */
  method PreprocessSource(source: string, sourcePath: string, files: map<string, string>, ghost fuel: nat)
    returns (r: Result<string, string>)
    requires !Preprocessed(source, sourcePath, files, fuel).TooDeep?
    ensures r == Output(Preprocessed(source, sourcePath, files, fuel))
    decreases fuel
  {
    var lines := Lines(source);
    var dir := ParentPath(sourcePath);
    var processed := "";
    ghost var written: seq<string> := [];
    var i := 0;
    while i < |lines|
      invariant 0 <= i <= |lines|
      invariant processed == Unlines(written)
      invariant After(written, ExpandLines(lines[i..], dir, files, fuel)) == ExpandLines(lines, dir, files, fuel)
      decreases |lines| - i
    {
      var line := lines[i];
      assert lines[i..][0] == line && lines[i..][1..] == lines[i + 1..];
      if IsIncludeLine(line) {
        var path := IncludePath(dir, line);
        if path !in files {
          StepFails(lines, i, dir, files, fuel, written);
          return Failure(MissingFile(path));
        }
        var sub := PreprocessSource(files[path], sourcePath, files, fuel - 1);
        if sub.Failure? {
          StepFails(lines, i, dir, files, fuel, written);
          return sub;
        }
        ghost var included := ExpandLines(Lines(files[path]), dir, files, fuel - 1).lines;
        StepInclude(lines, i, dir, files, fuel, written, included);
        processed := processed + "\n" + sub.value + "\n";
        written := written + ([""] + included + [""]);
      } else {
        StepPlain(lines, i, dir, files, fuel, written);
        processed := processed + line + "\n";
        written := written + [line];
      }
      i := i + 1;
    }
    assert lines[i..] == [];
    assert written + [] == written;
    return Success(processed);
  }

  // ---------------------------------------------------------------------------
  // Properties

  /** Once the includes fit in the fuel, more fuel changes nothing. */
  lemma {:induction false} FuelMonotone(lines: seq<string>, dir: string, files: map<string, string>, fuel: nat, more: nat)
    requires !ExpandLines(lines, dir, files, fuel).TooDeep?
    requires fuel <= more
    ensures ExpandLines(lines, dir, files, more) == ExpandLines(lines, dir, files, fuel)
    decreases fuel, |lines|
  {
    if lines != [] {
      var line := lines[0];
      if IsIncludeLine(line) {
        var path := IncludePath(dir, line);
        if path in files {
          FuelMonotone(Lines(files[path]), dir, files, fuel - 1, more - 1);
          if ExpandLines(Lines(files[path]), dir, files, fuel - 1).Expanded? {
            FuelMonotone(lines[1..], dir, files, fuel, more);
          }
        }
      } else {
        FuelMonotone(lines[1..], dir, files, fuel, more);
      }
    }
  }

  /** No line is an include line. */
  ghost predicate NoIncludes(lines: seq<string>)
  {
    forall i :: 0 <= i < |lines| ==> !IsIncludeLine(lines[i])
  }

  /** No line holds a '\n'. */
  ghost predicate SingleLines(lines: seq<string>)
  {
    forall i :: 0 <= i < |lines| ==> '\n' !in lines[i]
  }

  /** Lines without an include line are written unchanged, whatever the directory or files. */
  lemma {:induction false} PlainLinesCopied(lines: seq<string>, dir: string, files: map<string, string>, fuel: nat)
    requires NoIncludes(lines)
    ensures ExpandLines(lines, dir, files, fuel) == Expanded(lines)
    decreases |lines|
  {
    if lines != [] {
      assert !IsIncludeLine(lines[0]);
      PlainLinesCopied(lines[1..], dir, files, fuel);
      assert [lines[0]] + lines[1..] == lines;
    }
  }

  /**
   * A source without include lines that is empty or ends in '\n' comes back unchanged; one
   * that ends without a '\n' gains exactly one.
   */
  lemma {:induction false} PlainSourceUnchanged(source: string, sourcePath: string, files: map<string, string>, fuel: nat)
    requires NoIncludes(Lines(source))
    ensures Preprocessed(source, sourcePath, files, fuel) == Expanded(Lines(source))
    ensures source == [] || source[|source| - 1] == '\n' ==> Unlines(Lines(source)) == source
    ensures source != [] && source[|source| - 1] != '\n' ==> Unlines(Lines(source)) == source + "\n"
  {
    PlainLinesCopied(Lines(source), ParentPath(sourcePath), files, fuel);
    if source == [] || source[|source| - 1] == '\n' {
      UnlinesOfLines(source);
    } else {
      UnlinesOfLines(source + "\n");
      LinesAddNewline(source);
    }
  }

  /** Every line written is a plain line or an empty one: no include survives, none holds '\n'. */
  lemma {:induction false} ExpandedIsPlain(lines: seq<string>, dir: string, files: map<string, string>, fuel: nat)
    requires SingleLines(lines)
    requires ExpandLines(lines, dir, files, fuel).Expanded?
    ensures NoIncludes(ExpandLines(lines, dir, files, fuel).lines)
    ensures SingleLines(ExpandLines(lines, dir, files, fuel).lines)
    decreases fuel, |lines|
  {
    if lines != [] {
      var line := lines[0];
      var rest := ExpandLines(lines[1..], dir, files, fuel);
      if IsIncludeLine(line) {
        var path := IncludePath(dir, line);
        var included := ExpandLines(Lines(files[path]), dir, files, fuel - 1).lines;
        ExpandedIsPlain(Lines(files[path]), dir, files, fuel - 1);
        ExpandedIsPlain(lines[1..], dir, files, fuel);
        var out := [""] + included + [""] + rest.lines;
        assert ExpandLines(lines, dir, files, fuel).lines == out;
        forall k | 0 <= k < |out|
          ensures !IsIncludeLine(out[k]) && '\n' !in out[k]
        {
          if k == 0 || k == |included| + 1 {
          } else if k <= |included| {
            assert out[k] == included[k - 1];
          } else {
            assert out[k] == rest.lines[k - |included| - 2];
          }
        }
      } else {
        ExpandedIsPlain(lines[1..], dir, files, fuel);
        var out := [line] + rest.lines;
        assert ExpandLines(lines, dir, files, fuel).lines == out;
        forall k | 0 <= k < |out|
          ensures !IsIncludeLine(out[k]) && '\n' !in out[k]
        {
          if k > 0 {
            assert out[k] == rest.lines[k - 1];
          }
        }
      }
    }
  }

  /** Preprocessing is idempotent: the output has no include lines left to expand. */
  lemma {:induction false} PreprocessIdempotent(source: string, sourcePath: string, files: map<string, string>, fuel: nat)
    requires Preprocessed(source, sourcePath, files, fuel).Expanded?
    ensures var out := Unlines(Preprocessed(source, sourcePath, files, fuel).lines);
            Preprocessed(out, sourcePath, files, fuel) == Expanded(Lines(out)) && Lines(out) == Preprocessed(source, sourcePath, files, fuel).lines
  {
    var e := Preprocessed(source, sourcePath, files, fuel);
    ExpandedIsPlain(Lines(source), ParentPath(sourcePath), files, fuel);
    LinesOfUnlines(e.lines);
    PlainSourceUnchanged(Unlines(e.lines), sourcePath, files, fuel);
  }

  /**
   * A file that includes itself is never finished: no fuel is enough, just as the source
   * recurses without end.
   */
  lemma {:induction false} SelfIncludeTooDeep(dir: string, name: string, files: map<string, string>, fuel: nat)
    requires '\n' !in name
    requires dir + "/" + name in files && files[dir + "/" + name] == IncludeDirective + name
    ensures ExpandLines([IncludeDirective + name], dir, files, fuel) == TooDeep
    decreases fuel
  {
    var line := IncludeDirective + name;
    assert line[..|IncludeDirective|] == IncludeDirective;
    assert line[|IncludeDirective|..] == name;
    assert '\n' !in line;
    LinesNoNewline(line);
    if fuel > 0 {
      SelfIncludeTooDeep(dir, name, files, fuel - 1);
    }
  }

  /**
   * A nested include is looked up in the top-level source's directory, not in the directory of
   * the file that contains it: a file `dir/a` whose only line includes `b` brings in `dir/b`,
   * whatever directories `a` names.
   */
  lemma NestedIncludeUsesTopDirectory(dir: string, a: string, b: string, inner: string, files: map<string, string>)
    requires '\n' !in a && '\n' !in b
    requires dir + "/" + a in files && files[dir + "/" + a] == IncludeDirective + b
    requires dir + "/" + b in files && files[dir + "/" + b] == inner && NoIncludes(Lines(inner))
    ensures ExpandLines([IncludeDirective + a], dir, files, 2) == Expanded(["", ""] + Lines(inner) + ["", ""])
  {
    var outer, nested := IncludeDirective + a, IncludeDirective + b;
    assert outer[..|IncludeDirective|] == IncludeDirective && outer[|IncludeDirective|..] == a;
    assert nested[..|IncludeDirective|] == IncludeDirective && nested[|IncludeDirective|..] == b;
    assert IncludePath(dir, outer) == dir + "/" + a;
    assert IncludePath(dir, nested) == dir + "/" + b;
    LinesNoNewline(nested);
    PlainLinesCopied(Lines(inner), dir, files, 0);
    assert ExpandLines([nested], dir, files, 1) == Expanded([""] + Lines(inner) + [""]);
    assert [""] + ([""] + Lines(inner) + [""]) + [""] == ["", ""] + Lines(inner) + ["", ""];
  }
}
