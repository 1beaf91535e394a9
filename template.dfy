/**
 * The line-by-line template expander shared by preloader.js and the two
 * placeholder.js generators. A template has an import section, ended by the
 * first line holding `${import-statements}`, a service section, ended by
 * the next line holding `${service-list}`, and the remaining lines. Each tag
 * line is replaced by generated text; every other line is copied with a
 * newline. Also the output formatting both generators apply.
 */
module Templates {
  import opened Wrappers
  import opened JsString

  const ImportTag: string := "${import-statements}"
  const ServiceTag: string := "${service-list}"

  /** The message `main` throws for a template without both tags. */
  const InvalidTemplate: string := "Invalid preload.template - missing ${import-statements} and ${service-list} tags"

  /** The `section` field of `LineMetadata`. */
  datatype Section = Import | Service | Remaining

  /**
   * What a generator puts in place of the two tags: whole lines for the
   * import tag, and statements that are written with the service tag's
   * indentation.
   */
  datatype Expansion = Expansion(imports: seq<string>, services: seq<string>)

  /** A file a generator writes: its path and its content. */
  datatype Generated = Generated(file: string, content: string)

  /** The `LineMetadata` of an expansion in progress. */
  datatype Meta = Meta(sb: string, section: Section)

  /** Each line followed by a newline. */
  function Lines(xs: seq<string>): (r: string)
    ensures xs == [] ==> r == ""
  {
    if xs == [] then "" else Lines(xs[..|xs| - 1]) + xs[|xs| - 1] + "\n"
  }

  lemma {:induction false} LinesAppend(xs: seq<string>, ys: seq<string>)
    ensures Lines(xs + ys) == Lines(xs) + Lines(ys)
    decreases |ys|
  {
    if ys == [] {
      assert xs + ys == xs;
    } else {
      var init := ys[..|ys| - 1];
      LinesAppend(xs, init);
      assert (xs + ys)[..|xs + ys| - 1] == xs + init;
      assert (xs + ys)[|xs + ys| - 1] == ys[|ys| - 1];
    }
  }

  /** Every statement, preceded by `spaces`, on a line of its own. */
  function Indented(spaces: string, stmts: seq<string>): string {
    if stmts == [] then "" else Indented(spaces, stmts[..|stmts| - 1]) + spaces + stmts[|stmts| - 1] + "\n"
  }

  lemma LinesStep(xs: seq<string>, i: nat)
    requires i < |xs|
    ensures Lines(xs[..i + 1]) == Lines(xs[..i]) + (xs[i] + "\n")
  {
    var p := xs[..i + 1];
    assert p[..|p| - 1] == xs[..i];
    AppendAssoc(Lines(xs[..i]), xs[i], "\n");
  }

  lemma IndentedStep(spaces: string, xs: seq<string>, i: nat)
    requires i < |xs|
    ensures Indented(spaces, xs[..i + 1]) == Indented(spaces, xs[..i]) + (spaces + xs[i] + "\n")
  {
    var p := xs[..i + 1];
    assert p[..|p| - 1] == xs[..i];
    assert Indented(spaces, xs[..i]) + spaces + xs[i] + "\n" == Indented(spaces, xs[..i]) + (spaces + xs[i] + "\n");
  }

  lemma AppendAssoc(a: string, b: string, c: string)
    ensures a + b + c == a + (b + c)
  {
  }

  /** The white space before the service tag, `line.substring(0, line.indexOf(SERVICE_TAG))`. */
  function Indent(line: string): (r: string)
    requires Includes(line, ServiceTag)
    ensures |r| <= |line| && line == r + line[|r|..] && StartsWith(line[|r|..], ServiceTag)
  {
    var idx := IndexOf(line, ServiceTag);
    assert line[idx..][..|ServiceTag|] == ServiceTag;
    Substring(line, 0, idx)
  }

  /** What one template line does to the metadata: the per-line body of the generators' loop. */
  function Step(m: Meta, line: string, e: Expansion): Meta {
    match m.section
    case Import =>
      if Includes(line, ImportTag) then Meta(m.sb + Lines(e.imports), Service)
      else Meta(m.sb + line + "\n", Import)
    case Service =>
      if Includes(line, ServiceTag) then Meta(m.sb + Indented(Indent(line), e.services), Remaining)
      else Meta(m.sb + line + "\n", Service)
    case Remaining => Meta(m.sb + line + "\n", Remaining)
  }

  /** The metadata after the whole template, starting from `new LineMetadata()`. */
  function Expand(lines: seq<string>, e: Expansion): Meta {
    if lines == [] then Meta("", Import) else Step(Expand(lines[..|lines| - 1], e), lines[|lines| - 1], e)
  }

  /** The index of the first line at or after `from` holding `tag`, or `|lines|`. */
  function FirstWith(lines: seq<string>, tag: string, from: nat): (r: nat)
    requires from <= |lines|
    ensures from <= r <= |lines|
    ensures r < |lines| ==> Includes(lines[r], tag)
    ensures forall k :: from <= k < r ==> !Includes(lines[k], tag)
    decreases |lines| - from
  {
    if from == |lines| then from
    else if Includes(lines[from], tag) then from
    else FirstWith(lines, tag, from + 1)
  }

  /** A line that does not end section `s`. */
  predicate Keeps(s: Section, line: string) {
    && (s == Import ==> !Includes(line, ImportTag))
    && (s == Service ==> !Includes(line, ServiceTag))
  }

  /** A line that does not end the current section is copied after what the section holds so far. */
  lemma StepCopies(m: Meta, line: string, e: Expansion, base: string, rest: string)
    requires m == Meta(base + rest, m.section) && Keeps(m.section, line)
    ensures Step(m, line, e) == Meta(base + (rest + line + "\n"), m.section)
  {
    assert m.sb + line + "\n" == base + (rest + line + "\n");
  }

  /** Expanding one more line of the template. */
  lemma {:induction false} ExpandExtend(lines: seq<string>, e: Expansion, n: nat)
    requires 0 < n <= |lines|
    ensures Expand(lines[..n], e) == Step(Expand(lines[..n - 1], e), lines[n - 1], e)
  {
    assert lines[..n][..n - 1] == lines[..n - 1];
  }

  /** Lines that do not end the section reached after `a` lines are copied into it. */
  lemma {:induction false} CopyRun(lines: seq<string>, e: Expansion, a: nat, n: nat, s: Section)
    requires a <= n <= |lines|
    requires Expand(lines[..a], e).section == s
    requires forall k :: a <= k < n ==> Keeps(s, lines[k])
    ensures Expand(lines[..n], e) == Meta(Expand(lines[..a], e).sb + Lines(lines[a..n]), s)
  {
    var start := Expand(lines[..a], e);
    if n == a {
      assert lines[a..n] == [];
    } else {
      var m := Expand(lines[..n - 1], e);
      var rest := Lines(lines[a..n - 1]);
      assert m == Meta(start.sb + rest, start.section) by {
        CopyRun(lines, e, a, n - 1, s);
      }
      assert Expand(lines[..n], e) == Step(m, lines[n - 1], e) by {
        ExpandExtend(lines, e, n);
      }
      assert Step(m, lines[n - 1], e) == Meta(start.sb + (rest + lines[n - 1] + "\n"), start.section) by {
        assert Keeps(start.section, lines[n - 1]);
        StepCopies(m, lines[n - 1], e, start.sb, rest);
      }
      LinesSliceStep(lines, a, n);
    }
  }

  lemma LinesSliceStep(lines: seq<string>, a: nat, n: nat)
    requires a < n <= |lines|
    ensures Lines(lines[a..n]) == Lines(lines[a..n - 1]) + lines[n - 1] + "\n"
  {
    var p := lines[a..n];
    assert p[..|p| - 1] == lines[a..n - 1];
  }

  /** A template without an import tag is copied line by line, and stays in the import section. */
  lemma ExpandWithoutImportTag(lines: seq<string>, e: Expansion)
    requires forall k :: 0 <= k < |lines| ==> !Includes(lines[k], ImportTag)
    ensures Expand(lines, e) == Meta(Lines(lines), Import)
  {
    assert lines[..0] == [] && lines[0..] == lines && lines[..|lines|] == lines;
    CopyRun(lines, e, 0, |lines|, Import);
  }

  /** Up to the first import tag, at `i`, the template is copied; the tag line becomes the imports. */
  lemma {:induction false} ExpandToImportTag(lines: seq<string>, e: Expansion, i: nat)
    requires i == FirstWith(lines, ImportTag, 0) && i < |lines|
    ensures Expand(lines[..i + 1], e) == Meta(Lines(lines[..i]) + Lines(e.imports), Service)
  {
    assert Expand(lines[..i], e) == Meta(Lines(lines[..i]), Import) by {
      assert lines[..0] == [] && lines[0..i] == lines[..i];
      CopyRun(lines, e, 0, i, Import);
    }
    ExpandExtend(lines, e, i + 1);
  }

  /** Between the import tag at `i` and the next service tag, or the end, lines are copied after the imports. */
  lemma {:induction false} ExpandToServiceTag(lines: seq<string>, e: Expansion, i: nat, j: nat)
    requires i == FirstWith(lines, ImportTag, 0) && i < |lines|
    requires j == FirstWith(lines, ServiceTag, i + 1)
    ensures Expand(lines[..j], e) == Meta(Lines(lines[..i]) + Lines(e.imports) + Lines(lines[i + 1..j]), Service)
  {
    ExpandToImportTag(lines, e, i);
    CopyRun(lines, e, i + 1, j, Service);
  }

  /**
   * A template whose import tag, on line `i`, has no service tag after it:
   * the lines before `i`, the imports, then the rest copied.
   */
  lemma ExpandWithoutServiceTag(lines: seq<string>, e: Expansion, i: nat)
    requires i == FirstWith(lines, ImportTag, 0) && i < |lines|
    requires FirstWith(lines, ServiceTag, i + 1) == |lines|
    ensures Expand(lines, e) == Meta(Lines(lines[..i]) + Lines(e.imports) + Lines(lines[i + 1..]), Service)
  {
    ExpandToServiceTag(lines, e, i, |lines|);
    assert lines[..|lines|] == lines && lines[i + 1..|lines|] == lines[i + 1..];
  }

  /** The service tag line, reached in the service section, becomes the indented statements. */
  lemma {:induction false} ExpandServiceTagLine(lines: seq<string>, e: Expansion, j: nat, base: string)
    requires j < |lines| && Includes(lines[j], ServiceTag)
    requires Expand(lines[..j], e) == Meta(base, Service)
    ensures Expand(lines[..j + 1], e) == Meta(base + Indented(Indent(lines[j]), e.services), Remaining)
  {
    ExpandExtend(lines, e, j + 1);
  }

  /** Once the service section has ended, every further line is copied as text. */
  lemma {:induction false} ExpandAfterServiceTag(lines: seq<string>, e: Expansion, j: nat, base: string)
    requires j < |lines|
    requires Expand(lines[..j + 1], e) == Meta(base, Remaining)
    ensures Expand(lines, e) == Meta(base + Lines(lines[j + 1..]), Remaining)
  {
    assert forall k :: j + 1 <= k < |lines| ==> Keeps(Remaining, lines[k]);
    CopyRun(lines, e, j + 1, |lines|, Remaining);
    assert lines[..|lines|] == lines && lines[j + 1..|lines|] == lines[j + 1..];
  }

  /**
   * The layout of a generated file: with the first import tag on line `i`
   * and the first service tag after it on line `j`, the output is the lines
   * before `i`, the imports, the lines strictly between, the statements
   * indented like the service tag, and the lines after `j`. Tags anywhere
   * else are copied as text.
   */
  lemma {:induction false} ExpandLayout(lines: seq<string>, e: Expansion, i: nat, j: nat)
    requires i == FirstWith(lines, ImportTag, 0) && i < |lines|
    requires j == FirstWith(lines, ServiceTag, i + 1) && j < |lines|
    ensures Expand(lines, e) == Meta(Lines(lines[..i]) + Lines(e.imports) + Lines(lines[i + 1..j])
                                     + Indented(Indent(lines[j]), e.services) + Lines(lines[j + 1..]), Remaining)
  {
    var beforeServices := Lines(lines[..i]) + Lines(e.imports) + Lines(lines[i + 1..j]);
    ExpandToServiceTag(lines, e, i, j);
    ExpandServiceTagLine(lines, e, j, beforeServices);
    ExpandAfterServiceTag(lines, e, j, beforeServices + Indented(Indent(lines[j]), e.services));
  }

  /** `class LineMetadata`. */
  class LineMetadata {
    var sb: string
    var section: Section

    constructor ()
      ensures sb == "" && section == Import
    {
      sb, section := "", Import;
    }

    /** `handleImportEntry(md, line)`: the tag line becomes the imports and opens the service section. */
    method HandleImportEntry(line: string, e: Expansion) returns (handled: bool)
      modifies this
      ensures handled <==> Includes(line, ImportTag)
      ensures handled ==> sb == old(sb) + Lines(e.imports) && section == Service
      ensures !handled ==> sb == old(sb) + line + "\n" && section == old(section)
    {
      if Includes(line, ImportTag) {
        var i := 0;
        while i < |e.imports|
          invariant 0 <= i <= |e.imports|
          invariant sb == old(sb) + Lines(e.imports[..i])
        {
          LinesStep(e.imports, i);
          AppendAssoc(old(sb), Lines(e.imports[..i]), e.imports[i] + "\n");
          sb := sb + (e.imports[i] + "\n");
          i := i + 1;
        }
        assert e.imports[..i] == e.imports;
        section := Service;
        handled := true;
      } else {
        sb := sb + line + "\n";
        handled := false;
      }
    }

    /** `handleServiceEntry(md, line)`: the tag line becomes the statements, indented like the tag. */
    method HandleServiceEntry(line: string, e: Expansion) returns (handled: bool)
      modifies this
      ensures handled <==> Includes(line, ServiceTag)
      ensures handled ==> sb == old(sb) + Indented(Indent(line), e.services) && section == Remaining
      ensures !handled ==> sb == old(sb) + line + "\n" && section == old(section)
    {
      if Includes(line, ServiceTag) {
        var idx := IndexOf(line, ServiceTag);
        var spaces := Substring(line, 0, idx);
        var i := 0;
        while i < |e.services|
          invariant 0 <= i <= |e.services|
          invariant sb == old(sb) + Indented(spaces, e.services[..i])
        {
          IndentedStep(spaces, e.services, i);
          AppendAssoc(old(sb), Indented(spaces, e.services[..i]), spaces + e.services[i] + "\n");
          sb := sb + (spaces + e.services[i] + "\n");
          i := i + 1;
        }
        assert e.services[..i] == e.services;
        section := Remaining;
        handled := true;
      } else {
        sb := sb + line + "\n";
        handled := false;
      }
    }
  }

  /** The generators' loop over the template lines. */
  method ExpandTemplate(lines: seq<string>, e: Expansion) returns (sb: string)
    ensures sb == Expand(lines, e).sb
  {
    var md := new LineMetadata();
    for i := 0 to |lines|
      invariant Meta(md.sb, md.section) == Expand(lines[..i], e)
    {
      assert lines[..i + 1][..i] == lines[..i];
      var line := lines[i];
      if md.section == Import {
        var handled := md.HandleImportEntry(line, e);
        if handled {
          continue;
        }
      }
      if md.section == Service {
        var handled := md.HandleServiceEntry(line, e);
        if handled {
          continue;
        }
      }
      if md.section == Remaining {
        md.sb := md.sb + line + "\n";
      }
    }
    assert lines[..|lines|] == lines;
    sb := md.sb;
  }

  /** One line of the formatted output: a line that is only `//` becomes empty, any other loses its trailing white space. */
  function FormatLine(line: string): (r: string)
    ensures |r| >= 1 && r[|r| - 1] == '\n'
    ensures |r| == 1 || !IsSpace(r[|r| - 2])
    ensures Trim(line) == "//" ==> r == "\n"
    ensures Trim(line) != "//" ==>
      |r| - 1 <= |line| && r[..|r| - 1] == line[..|r| - 1]
      && forall i :: |r| - 1 <= i < |line| ==> IsSpace(line[i])
  {
    if Trim(line) == "//" then "\n" else TrimEnd(line) + "\n"
  }

  /** The formatted lines, concatenated. */
  function Formatted(lines: seq<string>): string {
    if lines == [] then "" else Formatted(lines[..|lines| - 1]) + FormatLine(lines[|lines| - 1])
  }

  lemma FormattedStep(lines: seq<string>, i: nat)
    requires i < |lines|
    ensures Formatted(lines[..i + 1]) == Formatted(lines[..i]) + FormatLine(lines[i])
  {
    var p := lines[..i + 1];
    assert p[..|p| - 1] == lines[..i];
  }

  /** The formatted text: trimmed at both ends and closed by exactly one newline. */
  function Finish(text: string): (r: string)
    ensures |r| >= 1 && r[|r| - 1] == '\n'
    ensures |r| > 1 ==> !IsSpace(r[0]) && !IsSpace(r[|r| - 2])
  {
    Trim(text) + "\n"
  }

  /**
   * `formatOutput(content)`: the content is cut into lines with
   * `Utility.split(content, '\r\n')`, which drops empty lines, then each line
   * is formatted and the whole is trimmed.
   */
  method FormatOutput(content: string) returns (r: string)
    ensures r == Finish(Formatted(Split(content, "\r\n")))
  {
    var lines := Split(content, "\r\n");
    var result := FormatLines(lines);
    r := Trim(result) + "\n";
  }

  /** The loop of `formatOutput`: each line formatted and appended to the result. */
  method FormatLines(lines: seq<string>) returns (result: string)
    ensures result == Formatted(lines)
  {
    result := "";
    for i := 0 to |lines|
      invariant result == Formatted(lines[..i])
    {
      FormattedStep(lines, i);
      result := result + FormatLine(lines[i]);
    }
    assert lines[..|lines|] == lines;
  }

  /** A text piece that is already clean: no line break, no trailing white space, not a `//` line. */
  predicate CleanLine(line: string) {
    IsToken(line, "\r\n") && !IsSpace(line[|line| - 1]) && Trim(line) != "//"
  }

  predicate AllClean(lines: seq<string>) {
    forall k :: 0 <= k < |lines| ==> CleanLine(lines[k])
  }

  lemma AllCleanConcat(a: seq<string>, b: seq<string>)
    requires AllClean(a) && AllClean(b)
    ensures AllClean(a + b)
  {
    forall k | 0 <= k < |a + b|
      ensures CleanLine((a + b)[k])
    {
      if k >= |a| {
        assert (a + b)[k] == b[k - |a|];
      }
    }
  }

  lemma {:induction false} FormattedClean(lines: seq<string>)
    requires AllClean(lines)
    ensures Formatted(lines) == Lines(lines)
  {
    if lines != [] {
      var init, last := lines[..|lines| - 1], lines[|lines| - 1];
      AllCleanPrefix(lines);
      FormattedClean(init);
      CleanFormatLine(last);
      assert Lines(init) + (last + "\n") == Lines(init) + last + "\n";
    }
  }

  lemma AllCleanPrefix(lines: seq<string>)
    requires AllClean(lines) && lines != []
    ensures AllClean(lines[..|lines| - 1])
  {
    var init := lines[..|lines| - 1];
    forall k | 0 <= k < |init| ensures CleanLine(init[k]) {
      assert init[k] == lines[k];
    }
  }

  lemma CleanFormatLine(line: string)
    requires CleanLine(line)
    ensures FormatLine(line) == line + "\n"
  {
    assert TrimEnd(line) == line;
  }

  /** The lines of `Lines(xs)` come back from `Utility.split(_, '\r\n')` when none holds a line break. */
  lemma SplitLines(xs: seq<string>)
    requires forall k :: 0 <= k < |xs| ==> IsToken(xs[k], "\r\n")
    ensures Split(Lines(xs), "\r\n") == xs
  {
    if xs != [] {
      LinesAsJoin(xs);
      SplitJoin(xs, '\n', "\r\n");
      assert Lines(xs) == Join(xs, "\n") + ['\n'] + [];
      SplitAccCut(Join(xs, "\n"), '\n', [], "\r\n", []);
    }
  }

  lemma {:induction false} LinesAsJoin(xs: seq<string>)
    requires xs != []
    ensures Lines(xs) == Join(xs, "\n") + "\n"
  {
    if |xs| > 1 {
      var init := xs[..|xs| - 1];
      LinesAsJoin(init);
      assert Lines(xs) == Join(init, "\n") + "\n" + xs[|xs| - 1] + "\n";
    } else {
      assert xs[..0] == [];
    }
  }

  /**
   * Formatting leaves clean lines as they are: each line written with a
   * newline, none holding a line break or trailing white space or being
   * `//`, the first without leading white space, comes out unchanged.
   */
  lemma FormatKeepsCleanLines(lines: seq<string>)
    requires |lines| >= 1 && AllClean(lines)
    requires lines[0] != [] && !IsSpace(lines[0][0])
    ensures Finish(Formatted(Split(Lines(lines), "\r\n"))) == Lines(lines)
  {
    SplitLines(lines);
    FormattedClean(lines);
    TrimClean(lines);
  }

  /** Text starting and ending with non-white characters is its own trim. */
  lemma TrimClean(lines: seq<string>)
    requires |lines| >= 1 && AllClean(lines)
    requires lines[0] != [] && !IsSpace(lines[0][0])
    ensures Trim(Lines(lines)) + "\n" == Lines(lines)
  {
    var t := Lines(lines);
    var last := lines[|lines| - 1];
    assert CleanLine(last);
    assert t == Lines(lines[..|lines| - 1]) + last + "\n";
    var body := Lines(lines[..|lines| - 1]) + last;
    assert t == body + "\n";
    LinesFirst(lines);
    assert body[0] == lines[0][0];
    assert TrimStart(t) == t;
    assert TrimEnd(t) == TrimEnd(body) by {
      assert t[..|t| - 1] == body;
    }
    assert TrimEnd(body) == body;
  }

  lemma {:induction false} LinesFirst(lines: seq<string>)
    requires |lines| >= 1 && lines[0] != []
    ensures |Lines(lines)| > 0 && Lines(lines)[0] == lines[0][0]
  {
    if |lines| > 1 {
      LinesFirst(lines[..|lines| - 1]);
    }
  }

  /** The statements a service tag expands to, each behind the tag's indentation. */
  function IndentAll(spaces: string, stmts: seq<string>): (r: seq<string>)
    ensures |r| == |stmts|
  {
    seq(|stmts|, k requires 0 <= k < |stmts| => spaces + stmts[k])
  }

  lemma {:induction false} IndentedLines(spaces: string, stmts: seq<string>)
    ensures Indented(spaces, stmts) == Lines(IndentAll(spaces, stmts))
  {
    if stmts != [] {
      var init, last := stmts[..|stmts| - 1], stmts[|stmts| - 1];
      IndentedLines(spaces, init);
      var all := IndentAll(spaces, stmts);
      assert all[..|all| - 1] == IndentAll(spaces, init);
      assert Lines(all) == Lines(IndentAll(spaces, init)) + (spaces + last) + "\n";
    }
  }

  /** The lines of the expansion of a template whose tags are on lines `i` and `j`. */
  function LayoutLines(lines: seq<string>, e: Expansion, i: nat, j: nat): seq<string>
    requires i < j < |lines| && Includes(lines[j], ServiceTag)
  {
    lines[..i] + e.imports + lines[i + 1..j] + IndentAll(Indent(lines[j]), e.services) + lines[j + 1..]
  }

  /** The expanded text is the layout's lines, each followed by a newline. */
  lemma ExpandAsLines(lines: seq<string>, e: Expansion, i: nat, j: nat)
    requires i == FirstWith(lines, ImportTag, 0) && i < |lines|
    requires j == FirstWith(lines, ServiceTag, i + 1) && j < |lines|
    ensures Expand(lines, e).sb == Lines(LayoutLines(lines, e, i, j))
  {
    var sp := Indent(lines[j]);
    assert Expand(lines, e).sb == Lines(lines[..i]) + Lines(e.imports) + Lines(lines[i + 1..j])
                                  + Indented(sp, e.services) + Lines(lines[j + 1..]) by {
      ExpandLayout(lines, e, i, j);
    }
    LayoutText(lines, e, i, j, Expand(lines, e).sb);
  }

  lemma LayoutText(lines: seq<string>, e: Expansion, i: nat, j: nat, sb: string)
    requires i < j < |lines| && Includes(lines[j], ServiceTag)
    requires sb == Lines(lines[..i]) + Lines(e.imports) + Lines(lines[i + 1..j])
                   + Indented(Indent(lines[j]), e.services) + Lines(lines[j + 1..])
    ensures sb == Lines(LayoutLines(lines, e, i, j))
  {
    IndentedLines(Indent(lines[j]), e.services);
    LinesAppend5(lines[..i], e.imports, lines[i + 1..j], IndentAll(Indent(lines[j]), e.services), lines[j + 1..]);
  }

  lemma LinesAppend5(p1: seq<string>, p2: seq<string>, p3: seq<string>, p4: seq<string>, p5: seq<string>)
    ensures Lines(p1 + p2 + p3 + p4 + p5) == Lines(p1) + Lines(p2) + Lines(p3) + Lines(p4) + Lines(p5)
  {
    LinesAppend(p1, p2);
    LinesAppend(p1 + p2, p3);
    LinesAppend(p1 + p2 + p3, p4);
    LinesAppend(p1 + p2 + p3 + p4, p5);
  }

  /** The pieces `Utility.split(_, '\r\n')` makes of each line in turn: empty lines vanish and a line holding a break is cut there. */
  function Pieces(xs: seq<string>): seq<string> {
    if xs == [] then [] else Pieces(xs[..|xs| - 1]) + Split(xs[|xs| - 1], "\r\n")
  }

  /** Splitting text written line by line gives the pieces of its lines, whatever the lines hold. */
  lemma {:induction false} SplitLinesPieces(xs: seq<string>)
    ensures Split(Lines(xs), "\r\n") == Pieces(xs)
  {
    if xs != [] {
      var init, last := xs[..|xs| - 1], xs[|xs| - 1];
      SplitLinesPieces(init);
      var a := Lines(init);
      SplitLineEnd(a + last);
      if init == [] {
        assert a + last == last;
      } else {
        var b := Lines(init[..|init| - 1]) + init[|init| - 1];
        assert a + last == b + ['\n'] + last;
        SplitAfterBreak(b, last);
      }
    }
  }

  /** A closing newline adds no piece. */
  lemma SplitLineEnd(t: string)
    ensures Split(t + "\n", "\r\n") == Split(t, "\r\n")
  {
    assert t + "\n" == t + ['\n'] + [];
    SplitAccCut(t, '\n', [], "\r\n", []);
  }

  /** The text after a newline is split apart from the text before it. */
  lemma SplitAfterBreak(b: string, last: string)
    ensures Split(b + ['\n'] + last, "\r\n") == Split(b + ['\n'], "\r\n") + Split(last, "\r\n")
  {
    SplitAccCut(b, '\n', last, "\r\n", []);
    SplitLineEnd(b);
  }

  /**
   * The file `formatOutput` writes for any template with both tags in
   * order: the layout's lines, cut into pieces by `Utility.split`, each
   * piece formatted (`//` emptied, trailing white space dropped), and the
   * whole trimmed and closed by a newline.
   */
  lemma OutputPieces(lines: seq<string>, e: Expansion, i: nat, j: nat)
    requires i == FirstWith(lines, ImportTag, 0) && i < |lines|
    requires j == FirstWith(lines, ServiceTag, i + 1) && j < |lines|
    ensures Output(lines, e) == Finish(Formatted(Pieces(LayoutLines(lines, e, i, j))))
  {
    ExpandAsLines(lines, e, i, j);
    SplitLinesPieces(LayoutLines(lines, e, i, j));
  }

  /** The text `formatOutput` produces from an expansion. */
  function Output(lines: seq<string>, e: Expansion): string {
    Finish(Formatted(Split(Expand(lines, e).sb, "\r\n")))
  }

  /** A statement that stays clean behind any indentation: no line break, and it ends in neither white space nor `/`. */
  predicate Statement(stmt: string) {
    IsToken(stmt, "\r\n") && !IsSpace(stmt[|stmt| - 1]) && stmt[|stmt| - 1] != '/'
  }

  /** Trimming keeps the last character of a text that does not end in white space. */
  lemma TrimKeepsLast(x: string)
    requires x != [] && !IsSpace(x[|x| - 1])
    ensures Trim(x) != [] && Trim(x)[|Trim(x)| - 1] == x[|x| - 1]
  {
    var t := TrimStart(x);
    assert t != [] && t[|t| - 1] == x[|x| - 1];
    assert TrimEnd(t) == t;
  }

  /** No line-break character occurs in `s`. */
  predicate NoBreak(s: string) {
    '\r' !in s && '\n' !in s
  }

  lemma NoBreakConcat(a: string, b: string)
    requires NoBreak(a) && NoBreak(b)
    ensures NoBreak(a + b)
  {
  }

  /** A text without line breaks that ends in neither white space nor `/` is a `Statement`, and clean. */
  lemma StatementOf(s: string)
    requires s != [] && NoBreak(s) && !IsSpace(s[|s| - 1]) && s[|s| - 1] != '/'
    ensures Statement(s) && CleanLine(s)
  {
    TrimKeepsLast(s);
  }

  /** A text without line breaks, longer than `//`, that neither starts nor ends with white space is clean. */
  lemma TrimmedClean(s: string)
    requires |s| > 2 && NoBreak(s) && !IsSpace(s[0]) && !IsSpace(s[|s| - 1])
    ensures CleanLine(s)
  {
    assert TrimStart(s) == s;
    assert TrimEnd(s) == s;
  }

  lemma IndentedStatementsClean(spaces: string, stmts: seq<string>)
    requires '\r' !in spaces && '\n' !in spaces
    requires forall k :: 0 <= k < |stmts| ==> Statement(stmts[k])
    ensures AllClean(IndentAll(spaces, stmts))
  {
    var all := IndentAll(spaces, stmts);
    forall k | 0 <= k < |all|
      ensures CleanLine(all[k])
    {
      var x, stmt := all[k], stmts[k];
      assert Statement(stmt);
      assert x == spaces + stmt;
      assert x[|x| - 1] == stmt[|stmt| - 1];
      assert forall c :: c in x ==> c in spaces || c in stmt;
      TrimKeepsLast(x);
    }
  }

  /**
   * The whole generator on a clean template: when every line but the two
   * tag lines is clean, the tag line of the services holds no line break,
   * the imports are clean and the statements are `Statement`s, the file
   * written is exactly the layout's lines, each closed by a newline.
   */
  lemma CleanOutput(lines: seq<string>, e: Expansion, i: nat, j: nat)
    requires i == FirstWith(lines, ImportTag, 0) && i < |lines|
    requires j == FirstWith(lines, ServiceTag, i + 1) && j < |lines|
    requires forall k :: 0 <= k < |lines| && k != i && k != j ==> CleanLine(lines[k])
    requires '\r' !in lines[j] && '\n' !in lines[j]
    requires AllClean(e.imports) && forall k :: 0 <= k < |e.services| ==> Statement(e.services[k])
    requires var l := LayoutLines(lines, e, i, j); l != [] && l[0] != [] && !IsSpace(l[0][0])
    ensures Output(lines, e) == Lines(LayoutLines(lines, e, i, j))
  {
    LayoutClean(lines, e, i, j);
    ExpandAsLines(lines, e, i, j);
    FormatsToItself(Expand(lines, e).sb, LayoutLines(lines, e, i, j));
  }

  lemma FormatsToItself(sb: string, l: seq<string>)
    requires l != [] && AllClean(l) && l[0] != [] && !IsSpace(l[0][0])
    requires sb == Lines(l)
    ensures Finish(Formatted(Split(sb, "\r\n"))) == sb
  {
    FormatKeepsCleanLines(l);
  }

  /** The layout of a clean template is clean. */
  lemma LayoutClean(lines: seq<string>, e: Expansion, i: nat, j: nat)
    requires i < j < |lines| && Includes(lines[j], ServiceTag)
    requires forall k :: 0 <= k < |lines| && k != i && k != j ==> CleanLine(lines[k])
    requires '\r' !in lines[j] && '\n' !in lines[j]
    requires AllClean(e.imports) && forall k :: 0 <= k < |e.services| ==> Statement(e.services[k])
    ensures AllClean(LayoutLines(lines, e, i, j))
  {
    var sp := Indent(lines[j]);
    assert '\r' !in sp && '\n' !in sp by {
      assert forall c :: c in sp ==> c in lines[j];
    }
    IndentedStatementsClean(sp, e.services);
    assert AllClean(lines[..i]) by {
      CleanSlice(lines, 0, i, i, j);
      assert lines[0..i] == lines[..i];
    }
    assert AllClean(lines[i + 1..j]) by {
      CleanSlice(lines, i + 1, j, i, j);
    }
    assert AllClean(lines[j + 1..]) by {
      CleanSlice(lines, j + 1, |lines|, i, j);
      assert lines[j + 1..|lines|] == lines[j + 1..];
    }
    AllCleanConcat5(lines[..i], e.imports, lines[i + 1..j], IndentAll(sp, e.services), lines[j + 1..]);
  }

  /** A run of template lines that avoids both tag lines is clean. */
  lemma CleanSlice(lines: seq<string>, a: nat, b: nat, i: nat, j: nat)
    requires a <= b <= |lines| && (i < a || b <= i) && (j < a || b <= j)
    requires forall k :: 0 <= k < |lines| && k != i && k != j ==> CleanLine(lines[k])
    ensures AllClean(lines[a..b])
  {
    forall k | 0 <= k < b - a
      ensures CleanLine(lines[a..b][k])
    {
      assert lines[a..b][k] == lines[a + k];
    }
  }

  lemma AllCleanConcat5(p1: seq<string>, p2: seq<string>, p3: seq<string>, p4: seq<string>, p5: seq<string>)
    requires AllClean(p1) && AllClean(p2) && AllClean(p3) && AllClean(p4) && AllClean(p5)
    ensures AllClean(p1 + p2 + p3 + p4 + p5)
  {
    AllCleanConcat(p1, p2);
    AllCleanConcat(p1 + p2, p3);
    AllCleanConcat(p1 + p2 + p3, p4);
    AllCleanConcat(p1 + p2 + p3 + p4, p5);
  }

  /** `main`'s check of the template: present and holding both tags. */
  function CheckTemplate(template: Option<string>): (r: Result<string, string>)
    ensures r.Success? <==> template.Some? && template.value != "" && Includes(template.value, ImportTag)
                            && Includes(template.value, ServiceTag)
    ensures r.Success? ==> r.value == template.value
    ensures r.Failure? ==> r.error == InvalidTemplate
  {
    if template.Some? && template.value != "" && Includes(template.value, ImportTag) && Includes(template.value, ServiceTag)
    then Success(template.value)
    else Failure(InvalidTemplate)
  }
}
