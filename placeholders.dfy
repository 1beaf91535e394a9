/**
 * The two placeholder.js generators, which write a `preload.ts` that
 * registers no service so that a fresh project builds: the composable
 * example writes `src/preload/preload.ts`, the minimalist Kafka adapter
 * writes the same file under `src` and under `test`. The template text and
 * the folder the script runs from are parameters; the files written are
 * returned as values.
 */
module Placeholders {
  import opened Wrappers
  import opened JsString
  import opened Templates
  import opened Paths

  // The texts are written in short pieces so that the facts about their
  // characters below stay cheap to prove.
  const ComposableImport: string := "// *** Nothing to import" + " because this is" + " a placeholder ***"
  const MinimalistImport: string := "// this is a placeholder //"
  const BuildComment: string := "// *** This is a placeholder" + " for successful build ***"
  const LogStatement: string := "log.info(`Placeholder for " + "${platform.getName()}" + " with ${config.getId()}`);"

  /** What the composable example's handlers put in place of the two tags. */
  const ComposableExpansion: Expansion := Expansion([ComposableImport], [BuildComment, LogStatement])

  /** What the minimalist adapter's handlers put in place of the two tags. */
  const MinimalistExpansion: Expansion := Expansion([MinimalistImport], [LogStatement])

  /** `generatePlaceholder(src, lines)` of the composable example. */
  method GenerateComposable(src: string, lines: seq<string>) returns (g: Generated)
    ensures g == Generated(src + "/preload/preload.ts", Output(lines, ComposableExpansion))
  {
    var sb := ExpandTemplate(lines, ComposableExpansion);
    var content := FormatOutput(sb);
    g := Generated(src + "/preload/preload.ts", content);
  }

  /** `generatePlaceholder(root, src, lines)` of the minimalist adapter. */
  method GenerateMinimalist(root: string, src: string, lines: seq<string>) returns (g: Generated)
    ensures g == Generated(root + src + "/preload" + "/preload.ts", Output(lines, MinimalistExpansion))
  {
    var sb := ExpandTemplate(lines, MinimalistExpansion);
    var content := FormatOutput(sb);
    g := Generated(root + src + "/preload" + "/preload.ts", content);
  }

  /**
   * `main()` of the composable example, given the template the loader
   * returns and the folder of the script: an invalid template is the
   * error `main` throws, a valid one is cut at `\n` and expanded.
   */
  method ComposableMain(template: Option<string>, folder: string) returns (r: Result<Generated, string>)
    ensures r.Failure? <==> CheckTemplate(template).Failure?
    ensures r.Failure? ==> r.error == InvalidTemplate
    ensures r.Success? ==>
      r.value == Generated(GetCurrentFolder(folder) + "src" + "/preload/preload.ts",
                           Output(SplitOn(template.value, '\n'), ComposableExpansion))
  {
    var checked := CheckTemplate(template);
    if checked.Failure? {
      return Failure(InvalidTemplate);
    }
    var lines := SplitOn(checked.value, '\n');
    var root := GetCurrentFolder(folder);
    var src := root + "src";
    var g := GenerateComposable(src, lines);
    r := Success(g);
  }

  /** `main()` of the minimalist adapter: the same template is written under `src` and then under `test`. */
  method MinimalistMain(template: Option<string>, folder: string) returns (r: Result<seq<Generated>, string>)
    ensures r.Failure? <==> CheckTemplate(template).Failure?
    ensures r.Failure? ==> r.error == InvalidTemplate
    ensures r.Success? ==>
      var root := GetCurrentFolder(folder);
      var content := Output(SplitOn(template.value, '\n'), MinimalistExpansion);
      r.value == [Generated(root + "src" + "/preload" + "/preload.ts", content),
                  Generated(root + "test" + "/preload" + "/preload.ts", content)]
  {
    var checked := CheckTemplate(template);
    if checked.Failure? {
      return Failure(InvalidTemplate);
    }
    var lines := SplitOn(checked.value, '\n');
    var root := GetCurrentFolder(folder);
    var first := GenerateMinimalist(root, "src", lines);
    var second := GenerateMinimalist(root, "test", lines);
    r := Success([first, second]);
  }

  /** A template `main` accepts has a line holding the import tag, so its import section ends. */
  lemma ValidTemplateHasImportLine(template: string)
    requires CheckTemplate(Some(template)).Success?
    ensures FirstWith(SplitOn(template, '\n'), ImportTag, 0) < |SplitOn(template, '\n')|
  {
    var lines := SplitOn(template, '\n');
    SplitOnJoin(template, '\n');
    OccursInPiece(lines, '\n', ImportTag, IndexOf(template, ImportTag));
    var k :| 0 <= k < |lines| && Includes(lines[k], ImportTag);
    assert FirstWith(lines, ImportTag, 0) <= k;
  }

  lemma NoBreakInComposableImport()
    ensures NoBreak(ComposableImport)
  {
    assert NoBreak("// *** Nothing to import");
    assert NoBreak(" because this is");
    assert NoBreak(" a placeholder ***");
    NoBreakConcat("// *** Nothing to import", " because this is");
    NoBreakConcat("// *** Nothing to import" + " because this is", " a placeholder ***");
  }

  lemma NoBreakInBuildComment()
    ensures NoBreak(BuildComment)
  {
    assert NoBreak("// *** This is a placeholder");
    assert NoBreak(" for successful build ***");
    NoBreakConcat("// *** This is a placeholder", " for successful build ***");
  }

  lemma NoBreakInLogStatement()
    ensures NoBreak(LogStatement)
  {
    assert NoBreak("log.info(`Placeholder for ");
    assert NoBreak("${platform.getName()}");
    assert NoBreak(" with ${config.getId()}`);");
    NoBreakConcat("log.info(`Placeholder for ", "${platform.getName()}");
    NoBreakConcat("log.info(`Placeholder for " + "${platform.getName()}", " with ${config.getId()}`);");
  }

  /** The log statement and the build comment stay clean behind any indentation. */
  lemma PlaceholderStatements()
    ensures Statement(BuildComment) && Statement(LogStatement)
  {
    NoBreakInBuildComment();
    NoBreakInLogStatement();
    assert BuildComment[|BuildComment| - 1] == '*';
    assert LogStatement[|LogStatement| - 1] == ';';
    StatementOf(BuildComment);
    StatementOf(LogStatement);
  }

  /** The composable placeholder's import line is clean. */
  lemma ComposableImportClean()
    ensures CleanLine(ComposableImport)
  {
    NoBreakInComposableImport();
    assert ComposableImport[|ComposableImport| - 1] == '*';
    StatementOf(ComposableImport);
  }

  /** The minimalist placeholder's import line is clean: it is its own trim and longer than `//`. */
  lemma MinimalistImportClean()
    ensures CleanLine(MinimalistImport)
  {
    assert NoBreak(MinimalistImport);
    assert MinimalistImport[0] == '/' && MinimalistImport[|MinimalistImport| - 1] == '/';
    TrimmedClean(MinimalistImport);
  }

  lemma CleanSingleton(x: string)
    requires CleanLine(x)
    ensures AllClean([x])
  {
  }

  lemma StatementsOf(xs: seq<string>, a: string, b: string)
    requires xs == [a] || xs == [a, b]
    requires Statement(a) && Statement(b)
    ensures forall k :: 0 <= k < |xs| ==> Statement(xs[k])
  {
  }

  lemma ComposableTextClean()
    ensures AllClean(ComposableExpansion.imports)
    ensures forall k :: 0 <= k < |ComposableExpansion.services| ==> Statement(ComposableExpansion.services[k])
  {
    ComposableImportClean();
    CleanSingleton(ComposableImport);
    PlaceholderStatements();
    StatementsOf(ComposableExpansion.services, BuildComment, LogStatement);
  }

  lemma MinimalistTextClean()
    ensures AllClean(MinimalistExpansion.imports)
    ensures forall k :: 0 <= k < |MinimalistExpansion.services| ==> Statement(MinimalistExpansion.services[k])
  {
    MinimalistImportClean();
    CleanSingleton(MinimalistImport);
    PlaceholderStatements();
    StatementsOf(MinimalistExpansion.services, LogStatement, BuildComment);
  }

  /**
   * The composable placeholder of a clean template (every line but the
   * two tag lines without a line break or trailing white space and not
   * `//`, the first without leading white space): the lines before the
   * import tag, the "nothing to import" comment, the lines up to the
   * service tag, the build comment and the log statement indented like the
   * tag, then the remaining lines.
   */
  lemma ComposableLayout(template: string, i: nat, j: nat)
    requires var lines := SplitOn(template, '\n');
      && i == FirstWith(lines, ImportTag, 0) && i < |lines|
      && j == FirstWith(lines, ServiceTag, i + 1) && j < |lines|
      && (forall k :: 0 <= k < |lines| && k != i && k != j ==> CleanLine(lines[k]))
      && '\r' !in lines[j]
      && (i > 0 ==> lines[0] != [] && !IsSpace(lines[0][0]))
    ensures var lines := SplitOn(template, '\n');
      var spaces := Indent(lines[j]);
      Output(lines, ComposableExpansion) ==
        Lines(lines[..i] + [ComposableImport] + lines[i + 1..j]
              + [spaces + BuildComment, spaces + LogStatement] + lines[j + 1..])
  {
    var lines := SplitOn(template, '\n');
    var spaces := Indent(lines[j]);
    ComposableTextClean();
    assert ComposableImport[0] == '/';
    IndentTwo(spaces, BuildComment, LogStatement);
    PlaceholderLayout(lines, ComposableExpansion, i, j, [ComposableImport], [spaces + BuildComment, spaces + LogStatement]);
  }

  /** The minimalist placeholder of a clean template: the same layout with its own comment and the log statement. */
  lemma MinimalistLayout(template: string, i: nat, j: nat)
    requires var lines := SplitOn(template, '\n');
      && i == FirstWith(lines, ImportTag, 0) && i < |lines|
      && j == FirstWith(lines, ServiceTag, i + 1) && j < |lines|
      && (forall k :: 0 <= k < |lines| && k != i && k != j ==> CleanLine(lines[k]))
      && '\r' !in lines[j]
      && (i > 0 ==> lines[0] != [] && !IsSpace(lines[0][0]))
    ensures var lines := SplitOn(template, '\n');
      Output(lines, MinimalistExpansion) ==
        Lines(lines[..i] + [MinimalistImport] + lines[i + 1..j] + [Indent(lines[j]) + LogStatement] + lines[j + 1..])
  {
    var lines := SplitOn(template, '\n');
    MinimalistTextClean();
    assert MinimalistImport[0] == '/';
    IndentOne(Indent(lines[j]), LogStatement);
    PlaceholderLayout(lines, MinimalistExpansion, i, j, [MinimalistImport], [Indent(lines[j]) + LogStatement]);
  }

  lemma IndentOne(spaces: string, a: string)
    ensures IndentAll(spaces, [a]) == [spaces + a]
  {
  }

  lemma IndentTwo(spaces: string, a: string, b: string)
    ensures IndentAll(spaces, [a, b]) == [spaces + a, spaces + b]
  {
  }

  /** `CleanOutput` with the import lines and the indented statements given. */
  lemma PlaceholderLayout(lines: seq<string>, e: Expansion, i: nat, j: nat, imports: seq<string>, statements: seq<string>)
    requires i == FirstWith(lines, ImportTag, 0) && i < |lines|
    requires j == FirstWith(lines, ServiceTag, i + 1) && j < |lines|
    requires forall k :: 0 <= k < |lines| && k != i && k != j ==> CleanLine(lines[k])
    requires '\r' !in lines[j] && '\n' !in lines[j]
    requires AllClean(e.imports) && forall k :: 0 <= k < |e.services| ==> Statement(e.services[k])
    requires e.imports == imports && |imports| == 1 && imports[0] != [] && !IsSpace(imports[0][0])
    requires IndentAll(Indent(lines[j]), e.services) == statements
    requires i > 0 ==> lines[0] != [] && !IsSpace(lines[0][0])
    ensures Output(lines, e) == Lines(lines[..i] + imports + lines[i + 1..j] + statements + lines[j + 1..])
  {
    var l := LayoutLines(lines, e, i, j);
    assert l == lines[..i] + imports + lines[i + 1..j] + statements + lines[j + 1..];
    assert l[0] == (if i == 0 then imports[0] else lines[0]);
    CleanOutput(lines, e, i, j);
  }
}
