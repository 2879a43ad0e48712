/** The example of the library's own documentation (Examples.py:18-45):
    a template whose `Examples:` call holds a two-column table of three rows,
    expanded without a cap and without `random`. */
module Docstring {
  import opened Common
  import opened PyValues
  import opened Substitution
  import opened RobotModel
  import opened Cloning
  import RoboPandas
  import opened Selection
  import opened Expansion

  type Record = RoboPandas.Record

  function Placeholder(name: string): string {
    "${" + name + "}"
  }

  /** "My test with examples for ${name}" */
  const DocstringTitle: string := "My test with examples for " + Placeholder("name")
  /** "Hello ${name}, welcome to ${where welcome}" */
  const DocstringGreeting: string := "Hello " + Placeholder("name") + ", welcome to " + Placeholder("where welcome")

  const DocstringTableArgs: seq<string> :=
    ["name", "where welcome", "--",
     "Joe", "the world!",
     "Arthur", "Camelot (clip clop).",
     "Patsy", "it's only a model!"]

  /** The `Log` call and the `Examples:` call of the documented template, on
      lines 6 and 7 of the robot file the documentation shows. */
  const DocstringLog: Keyword := Keyword("Log", [DocstringGreeting, "console=True"], [], [], None, 6)
  const DocstringExamplesCall: Keyword := Keyword("Examples:", DocstringTableArgs, [], [], None, 7)

  const DocstringTemplate: TestCase :=
    TestCase(DocstringTitle, "", None, [Kw(DocstringLog), Kw(DocstringExamplesCall)], None, None, [])

  function DocstringRow(who: string, where: string): Record {
    map["name" := who]["where welcome" := where]
  }

  const DocstringRecords: seq<Record> :=
    [DocstringRow("Joe", "the world!"),
     DocstringRow("Arthur", "Camelot (clip clop)."),
     DocstringRow("Patsy", "it's only a model!")]

  /** A generated test of the example: its name and the one `Log` call. */
  function DocstringTest(name: string, message: string): TestCase {
    TestCase(name, "", None, [Kw(Keyword("Log", [message, "console=True"], [], [], None, 6))], None, None, [])
  }

  /** The documented template expands, whatever the outer scope, into the
      three tests the documentation lists, one per row in table order, each
      holding only the substituted `Log` call: "My test with examples for
      Joe" logging "Hello Joe, welcome to the world!", and so on. The last
      message keeps the "!" of its cell, which the documentation's rendering
      (line 45) drops. */
  lemma DocstringExample(outer: Scope)
    ensures IsTemplate(DocstringTemplate)
    ensures ExpansionError(DocstringTemplate, outer, NoneArg, NoneArg) == None
    ensures forall sel :: ExpandsTo(DocstringTemplate, sel, outer, NoneArg, NoneArg) <==> sel == DocstringRecords
    ensures GenerateAll(DocstringTemplate, DocstringRecords, outer) ==
      [DocstringTest("My test with examples for " + "Joe", "Hello " + "Joe" + ", welcome to " + "the world!"),
       DocstringTest("My test with examples for " + "Arthur", "Hello " + "Arthur" + ", welcome to " + "Camelot (clip clop)."),
       DocstringTest("My test with examples for " + "Patsy", "Hello " + "Patsy" + ", welcome to " + "it's only a model!")]
  {
    DocstringTableOf(outer);
    DocstringSelection(outer);
    DocstringGenerateAll(outer);
  }

  /** Without a cap and without `random`, the only selection is the whole
      table in its order. */
  lemma DocstringSelection(outer: Scope)
    ensures forall sel :: ExpandsTo(DocstringTemplate, sel, outer, NoneArg, NoneArg) <==> sel == DocstringRecords
  {
    DocstringTableOf(outer);
    WholeTableSelected(DocstringTemplate, outer, DocstringRecords);
  }

  lemma WholeTableSelected(tc: TestCase, outer: Scope, records: seq<Record>)
    requires IsTemplate(tc) && ExamplesTable(tc, outer) == Ok(records)
    ensures forall sel :: ExpandsTo(tc, sel, outer, NoneArg, NoneArg) <==> sel == records
  {
    forall sel
      ensures ExpandsTo(tc, sel, outer, NoneArg, NoneArg) <==> sel == records
    {
      if ExpandsTo(tc, sel, outer, NoneArg, NoneArg) {
        PrefixSelection(sel, records, NoneArg, NoneArg);
      }
    }
  }

  /** The generated tests hold no `Examples:` call: they are not
      templates again. */
  lemma DocstringTestIsPlain(name: string, message: string)
    ensures !IsTemplate(DocstringTest(name, message))
  {
    LogIsNotExamples();
    var body := DocstringTest(name, message).body;
    assert body[1..] == [];
  }

  /** One test per row, each from the row's own values. */
  lemma DocstringGenerateAll(outer: Scope)
    ensures GenerateAll(DocstringTemplate, DocstringRecords, outer) ==
      [DocstringTest("My test with examples for " + "Joe", "Hello " + "Joe" + ", welcome to " + "the world!"),
       DocstringTest("My test with examples for " + "Arthur", "Hello " + "Arthur" + ", welcome to " + "Camelot (clip clop)."),
       DocstringTest("My test with examples for " + "Patsy", "Hello " + "Patsy" + ", welcome to " + "it's only a model!")]
  {
    DocstringGenerate("Joe", "the world!", outer);
    DocstringGenerate("Arthur", "Camelot (clip clop).", outer);
    DocstringGenerate("Patsy", "it's only a model!", outer);
    GenerateAllThree(DocstringTemplate, DocstringRow("Joe", "the world!"), DocstringRow("Arthur", "Camelot (clip clop)."),
                     DocstringRow("Patsy", "it's only a model!"), outer);
  }

  lemma GenerateAllThree(tc: TestCase, r0: Record, r1: Record, r2: Record, outer: Scope)
    ensures GenerateAll(tc, [r0, r1, r2], outer) == [Generate(tc, outer + r0), Generate(tc, outer + r1), Generate(tc, outer + r2)]
  {
  }

  /** Line 148 reads the table unchanged: it holds no placeholder. */
  lemma DocstringTableOf(outer: Scope)
    ensures IsTemplate(DocstringTemplate)
    ensures ExamplesTable(DocstringTemplate, outer) == Ok(DocstringRecords)
  {
    DocstringIsTemplate();
    DocstringTableUnchanged(outer);
    DocstringTable();
  }

  // ---------------------------------------------------------------------
  // The template is found
  // ---------------------------------------------------------------------

  lemma LogIsNotExamples()
    ensures !IsExamplesName("Log")
  {
    assert |Lower("Log")| == 3;
  }

  lemma ExamplesIsExamples()
    ensures IsExamplesName("Examples:")
  {
  }

  /** A keyword call followed by an `Examples:` call is a template of that call. */
  lemma SecondIsExamples(first: Keyword, second: Keyword)
    requires !IsExamplesName(first.name) && IsExamplesName(second.name)
    ensures FindExamples([Kw(first), Kw(second)]) == Some(second)
  {
    var body := [Kw(first), Kw(second)];
    assert body[1..] == [Kw(second)] && body[1..][1..] == [];
    assert FirstExamplesIndex(body[1..]) == Some(0);
    assert FirstExamplesIndex(body) == Some(1);
  }

  lemma DocstringIsTemplate()
    ensures FindExamples(DocstringTemplate.body) == Some(DocstringExamplesCall)
  {
    LogIsNotExamples();
    ExamplesIsExamples();
    SecondIsExamples(DocstringLog, DocstringExamplesCall);
  }

  // ---------------------------------------------------------------------
  // The table
  // ---------------------------------------------------------------------

  /** Text without a '$' is left as it is by substitution. */
  lemma PlainTextUnchanged(text: string, scope: Scope)
    requires '$' !in text
    ensures ReplaceScalar(text, scope) == text
  {
    ReplaceScalarPlainPrefix(text, "", scope);
    assert text + "" == text;
  }

  lemma PlainCells()
    ensures forall i :: 0 <= i < |DocstringTableArgs| ==> '$' !in DocstringTableArgs[i]
  {
  }

  /** No cell of the table holds a placeholder, so line 142 leaves it as is. */
  lemma DocstringTableUnchanged(outer: Scope)
    ensures ReplaceList(DocstringTableArgs, outer) == DocstringTableArgs
  {
    PlainCells();
    PlainListUnchanged(DocstringTableArgs, outer);
  }

  lemma PlainListUnchanged(items: seq<string>, scope: Scope)
    requires forall i :: 0 <= i < |items| ==> '$' !in items[i]
    ensures ReplaceList(items, scope) == items
  {
    forall i | 0 <= i < |items| ensures ReplaceList(items, scope)[i] == items[i] {
      PlainTextUnchanged(items[i], scope);
    }
  }

  /** `create_dataframe(*args).to_dict('records')` of two headers and three
      rows of two values. */
  lemma TwoByThree(h1: string, h2: string, data: seq<string>)
    requires h1 != RoboPandas.Separator && h2 != RoboPandas.Separator && |data| == 6
    ensures RoboPandas.TableRecords([h1, h2, RoboPandas.Separator] + data) ==
      Ok([map[h1 := data[0]][h2 := data[1]], map[h1 := data[2]][h2 := data[3]], map[h1 := data[4]][h2 := data[5]]])
  {
    var t := RoboPandas.Table([h1, h2], [data[..2], data[2..4], data[4..]]);
    TwoByThreeSplit(h1, h2, data);
    var rs := RoboPandas.ToRecords(t);
    assert RoboPandas.TableRecords([h1, h2, RoboPandas.Separator] + data) == Ok(rs);
    ZipTwo(h1, h2, data[..2]);
    ZipTwo(h1, h2, data[2..4]);
    ZipTwo(h1, h2, data[4..]);
    assert rs[0] == map[h1 := data[0]][h2 := data[1]];
    assert rs[1] == map[h1 := data[2]][h2 := data[3]];
    assert rs[2] == map[h1 := data[4]][h2 := data[5]];
    assert |rs| == 3;
    assert rs == [map[h1 := data[0]][h2 := data[1]], map[h1 := data[2]][h2 := data[3]], map[h1 := data[4]][h2 := data[5]]];
  }

  /** The two headers before "--", and the six values cut into three rows. */
  lemma TwoByThreeSplit(h1: string, h2: string, data: seq<string>)
    requires h1 != RoboPandas.Separator && h2 != RoboPandas.Separator && |data| == 6
    ensures RoboPandas.SplitTable([h1, h2, RoboPandas.Separator] + data)
      == Ok(RoboPandas.Table([h1, h2], [data[..2], data[2..4], data[4..]]))
  {
    var sep := RoboPandas.Separator;
    var args := [h1, h2, sep] + data;
    assert args[2..][1..] == args[3..] == data;
    assert RoboPandas.FirstIndex(args[2..], sep) == Some(0);
    assert RoboPandas.FirstIndex(args[1..], sep) == Some(1) by { assert args[1..][1..] == args[2..]; }
    assert RoboPandas.FirstIndex(args, sep) == Some(2);
    RoboPandas.SplitTableCases(args, 2);
    ThreeChunks(data);
    assert args[..2] == [h1, h2];
  }

  lemma ZipTwo(h1: string, h2: string, row: seq<string>)
    requires |row| == 2
    ensures RoboPandas.Zip([h1, h2], row) == map[h1 := row[0]][h2 := row[1]]
  {
    assert [h1, h2][..1] == [h1] && row[..1] == [row[0]];
    assert [h1][..0] == [] && row[..1][..0] == [];
  }

  lemma ThreeChunks(data: seq<string>)
    requires |data| == 6
    ensures RoboPandas.Chunks(data, 2) == [data[..2], data[2..4], data[4..]]
  {
    assert data[2..][2..] == data[4..] && data[2..][..2] == data[2..4];
    assert RoboPandas.Chunks(data[4..], 2) == [data[4..]];
    assert RoboPandas.Chunks(data[2..], 2) == [data[2..4], data[4..]];
  }

  lemma DocstringTable()
    ensures RoboPandas.TableRecords(DocstringTableArgs) == Ok(DocstringRecords)
  {
    var data := ["Joe", "the world!", "Arthur", "Camelot (clip clop).", "Patsy", "it's only a model!"];
    assert DocstringTableArgs == ["name", "where welcome", RoboPandas.Separator] + data;
    TwoByThree("name", "where welcome", data);
  }

  // ---------------------------------------------------------------------
  // One generated test
  // ---------------------------------------------------------------------

  /** `${n}` at the end of plain text becomes the bound value. */
  lemma SubstTail(pre: string, n: string, scope: Scope)
    requires '$' !in pre && '}' !in n && n in scope
    ensures ReplaceScalar(pre + Placeholder(n), scope) == pre + scope[n]
  {
    ReplaceScalarPlaceholder(n, "", scope);
    assert "${" + n + "}" + "" == Placeholder(n);
    assert ReplaceScalar("", scope) == "";
    ReplaceScalarPlainPrefix(pre, Placeholder(n), scope);
    assert scope[n] + "" == scope[n];
  }

  lemma SubstTwo(pre: string, n1: string, mid: string, n2: string, scope: Scope)
    requires '$' !in pre && '$' !in mid && '}' !in n1 && '}' !in n2 && n1 in scope && n2 in scope
    ensures ReplaceScalar(pre + Placeholder(n1) + mid + Placeholder(n2), scope)
      == pre + scope[n1] + mid + scope[n2]
  {
    var p1, p2 := Placeholder(n1), Placeholder(n2);
    var v1, v2 := scope[n1], scope[n2];
    var tail := mid + p2;
    SubstTail(mid, n2, scope);
    ReplaceScalarPlaceholder(n1, tail, scope);
    assert ReplaceScalar(p1 + tail, scope) == v1 + (mid + v2);
    ReplaceScalarPlainPrefix(pre, p1 + tail, scope);
    ConcatAssoc(pre + p1, mid, p2);
    ConcatAssoc(pre, p1, tail);
    ConcatAssoc(pre + v1, mid, v2);
    ConcatAssoc(pre, v1, mid + v2);
  }

  /** A template of one keyword call and its `Examples:` call generates a
      test holding that call substituted, and nothing else. */
  lemma GenerateOfTwo(tc: TestCase, log: Keyword, ex: Keyword, scope: Scope)
    requires tc.body == [Kw(log), Kw(ex)] && !IsExamplesName(log.name) && IsExamplesName(ex.name)
    ensures Generate(tc, scope) == TestCase(ReplaceScalar(tc.name, scope), "", None, [Kw(SubstKeyword(log, scope))],
                                            tc.setup, tc.teardown, ReplaceList(tc.tags, scope))
  {
    var body := tc.body;
    assert CloneBody(body[..1], scope) == CloneItem(body[0], scope) by {
      assert body[..1][..0] == [];
    }
    assert body[..2] == body;
    CloneBodyStep(body, 1, scope);
  }

  /** The shape of the documented template: a title with one placeholder, a
      call whose first argument holds two placeholders and whose other
      argument holds none, and the `Examples:` call. Under a scope binding
      both names, the generated test holds the call with both substituted. */
  lemma GenerateTwoPlaceholders(tc: TestCase, log: Keyword, ex: Keyword, title: string,
                                pre: string, n1: string, mid: string, n2: string, other: string, scope: Scope)
    requires tc.body == [Kw(log), Kw(ex)] && !IsExamplesName(log.name) && IsExamplesName(ex.name)
    requires tc.name == title + Placeholder(n1) && tc.tags == []
    requires log.args == [pre + Placeholder(n1) + mid + Placeholder(n2), other] && log.assign == [] && log.tags == []
    requires '$' !in title && '$' !in pre && '$' !in mid && '$' !in other && '$' !in log.name
    requires '}' !in n1 && '}' !in n2 && n1 in scope && n2 in scope
    ensures Generate(tc, scope) ==
      TestCase(title + scope[n1], "", None,
               [Kw(Keyword(log.name, [pre + scope[n1] + mid + scope[n2], other], [], [], log.timeout, log.lineno))],
               tc.setup, tc.teardown, [])
  {
    GenerateOfTwo(tc, log, ex, scope);
    SubstTail(title, n1, scope);
    SubstTwo(pre, n1, mid, n2, scope);
    PlainTextUnchanged(log.name, scope);
    PlainTextUnchanged(other, scope);
    var message := pre + scope[n1] + mid + scope[n2];
    assert ReplaceList(log.args, scope) == [message, other] by {
      assert ReplaceList(log.args, scope)[0] == message;
      assert ReplaceList(log.args, scope)[1] == other;
    }
    assert ReplaceList([], scope) == [];
    assert SubstKeyword(log, scope) == Keyword(log.name, [message, other], [], [], log.timeout, log.lineno);
  }

  /** The plain text around the placeholders. */
  lemma DocstringTexts()
    ensures '$' !in "My test with examples for " && '$' !in "Hello " && '$' !in ", welcome to "
  {
  }

  lemma DocstringNames()
    ensures '}' !in "name" && '}' !in "where welcome"
    ensures '$' !in "Log" && '$' !in "console=True"
  {
  }

  /** One row of the example: the name and the `Log` message take the row's
      values, and the `Examples:` call is dropped. */
  lemma DocstringGenerate(who: string, where: string, outer: Scope)
    ensures Generate(DocstringTemplate, outer + DocstringRow(who, where))
      == DocstringTest("My test with examples for " + who, "Hello " + who + ", welcome to " + where)
  {
    var scope := outer + DocstringRow(who, where);
    assert scope["name"] == who && scope["where welcome"] == where;
    LogIsNotExamples();
    ExamplesIsExamples();
    DocstringTexts();
    DocstringNames();
    GenerateTwoPlaceholders(DocstringTemplate, DocstringLog, DocstringExamplesCall, "My test with examples for ",
                            "Hello ", "name", ", welcome to ", "where welcome", "console=True", scope);
  }
}
