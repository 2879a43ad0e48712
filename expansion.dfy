/** What expanding a template produces (Examples.py:138-164) and what a
    pass over a suite's test list leaves behind (Examples.py:129-136), stated
    as functions on values; the `Examples` class is proved against them. */
module Expansion {
  import opened Common
  import opened PyValues
  import opened Substitution
  import opened RobotModel
  import opened Cloning
  import RoboPandas
  import opened Selection

  type Record = RoboPandas.Record

  // ---------------------------------------------------------------------
  // One template
  // ---------------------------------------------------------------------

  /** The test lines 157-161 build for one example row, under the scope the
      row loop has in force: the name, tags and body substituted, setup and
      teardown shared with the template, documentation and timeout left at
      the defaults of `tests.create`. */
  function Generate(tc: TestCase, scope: Scope): TestCase {
    TestCase(ReplaceScalar(tc.name, scope), "", None, CloneBody(tc.body, scope),
             tc.setup, tc.teardown, ReplaceList(tc.tags, scope))
  }

  /** One generated test per selected row, in selection order. */
  function GenerateAll(tc: TestCase, sel: seq<Record>, outer: Scope): (r: seq<TestCase>)
    ensures |r| == |sel|
  {
    seq(|sel|, j requires 0 <= j < |sel| => Generate(tc, outer + sel[j]))
  }

  lemma GenerateAllStep(tc: TestCase, sel: seq<Record>, outer: Scope, j: nat)
    requires j < |sel|
    ensures GenerateAll(tc, sel[..j + 1], outer) == GenerateAll(tc, sel[..j], outer) + [Generate(tc, outer + sel[j])]
  {
  }

  /** Lines 142 and 148: the examples table of a template, its arguments
      substituted under the scope in force. */
  function ExamplesTable(tc: TestCase, outer: Scope): Result<seq<Record>, Error>
    requires IsTemplate(tc)
  {
    RoboPandas.TableRecords(ReplaceList(FindExamples(tc.body).value.args, outer))
  }

  /** The exception expanding `tc` raises, if any: a bad table or a
      selection that `random.sample` or the slice rejects. */
  function ExpansionError(tc: TestCase, outer: Scope, cap: Arg, random: Arg): Option<Error>
    requires CapShaped(cap)
  {
    if !IsTemplate(tc) then None
    else match ExamplesTable(tc, outer)
      case Err(e) => Some(e)
      case Ok(records) => SelectionError(records, cap, random)
  }

  /** `sel` is a selection expanding `tc` may make. */
  ghost predicate ExpandsTo(tc: TestCase, sel: seq<Record>, outer: Scope, cap: Arg, random: Arg)
    requires CapShaped(cap)
  {
    && IsTemplate(tc)
    && ExamplesTable(tc, outer).Ok?
    && IsSelection(sel, ExamplesTable(tc, outer).value, cap, random)
  }

  // ---------------------------------------------------------------------
  // The scope the row loop builds
  // ---------------------------------------------------------------------

  /** The top frame after line 156 has run for each row in turn, starting
      from the copy of the outer scope. */
  function Accumulate(outer: Scope, rows: seq<Record>): Scope {
    if rows == [] then outer
    else Accumulate(outer, rows[..|rows| - 1]) + rows[|rows| - 1]
  }

  lemma AccumulateStep(outer: Scope, rows: seq<Record>, j: nat)
    requires j < |rows|
    ensures Accumulate(outer, rows[..j + 1]) == Accumulate(outer, rows[..j]) + rows[j]
  {
    assert rows[..j + 1][..j] == rows[..j];
  }

  /** Rows with the same headers overwrite each other completely, so each
      row sees the outer scope and its own values, never an earlier row's. */
  lemma {:induction false} RowIsolation(outer: Scope, rows: seq<Record>, keys: set<string>)
    requires |rows| > 0
    requires forall i :: 0 <= i < |rows| ==> rows[i].Keys == keys
    ensures Accumulate(outer, rows) == outer + rows[|rows| - 1]
  {
    var n := |rows| - 1;
    if n > 0 {
      var init := rows[..n];
      assert init[n - 1] == rows[n - 1];
      RowIsolation(outer, init, keys);
      assert Accumulate(outer, rows) == Accumulate(outer, init) + rows[n];
      Overwrite(outer, rows[n - 1], rows[n]);
    }
  }

  /** A map whose keys cover another's hides it completely. */
  lemma Overwrite(outer: Scope, a: Record, b: Record)
    requires a.Keys <= b.Keys
    ensures (outer + a) + b == outer + b
  {
  }

  // ---------------------------------------------------------------------
  // Suite pass: filters and what the live list grows into
  // ---------------------------------------------------------------------

  function NonTemplates(ts: seq<TestCase>): (r: seq<TestCase>)
    ensures |r| <= |ts|
    ensures forall i {:trigger IsTemplate(r[i])} :: 0 <= i < |r| ==> !IsTemplate(r[i])
  {
    if ts == [] then []
    else
      var n := |ts| - 1;
      NonTemplates(ts[..n]) + if IsTemplate(ts[n]) then [] else [ts[n]]
  }

  function Templates(ts: seq<TestCase>): (r: seq<TestCase>)
    ensures |r| <= |ts|
    ensures forall i {:trigger IsTemplate(r[i])} :: 0 <= i < |r| ==> IsTemplate(r[i])
  {
    if ts == [] then []
    else
      var n := |ts| - 1;
      Templates(ts[..n]) + if IsTemplate(ts[n]) then [ts[n]] else []
  }

  /** The tests the templates `ts`, expanded with the selections `sels`,
      append to the list, template after template. */
  function Produced(ts: seq<TestCase>, sels: seq<seq<Record>>, outer: Scope): seq<TestCase>
    requires |ts| == |sels|
  {
    if ts == [] then []
    else
      var n := |ts| - 1;
      Produced(ts[..n], sels[..n], outer) + GenerateAll(ts[n], sels[n], outer)
  }

  /** The live list at the end of the loop of line 131: the original tests
      `original` followed by the expansions of every template the list then
      holds, generated ones included, each with a selection it may make. */
  ghost predicate ClosedExpansion(original: seq<TestCase>, live: seq<TestCase>, sels: seq<seq<Record>>,
                                  outer: Scope, cap: Arg, random: Arg)
    requires CapShaped(cap)
  {
    && |sels| == |Templates(live)|
    && live == original + Produced(Templates(live), sels, outer)
    && forall k {:trigger ExpandsTo(Templates(live)[k], sels[k], outer, cap, random)} ::
         0 <= k < |sels| ==> ExpandsTo(Templates(live)[k], sels[k], outer, cap, random)
  }

  /** Every test of a suite tree, and of its descendants, expands without
      an exception. */
  ghost predicate TreeExpands(t: SuiteTree, outer: Scope, cap: Arg, random: Arg)
    requires CapShaped(cap)
    decreases t
  {
    && (forall i {:trigger ExpansionError(t.tests[i], outer, cap, random)} ::
          0 <= i < |t.tests| ==> ExpansionError(t.tests[i], outer, cap, random).None?)
    && (forall k {:trigger TreeExpands(t.suites[k], outer, cap, random)} ::
          0 <= k < |t.suites| ==> TreeExpands(t.suites[k], outer, cap, random))
  }

  /** What a pass over a suite with tests `own` and the suites `children`
      below it leaves in the root suite: the last pass to run, line 134 of
      the suite visited last, decides it. */
  function AfterPass(own: seq<TestCase>, children: seq<SuiteTree>): seq<TestCase> {
    if children == [] then NonTemplates(own)
    else NonTemplates(LastVisited(children[|children| - 1]).tests)
  }

  lemma AfterPassStep(own: seq<TestCase>, children: seq<SuiteTree>, k: nat)
    requires k < |children|
    ensures AfterPass(own, children[..k + 1]) == NonTemplates(LastVisited(children[k]).tests)
  {
    var c := children[..k + 1];
    assert |c| == k + 1 && c[k] == children[k];
  }

  /** The pass over a tree below the root leaves what its last visited
      suite's own pass leaves. */
  lemma {:induction false} AfterPassOfTree(t: SuiteTree)
    ensures AfterPass(t.tests, t.suites) == NonTemplates(LastVisited(t).tests)
  {
    if t.suites != [] {
      var last := t.suites[|t.suites| - 1];
      assert LastVisited(t) == LastVisited(last);
      assert AfterPass(t.tests, t.suites) == NonTemplates(LastVisited(last).tests);
    }
  }

  /** The first k suites of `ts` expand without an exception. */
  ghost predicate SuitesExpand(ts: seq<SuiteTree>, k: nat, outer: Scope, cap: Arg, random: Arg)
    requires CapShaped(cap)
  {
    && k <= |ts|
    && forall c {:trigger TreeExpands(ts[c], outer, cap, random)} ::
         0 <= c < k ==> TreeExpands(ts[c], outer, cap, random)
  }

  /** A tree expands when its own tests do and all the suites below it do. */
  lemma TreeExpandsParts(t: SuiteTree, outer: Scope, cap: Arg, random: Arg)
    requires CapShaped(cap)
    ensures TreeExpands(t, outer, cap, random) <==>
      NoErrorsBefore(t.tests, |t.tests|, outer, cap, random) && SuitesExpand(t.suites, |t.suites|, outer, cap, random)
  {
  }

  lemma SuitesExpandStep(ts: seq<SuiteTree>, k: nat, outer: Scope, cap: Arg, random: Arg)
    requires CapShaped(cap) && k < |ts|
    requires SuitesExpand(ts, k, outer, cap, random)
    ensures SuitesExpand(ts, k + 1, outer, cap, random) <==> TreeExpands(ts[k], outer, cap, random)
  {
  }

  /** A suite that fails to expand makes the whole list fail. */
  lemma SuitesExpandFails(ts: seq<SuiteTree>, k: nat, outer: Scope, cap: Arg, random: Arg)
    requires CapShaped(cap) && k < |ts|
    requires !TreeExpands(ts[k], outer, cap, random)
    ensures !SuitesExpand(ts, |ts|, outer, cap, random)
  {
  }

  /** A list of tests with an error at k does not expand. */
  lemma NoErrorsFails(ts: seq<TestCase>, k: nat, outer: Scope, cap: Arg, random: Arg)
    requires CapShaped(cap) && k < |ts|
    requires ExpansionError(ts[k], outer, cap, random).Some?
    ensures !NoErrorsBefore(ts, |ts|, outer, cap, random)
  {
  }

  /** The suite whose pass runs last in the depth-first recursion of lines
      135-136. */
  function LastVisited(t: SuiteTree): SuiteTree
    decreases t
  {
    if t.suites == [] then t
    else
      assert t.suites[|t.suites| - 1] in t.suites;
      LastVisited(t.suites[|t.suites| - 1])
  }

  lemma NonTemplatesAppend(a: seq<TestCase>, b: seq<TestCase>)
    ensures NonTemplates(a + b) == NonTemplates(a) + NonTemplates(b)
    decreases |b|
  {
    if b != [] {
      var n := |b| - 1;
      assert (a + b)[..|a + b| - 1] == a + b[..n];
      NonTemplatesAppend(a, b[..n]);
    } else {
      assert a + b == a;
    }
  }

  lemma TemplatesAppend(a: seq<TestCase>, b: seq<TestCase>)
    ensures Templates(a + b) == Templates(a) + Templates(b)
    decreases |b|
  {
    if b != [] {
      var n := |b| - 1;
      assert (a + b)[..|a + b| - 1] == a + b[..n];
      TemplatesAppend(a, b[..n]);
    } else {
      assert a + b == a;
    }
  }

  /** A list without templates is its own filter. */
  lemma {:induction false} NonTemplatesOfPlain(ts: seq<TestCase>)
    requires forall i :: 0 <= i < |ts| ==> !IsTemplate(ts[i])
    ensures NonTemplates(ts) == ts && Templates(ts) == []
  {
    if ts != [] {
      NonTemplatesOfPlain(ts[..|ts| - 1]);
    }
  }

  /** A generated test is not a template when none of the template's
      top-level keyword names holds a '$'. */
  predicate PlainNames(tc: TestCase) {
    forall i :: 0 <= i < |tc.body| && tc.body[i].Kw? ==> '$' !in tc.body[i].kw.name
  }

  /** A template with plain top-level names generates no template. */
  lemma GenerateAllOfPlain(tc: TestCase, sel: seq<Record>, outer: Scope)
    requires PlainNames(tc)
    ensures forall j :: 0 <= j < |sel| ==> !IsTemplate(GenerateAll(tc, sel, outer)[j])
  {
    forall j | 0 <= j < |sel| ensures !IsTemplate(GenerateAll(tc, sel, outer)[j]) {
      CloneOfPlainNamesHasNoExamples(tc.body, outer + sel[j]);
    }
  }

  /** The templates a list holds are among its elements. */
  lemma {:induction false} TemplatesAreMembers(ts: seq<TestCase>)
    ensures forall i :: 0 <= i < |Templates(ts)| ==> Templates(ts)[i] in ts
  {
    if ts != [] {
      TemplatesAreMembers(ts[..|ts| - 1]);
    }
  }

  /** When the generated part of a closed list holds no template, the suite
      pass leaves the non-template originals in their order, followed by
      each original template's generated tests, grouped in template order. */
  lemma PlainClosure(original: seq<TestCase>, live: seq<TestCase>, sels: seq<seq<Record>>,
                     outer: Scope, cap: Arg, random: Arg)
    requires CapShaped(cap)
    requires ClosedExpansion(original, live, sels, outer, cap, random)
    requires forall k :: |original| <= k < |live| ==> !IsTemplate(live[k])
    ensures Templates(live) == Templates(original)
    ensures NonTemplates(live) == NonTemplates(original) + Produced(Templates(original), sels, outer)
  {
    var p := live[|original|..];
    assert live == original + p;
    NonTemplatesOfPlain(p);
    TemplatesAppend(original, p);
    NonTemplatesAppend(original, p);
  }

  lemma NonTemplatesStep(ts: seq<TestCase>, i: nat)
    requires i < |ts|
    ensures NonTemplates(ts[..i + 1]) == NonTemplates(ts[..i]) + if IsTemplate(ts[i]) then [] else [ts[i]]
    ensures Templates(ts[..i + 1]) == Templates(ts[..i]) + if IsTemplate(ts[i]) then [ts[i]] else []
  {
    assert ts[..i + 1][..i] == ts[..i];
  }

  lemma ProducedStep(ts: seq<TestCase>, sels: seq<seq<Record>>, t: TestCase, sel: seq<Record>, outer: Scope)
    requires |ts| == |sels|
    ensures Produced(ts + [t], sels + [sel], outer) == Produced(ts, sels, outer) + GenerateAll(t, sel, outer)
  {
    assert (ts + [t])[..|ts|] == ts;
    assert (sels + [sel])[..|sels|] == sels;
  }

  // ---------------------------------------------------------------------
  // The loop of line 131 over the root suite's live list
  // ---------------------------------------------------------------------

  /** The live list after the loop has visited its first i tests: the
      original tests followed by the expansions of the templates among
      those i, each with a selection it may make, and none of the i raising. */
  ghost predicate LivePrefix(original: seq<TestCase>, live: seq<TestCase>, i: nat, sels: seq<seq<Record>>,
                             outer: Scope, cap: Arg, random: Arg)
    requires CapShaped(cap)
  {
    && NoErrorsBefore(live, i, outer, cap, random)
    && AllExpand(Templates(live[..i]), sels, outer, cap, random)
    && live == original + Produced(Templates(live[..i]), sels, outer)
  }

  /** The state of the loop of lines 131-133 after i visits: the live list
      as above, `kept` holding the non-templates among the first i tests,
      and no template of the original generated from. */
  ghost predicate LiveLoop(original: seq<TestCase>, live: seq<TestCase>, i: nat, sels: seq<seq<Record>>,
                           kept: seq<TestCase>, outer: Scope, cap: Arg, random: Arg)
    requires CapShaped(cap)
  {
    && i <= |live|
    && LivePrefix(original, live, i, sels, outer, cap, random)
    && kept == NonTemplates(live[..i])
    && PlainSoFar(original, live)
  }

  /** Each template expands with the selection beside it. */
  ghost predicate AllExpand(ts: seq<TestCase>, sels: seq<seq<Record>>, outer: Scope, cap: Arg, random: Arg)
    requires CapShaped(cap)
  {
    && |ts| == |sels|
    && forall k {:trigger ExpandsTo(ts[k], sels[k], outer, cap, random)} ::
         0 <= k < |sels| ==> ExpandsTo(ts[k], sels[k], outer, cap, random)
  }

  /** None of the first i tests raises when expanded. */
  ghost predicate NoErrorsBefore(live: seq<TestCase>, i: nat, outer: Scope, cap: Arg, random: Arg)
    requires CapShaped(cap)
  {
    && i <= |live|
    && forall k {:trigger ExpansionError(live[k], outer, cap, random)} ::
         0 <= k < i ==> ExpansionError(live[k], outer, cap, random).None?
  }

  lemma AllExpandSnoc(ts: seq<TestCase>, sels: seq<seq<Record>>, t: TestCase, sel: seq<Record>,
                      outer: Scope, cap: Arg, random: Arg)
    requires CapShaped(cap)
    requires AllExpand(ts, sels, outer, cap, random) && ExpandsTo(t, sel, outer, cap, random)
    ensures AllExpand(ts + [t], sels + [sel], outer, cap, random)
  {
    forall k | 0 <= k < |sels| + 1
      ensures ExpandsTo((ts + [t])[k], (sels + [sel])[k], outer, cap, random)
    {
      if k < |sels| {
        assert (ts + [t])[k] == ts[k] && (sels + [sel])[k] == sels[k];
      }
    }
  }

  lemma NoErrorsStep(live: seq<TestCase>, i: nat, extra: seq<TestCase>, outer: Scope, cap: Arg, random: Arg)
    requires CapShaped(cap)
    requires NoErrorsBefore(live, i, outer, cap, random) && i < |live|
    requires ExpansionError(live[i], outer, cap, random).None?
    ensures NoErrorsBefore(live + extra, i + 1, outer, cap, random)
  {
    forall k | 0 <= k < i + 1 ensures ExpansionError((live + extra)[k], outer, cap, random).None? {
      assert (live + extra)[k] == live[k];
    }
  }

  /** Every template of the list has plain top-level names. */
  ghost predicate PlainTemplates(ts: seq<TestCase>) {
    forall i {:trigger IsTemplate(ts[i])} :: 0 <= i < |ts| ==> IsTemplate(ts[i]) ==> PlainNames(ts[i])
  }

  /** When the original templates have plain names, nothing past the
      original tests is a template. */
  ghost predicate PlainSoFar(original: seq<TestCase>, live: seq<TestCase>) {
    PlainTemplates(original) ==> PlainTail(original, live)
  }

  /** Nothing past the original tests is a template. */
  ghost predicate PlainTail(original: seq<TestCase>, live: seq<TestCase>) {
    forall k {:trigger IsTemplate(live[k])} :: |original| <= k < |live| ==> !IsTemplate(live[k])
  }

  lemma LiveStart(original: seq<TestCase>, outer: Scope, cap: Arg, random: Arg)
    requires CapShaped(cap)
    ensures LiveLoop(original, original, 0, [], [], outer, cap, random)
  {
    assert original + [] == original;
    assert original[..0] == [];
  }

  /** Visiting a test that is not a template keeps it and changes nothing else. */
  lemma LiveStepKeep(original: seq<TestCase>, live: seq<TestCase>, i: nat, sels: seq<seq<Record>>,
                     outer: Scope, cap: Arg, random: Arg)
    requires CapShaped(cap)
    requires LivePrefix(original, live, i, sels, outer, cap, random)
    requires i < |live| && !IsTemplate(live[i])
    ensures LivePrefix(original, live, i + 1, sels, outer, cap, random)
    ensures NonTemplates(live[..i + 1]) == NonTemplates(live[..i]) + [live[i]]
    ensures SumBounds(live[i + 1..], outer) < SumBounds(live[i..], outer)
  {
    NonTemplatesStep(live, i);
    AppendEmpty(Templates(live[..i]));
    assert Templates(live[..i + 1]) == Templates(live[..i]);
    NoErrorsStep(live, i, [], outer, cap, random);
    AppendEmpty(live);
    SumBoundsAt(live, i, outer);
  }

  /** Measure of what is left to visit after a template at i appended `gen`. */
  lemma LiveMeasure(live: seq<TestCase>, i: nat, gen: seq<TestCase>, outer: Scope)
    requires i < |live| && SumBounds(gen, outer) < Bound(live[i], outer)
    ensures SumBounds((live + gen)[i + 1..], outer) < SumBounds(live[i..], outer)
  {
    SumBoundsAt(live, i, outer);
    SliceOfAppend(live, gen, i + 1);
    SumBoundsAppend(live[i + 1..], gen, outer);
  }

  /** The list bookkeeping of visiting a template: the template joins the
      visited templates and its expansion joins the end of the list. */
  lemma LiveStructure(original: seq<TestCase>, live: seq<TestCase>, i: nat, sels: seq<seq<Record>>,
                      sel: seq<Record>, outer: Scope)
    requires i < |live| && IsTemplate(live[i])
    requires |Templates(live[..i])| == |sels|
    requires live == original + Produced(Templates(live[..i]), sels, outer)
    ensures (live + GenerateAll(live[i], sel, outer))[..i + 1] == live[..i + 1]
    ensures Templates(live[..i + 1]) == Templates(live[..i]) + [live[i]]
    ensures NonTemplates(live[..i + 1]) == NonTemplates(live[..i])
    ensures live + GenerateAll(live[i], sel, outer)
         == original + Produced(Templates(live[..i]) + [live[i]], sels + [sel], outer)
  {
    PrefixOfAppend(live, GenerateAll(live[i], sel, outer), i + 1);
    NonTemplatesStep(live, i);
    ProducedExtend(original, live, Templates(live[..i]), sels, live[i], sel, outer);
  }

  lemma ProducedExtend(original: seq<TestCase>, live: seq<TestCase>, ts: seq<TestCase>, sels: seq<seq<Record>>,
                       t: TestCase, sel: seq<Record>, outer: Scope)
    requires |ts| == |sels| && live == original + Produced(ts, sels, outer)
    ensures live + GenerateAll(t, sel, outer) == original + Produced(ts + [t], sels + [sel], outer)
  {
    ProducedStep(ts, sels, t, sel, outer);
    ConcatAssoc(original, Produced(ts, sels, outer), GenerateAll(t, sel, outer));
  }

  /** Visiting a template appends its expansion to the list and leaves the
      template out. */
  lemma LiveStepExpand(original: seq<TestCase>, live: seq<TestCase>, i: nat, sels: seq<seq<Record>>,
                       sel: seq<Record>, outer: Scope, cap: Arg, random: Arg)
    requires CapShaped(cap)
    requires LivePrefix(original, live, i, sels, outer, cap, random)
    requires i < |live| && ExpandsTo(live[i], sel, outer, cap, random)
    ensures var live' := live + GenerateAll(live[i], sel, outer);
      && LivePrefix(original, live', i + 1, sels + [sel], outer, cap, random)
      && NonTemplates(live'[..i + 1]) == NonTemplates(live[..i])
  {
    var gen := GenerateAll(live[i], sel, outer);
    LiveStructure(original, live, i, sels, sel, outer);
    ExpandsToNoError(live[i], sel, outer, cap, random);
    NoErrorsStep(live, i, gen, outer, cap, random);
    AllExpandSnoc(Templates(live[..i]), sels, live[i], sel, outer, cap, random);
  }

  lemma ExpandsToNoError(tc: TestCase, sel: seq<Record>, outer: Scope, cap: Arg, random: Arg)
    requires CapShaped(cap) && ExpandsTo(tc, sel, outer, cap, random)
    ensures ExpansionError(tc, outer, cap, random).None?
  {
  }

  /** What remains to be visited after a template's expansion is appended
      measures strictly less than before the template was visited. */
  lemma LiveStepShrinks(live: seq<TestCase>, i: nat, sel: seq<Record>, outer: Scope, cap: Arg, random: Arg)
    requires CapShaped(cap)
    requires i < |live| && ExpandsTo(live[i], sel, outer, cap, random)
    ensures SumBounds((live + GenerateAll(live[i], sel, outer))[i + 1..], outer) < SumBounds(live[i..], outer)
  {
    ExpansionShrinks(live[i], sel, outer, cap, random);
    LiveMeasure(live, i, GenerateAll(live[i], sel, outer), outer);
  }

  /** Expanding an original template with plain names adds no template. */
  lemma LiveStepPlain(original: seq<TestCase>, live: seq<TestCase>, i: nat, sel: seq<Record>, outer: Scope)
    requires i < |live| && IsTemplate(live[i])
    requires |original| <= |live| && live[..|original|] == original
    requires PlainTemplates(original) && PlainTail(original, live)
    ensures PlainTail(original, live + GenerateAll(live[i], sel, outer))
  {
    assert i < |original|;
    assert live[i] == original[i];
    GenerateAllOfPlain(live[i], sel, outer);
  }

  /** One visit of a template at i, all the loop needs to know. */
  lemma LiveStepTemplate(original: seq<TestCase>, live: seq<TestCase>, i: nat, sels: seq<seq<Record>>,
                         sel: seq<Record>, outer: Scope, cap: Arg, random: Arg)
    requires CapShaped(cap)
    requires LivePrefix(original, live, i, sels, outer, cap, random)
    requires i < |live| && ExpandsTo(live[i], sel, outer, cap, random)
    ensures var live' := live + GenerateAll(live[i], sel, outer);
      && LivePrefix(original, live', i + 1, sels + [sel], outer, cap, random)
      && NonTemplates(live'[..i + 1]) == NonTemplates(live[..i])
      && SumBounds(live'[i + 1..], outer) < SumBounds(live[i..], outer)
      && (PlainSoFar(original, live) ==> PlainSoFar(original, live'))
  {
    LiveStepExpand(original, live, i, sels, sel, outer, cap, random);
    LiveStepShrinks(live, i, sel, outer, cap, random);
    if PlainTemplates(original) && PlainSoFar(original, live) {
      LiveOriginalPrefix(original, live, i, sels, outer, cap, random);
      LiveStepPlain(original, live, i, sel, outer);
    }
  }

  /** The list always starts with the original tests. */
  lemma LiveOriginalPrefix(original: seq<TestCase>, live: seq<TestCase>, i: nat, sels: seq<seq<Record>>,
                           outer: Scope, cap: Arg, random: Arg)
    requires CapShaped(cap)
    requires LivePrefix(original, live, i, sels, outer, cap, random)
    ensures |original| <= |live| && live[..|original|] == original
  {
  }

  lemma LiveEnd(original: seq<TestCase>, live: seq<TestCase>, sels: seq<seq<Record>>,
                kept: seq<TestCase>, outer: Scope, cap: Arg, random: Arg)
    requires CapShaped(cap)
    requires LiveLoop(original, live, |live|, sels, kept, outer, cap, random)
    ensures ClosedExpansion(original, live, sels, outer, cap, random)
    ensures kept == NonTemplates(live) && PlainSoFar(original, live)
  {
    assert live[..|live|] == live;
    assert AllExpand(Templates(live), sels, outer, cap, random);
  }

  // ---------------------------------------------------------------------
  // What a pass that raises leaves in the root suite's list
  // ---------------------------------------------------------------------

  /** A pass over `tests` has visited the first k of them without an
      exception, and the templates among those k, each with a selection it
      may make, appended their expansions to the root's list, turning
      `before` into `after`. */
  ghost predicate AppendedFor(before: seq<TestCase>, after: seq<TestCase>, tests: seq<TestCase>, k: nat,
                              sels: seq<seq<Record>>, outer: Scope, cap: Arg, random: Arg)
    requires CapShaped(cap)
  {
    && NoErrorsBefore(tests, k, outer, cap, random)
    && AllExpand(Templates(tests[..k]), sels, outer, cap, random)
    && after == before + Produced(Templates(tests[..k]), sels, outer)
  }

  /** The loop over `tests` raised `err` at one of them, once the tests
      before it had turned the root's list `before` into `after`; the
      rewrite of line 134 was not reached. */
  ghost predicate StuckIn(before: seq<TestCase>, after: seq<TestCase>, tests: seq<TestCase>, err: Error,
                          outer: Scope, cap: Arg, random: Arg)
    requires CapShaped(cap)
  {
    exists k: nat, sels :: AppendedFor(before, after, tests, k, sels, outer, cap, random)
      && k < |tests| && ExpansionError(tests[k], outer, cap, random) == Some(err)
  }

  /** The pass over the tree `t`, begun with the root's list at `before`,
      raised `err` and left the list at `after`: either one of t's own tests
      raised, or they all expanded, line 134 wrote their survivors to the
      root, and then a suite below t raised. */
  ghost predicate TreeFails(t: SuiteTree, before: seq<TestCase>, after: seq<TestCase>, err: Error,
                            outer: Scope, cap: Arg, random: Arg)
    requires CapShaped(cap)
    decreases t, 1
  {
    || StuckIn(before, after, t.tests, err, outer, cap, random)
    || (NoErrorsBefore(t.tests, |t.tests|, outer, cap, random)
        && SuitesFail(t, t.tests, after, err, outer, cap, random))
  }

  /** The passes over the suites below `parent`, which began with the root's
      list holding the survivors of `own`, raised `err` and left the list at
      `after`: the suites before some f expanded, and the pass over suite f
      raised, begun on the list the suites before it left. */
  ghost predicate SuitesFail(parent: SuiteTree, own: seq<TestCase>, after: seq<TestCase>, err: Error,
                             outer: Scope, cap: Arg, random: Arg)
    requires CapShaped(cap)
    decreases parent, 0
  {
    exists f :: 0 <= f < |parent.suites| && SuitesExpand(parent.suites, f, outer, cap, random)
      && TreeFails(parent.suites[f], AfterPass(own, parent.suites[..f]), after, err, outer, cap, random)
  }

  /** Suite f is the witness of SuitesFail. */
  lemma SuitesFailAt(parent: SuiteTree, own: seq<TestCase>, after: seq<TestCase>, err: Error,
                     outer: Scope, cap: Arg, random: Arg, f: nat)
    requires CapShaped(cap) && f < |parent.suites| && SuitesExpand(parent.suites, f, outer, cap, random)
    requires TreeFails(parent.suites[f], AfterPass(own, parent.suites[..f]), after, err, outer, cap, random)
    ensures SuitesFail(parent, own, after, err, outer, cap, random)
  {
  }

  /** The loop over the root's own live list raised `err` at a test, which
      by then held the original tests followed by the expansions of the
      templates before it. */
  ghost predicate RootStuck(original: seq<TestCase>, live: seq<TestCase>, sels: seq<seq<Record>>, err: Error,
                            outer: Scope, cap: Arg, random: Arg)
    requires CapShaped(cap)
  {
    exists k: nat :: LivePrefix(original, live, k, sels, outer, cap, random)
      && k < |live| && ExpansionError(live[k], outer, cap, random) == Some(err)
  }

  /** The pass begun on the root suite raised `err` and left its list at
      `after`: either its own loop raised, with the list as that loop had
      grown it, or the loop ran to its end over the list `live` and then the
      pass over a suite below raised. */
  ghost predicate RootPassFails(original: seq<TestCase>, suites: seq<SuiteTree>, live: seq<TestCase>,
                                sels: seq<seq<Record>>, after: seq<TestCase>, err: Error,
                                outer: Scope, cap: Arg, random: Arg)
    requires CapShaped(cap)
  {
    || RootStuck(original, after, sels, err, outer, cap, random)
    || (&& ClosedExpansion(original, live, sels, outer, cap, random)
        && SuitesFail(SuiteTree("", [], suites), live, after, err, outer, cap, random))
  }

  lemma AppendedStart(before: seq<TestCase>, tests: seq<TestCase>, outer: Scope, cap: Arg, random: Arg)
    requires CapShaped(cap)
    ensures AppendedFor(before, before, tests, 0, [], outer, cap, random)
  {
    assert tests[..0] == [];
    AppendEmpty(before);
  }

  /** A test that is not a template leaves the list as it is. */
  lemma AppendedKeep(before: seq<TestCase>, after: seq<TestCase>, tests: seq<TestCase>, k: nat,
                     sels: seq<seq<Record>>, outer: Scope, cap: Arg, random: Arg)
    requires CapShaped(cap)
    requires AppendedFor(before, after, tests, k, sels, outer, cap, random)
    requires k < |tests| && !IsTemplate(tests[k])
    ensures AppendedFor(before, after, tests, k + 1, sels, outer, cap, random)
  {
    NonTemplatesStep(tests, k);
    AppendEmpty(Templates(tests[..k]));
    NoErrorsStep(tests, k, [], outer, cap, random);
    AppendEmpty(tests);
  }

  /** A template appends its expansion. */
  lemma AppendedTemplate(before: seq<TestCase>, after: seq<TestCase>, tests: seq<TestCase>, k: nat,
                         sels: seq<seq<Record>>, sel: seq<Record>, outer: Scope, cap: Arg, random: Arg)
    requires CapShaped(cap)
    requires AppendedFor(before, after, tests, k, sels, outer, cap, random)
    requires k < |tests| && ExpandsTo(tests[k], sel, outer, cap, random)
    ensures AppendedFor(before, after + GenerateAll(tests[k], sel, outer), tests, k + 1, sels + [sel],
                        outer, cap, random)
  {
    NonTemplatesStep(tests, k);
    ExpandsToNoError(tests[k], sel, outer, cap, random);
    NoErrorsStep(tests, k, [], outer, cap, random);
    AppendEmpty(tests);
    AllExpandSnoc(Templates(tests[..k]), sels, tests[k], sel, outer, cap, random);
    ProducedExtend(before, after, Templates(tests[..k]), sels, tests[k], sel, outer);
  }

  /** A pass recorded as failing does fail: the tree it was over does not
      expand, since some test in it raises. */
  lemma {:induction false} TreeFailsRaises(t: SuiteTree, before: seq<TestCase>, after: seq<TestCase>, err: Error,
                                           outer: Scope, cap: Arg, random: Arg)
    requires CapShaped(cap)
    requires TreeFails(t, before, after, err, outer, cap, random)
    ensures !TreeExpands(t, outer, cap, random)
    decreases t
  {
    if StuckIn(before, after, t.tests, err, outer, cap, random) {
      StuckInRaises(before, after, t.tests, err, outer, cap, random);
      TreeExpandsParts(t, outer, cap, random);
    } else {
      assert SuitesFail(t, t.tests, after, err, outer, cap, random);
      var f: nat :| f < |t.suites|
        && TreeFails(t.suites[f], AfterPass(t.tests, t.suites[..f]), after, err, outer, cap, random);
      TreeFailsRaises(t.suites[f], AfterPass(t.tests, t.suites[..f]), after, err, outer, cap, random);
      SuiteRaises(t, f, outer, cap, random);
    }
  }

  lemma StuckInRaises(before: seq<TestCase>, after: seq<TestCase>, tests: seq<TestCase>, err: Error,
                      outer: Scope, cap: Arg, random: Arg)
    requires CapShaped(cap)
    requires StuckIn(before, after, tests, err, outer, cap, random)
    ensures !NoErrorsBefore(tests, |tests|, outer, cap, random)
  {
    var k: nat, sels :| AppendedFor(before, after, tests, k, sels, outer, cap, random)
      && k < |tests| && ExpansionError(tests[k], outer, cap, random) == Some(err);
    NoErrorsFails(tests, k, outer, cap, random);
  }

  lemma SuiteRaises(t: SuiteTree, f: nat, outer: Scope, cap: Arg, random: Arg)
    requires CapShaped(cap) && f < |t.suites|
    requires !TreeExpands(t.suites[f], outer, cap, random)
    ensures !TreeExpands(t, outer, cap, random)
  {
  }

  // ---------------------------------------------------------------------
  // Termination of the live loop
  // ---------------------------------------------------------------------

  /** A measure of how much work a test can still cause: 1 for a test that
      expands to nothing, and for a template one more than its rows times
      the largest measure among the tests any row could generate. Cloning
      drops the `Examples:` call, so generated bodies are shorter. */
  ghost function Bound(t: TestCase, outer: Scope): (b: nat)
    ensures b >= 1
    decreases |t.body|, 1
  {
    if !IsTemplate(t) then 1
    else
      var table := ExamplesTable(t, outer);
      if table.Err? then 1 else 1 + Scale(|table.value|, MaxBound(t, outer, table.value))
  }

  /** n * m, by repeated addition. */
  function Scale(n: nat, m: nat): nat {
    if n == 0 then 0 else Scale(n - 1, m) + m
  }

  ghost function MaxBound(t: TestCase, outer: Scope, records: seq<Record>): nat
    requires IsTemplate(t)
    decreases |t.body|, 0, |records|
  {
    if records == [] then 0
    else
      var n := |records| - 1;
      var g := Generate(t, outer + records[n]);
      var m := MaxBound(t, outer, records[..n]);
      var b := Bound(g, outer);
      if b > m then b else m
  }

  ghost function SumBounds(ts: seq<TestCase>, outer: Scope): nat {
    if ts == [] then 0 else Bound(ts[0], outer) + SumBounds(ts[1..], outer)
  }

  lemma SumBoundsAt(ts: seq<TestCase>, i: nat, outer: Scope)
    requires i < |ts|
    ensures SumBounds(ts[i..], outer) == Bound(ts[i], outer) + SumBounds(ts[i + 1..], outer)
  {
    assert ts[i..][1..] == ts[i + 1..];
  }

  lemma SumBoundsAppend(a: seq<TestCase>, b: seq<TestCase>, outer: Scope)
    ensures SumBounds(a + b, outer) == SumBounds(a, outer) + SumBounds(b, outer)
  {
    if a != [] {
      assert (a + b)[1..] == a[1..] + b;
      SumBoundsAppend(a[1..], b, outer);
    } else {
      assert a + b == b;
    }
  }

  /** Every row's generated test measures at most the template's maximum. */
  lemma {:induction false} MaxBoundAtLeast(t: TestCase, outer: Scope, records: seq<Record>, r: Record)
    requires IsTemplate(t) && r in records
    ensures Bound(Generate(t, outer + r), outer) <= MaxBound(t, outer, records)
    decreases |records|
  {
    var n := |records| - 1;
    if records[n] != r {
      assert r in records[..n] by {
        var i :| 0 <= i < |records| && records[i] == r;
        assert records[..n][i] == r;
      }
      MaxBoundAtLeast(t, outer, records[..n], r);
    }
  }

  lemma GenerateAllTail(t: TestCase, sel: seq<Record>, outer: Scope)
    requires sel != []
    ensures GenerateAll(t, sel, outer)[1..] == GenerateAll(t, sel[1..], outer)
  {
    var g, h := GenerateAll(t, sel, outer)[1..], GenerateAll(t, sel[1..], outer);
    forall i | 0 <= i < |h| ensures g[i] == h[i] {
      assert sel[1..][i] == sel[i + 1];
    }
  }

  lemma {:induction false} GeneratedWithin(t: TestCase, outer: Scope, records: seq<Record>, sel: seq<Record>)
    requires IsTemplate(t)
    requires forall i :: 0 <= i < |sel| ==> sel[i] in records
    ensures SumBounds(GenerateAll(t, sel, outer), outer) <= Scale(|sel|, MaxBound(t, outer, records))
  {
    if sel != [] {
      var rest := sel[1..];
      forall i | 0 <= i < |rest| ensures rest[i] in records {
        assert rest[i] == sel[i + 1];
      }
      GeneratedWithin(t, outer, records, rest);
      GeneratedWithinStep(t, outer, records, sel);
    }
  }

  /** The first generated test adds at most the maximum to the rest. */
  lemma GeneratedWithinStep(t: TestCase, outer: Scope, records: seq<Record>, sel: seq<Record>)
    requires IsTemplate(t) && sel != [] && sel[0] in records
    requires SumBounds(GenerateAll(t, sel[1..], outer), outer) <= Scale(|sel| - 1, MaxBound(t, outer, records))
    ensures SumBounds(GenerateAll(t, sel, outer), outer) <= Scale(|sel|, MaxBound(t, outer, records))
  {
    var m := MaxBound(t, outer, records);
    var g := GenerateAll(t, sel, outer);
    assert g[0] == Generate(t, outer + sel[0]);
    GenerateAllTail(t, sel, outer);
    MaxBoundAtLeast(t, outer, records, sel[0]);
    assert SumBounds(g, outer) == Bound(g[0], outer) + SumBounds(g[1..], outer);
    assert Scale(|sel|, m) == Scale(|sel| - 1, m) + m;
  }

  lemma {:induction false} ScaleMono(a: nat, b: nat, m: nat)
    requires a <= b
    ensures Scale(a, m) <= Scale(b, m)
    decreases b
  {
    if a < b {
      ScaleMono(a, b - 1, m);
    }
  }

  /** Expanding a template replaces its measure by strictly less: the
      measures of the tests it generates add up to less than its own. */
  lemma ExpansionShrinks(t: TestCase, sel: seq<Record>, outer: Scope, cap: Arg, random: Arg)
    requires CapShaped(cap)
    requires ExpandsTo(t, sel, outer, cap, random)
    ensures SumBounds(GenerateAll(t, sel, outer), outer) < Bound(t, outer)
  {
    var records := ExamplesTable(t, outer).value;
    SelectionWithinRecords(sel, records, cap, random);
    GeneratedWithin(t, outer, records, sel);
    ScaleMono(|sel|, |records|, MaxBound(t, outer, records));
  }
}
