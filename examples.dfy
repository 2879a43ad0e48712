/** The `Examples` library object (Examples.py:7-187): its options, the
    suite it was started on, and the expansion of every template test of
    that suite into one concrete test per example row. */
module ExamplesLibrary {
  import opened Common
  import opened PyValues
  import opened Substitution
  import opened RobotModel
  import opened Cloning
  import RoboPandas
  import opened Selection
  import opened Options
  import opened Expansion

  class Examples {
    var autoexpand: Arg
    var maxExamples: Arg
    var random: Arg
    var cap: Arg             // `_max_examples`, as the last call resolved it
    var chosenRandom: Arg    // `_random`, as the last call resolved it
    var currentSuite: Suite?
    const variables: Variables

    ghost predicate Valid()
      reads this, variables
    {
      && variables.Valid()
      && CapShaped(maxExamples)
      && CapShaped(cap)
    }

    function Settings(): Options.Settings
      reads this
    {
      Options.Settings(autoexpand, maxExamples, random)
    }

    /** Lines 62-66, once the options have been converted. */
    constructor (s: Options.Settings, variables: Variables)
      requires variables.Valid() && CapShaped(s.maxExamples)
      ensures Valid() && Settings() == s && currentSuite == null && this.variables == variables
      ensures cap == s.maxExamples && chosenRandom == s.random
    {
      autoexpand := s.autoexpand;
      maxExamples := s.maxExamples;
      random := s.random;
      cap := s.maxExamples;
      chosenRandom := s.random;
      currentSuite := null;
      this.variables := variables;
    }

    /** Line 70: the suite the listener was started on. */
    method AttachSuite(suite: Suite)
      modifies this`currentSuite
      ensures currentSuite == suite
    {
      currentSuite := suite;
    }

    /** Lines 74-87: open a keyword frame and copy the outer scope into it. */
    method LocaliseScope()
      requires Valid()
      modifies variables
      ensures Valid()
      ensures variables.frames == old(variables.frames) + [old(variables.Current())]
    {
      var outsideScope := variables.Current();
      variables.StartKeyword();
      variables.UpdateCurrent(outsideScope);
      assert map[] + outsideScope == outsideScope;
    }

    /** Lines 94-127. */
    method ExpandTestExamples(maxArg: Arg, randomArg: Arg)
      returns (r: Result<(), Error>, ghost live: seq<TestCase>, ghost sels: seq<seq<Record>>)
      requires Valid()
      modifies this`cap, this`chosenRandom, currentSuite, variables
      ensures Valid() && variables.frames == old(variables.frames)
      ensures var e := ResolveCall(Settings(), maxArg, randomArg);
        && (e.Err? ==> r == Err(e.error) && cap == old(cap) && chosenRandom == old(chosenRandom))
        && (e.Ok? ==> cap == e.value.cap && chosenRandom == e.value.random)
        && (e.Ok? && currentSuite == null ==> r == Err(NoCurrentSuite))
      ensures r.Ok? ==> currentSuite != null
      ensures ResolveCall(Settings(), maxArg, randomArg).Err? && currentSuite != null ==>
        currentSuite.tests == old(currentSuite.tests)
      ensures ResolveCall(Settings(), maxArg, randomArg).Ok? && r.Err? && currentSuite != null ==>
        RootPassFails(old(currentSuite.tests), currentSuite.suites, live, sels, currentSuite.tests, r.error,
                      old(variables.Current()), cap, chosenRandom)
      ensures r.Ok? ==>
        && ClosedExpansion(old(currentSuite.tests), live, sels, old(variables.Current()), cap, chosenRandom)
        && SuitesExpand(currentSuite.suites, |currentSuite.suites|, old(variables.Current()), cap, chosenRandom)
        && currentSuite.tests == AfterPass(live, currentSuite.suites)
        && PlainSoFar(old(currentSuite.tests), live)
      ensures r.Ok? ==> forall i :: 0 <= i < |currentSuite.tests| ==> !IsTemplate(currentSuite.tests[i])
    {
      live, sels := [], [];
      var resolved := ResolveOptions(maxArg, randomArg);
      if resolved.Err? {
        return Err(resolved.error), live, sels;
      }
      if currentSuite == null {
        return Err(NoCurrentSuite), live, sels;
      }
      ghost var outer := variables.Current();
      ghost var tests := currentSuite.tests;
      r, live, sels := ExpandRootSuite(outer);
      assert r.Ok? ==> ClosedExpansion(tests, live, sels, outer, cap, chosenRandom);
    }

    /** Lines 120-126: the cap and the random switch of this call. */
    method ResolveOptions(maxArg: Arg, randomArg: Arg) returns (r: Result<(), Error>)
      requires Valid()
      modifies this`cap, this`chosenRandom
      ensures Valid()
      ensures var e := ResolveCall(Settings(), maxArg, randomArg);
        && (e.Err? <==> r.Err?)
        && (e.Err? ==> r == Err(e.error) && cap == old(cap) && chosenRandom == old(chosenRandom))
        && (e.Ok? ==> cap == e.value.cap && chosenRandom == e.value.random)
    {
      ResolveCallOverrides(Settings(), maxArg, randomArg);
      var newCap := maxExamples;
      if Truthy(maxArg) {
        var v := PyInt(maxArg);
        if v.Err? {
          return Err(v.error);
        }
        newCap := IntArg(v.value);
      }
      cap := newCap;
      chosenRandom := if Truthy(randomArg) then randomArg else random;
      if Truthy(chosenRandom) && !Truthy(maxArg) {
        var v := PyInt(chosenRandom);
        if v.Ok? {
          cap := IntArg(v.value);
        }
      }
      r := Ok(());
    }

    /** Lines 129-136 on the suite the library was started on. The
        rewritten list goes to that suite (line 134), and then each suite
        below it is expanded in turn. */
    method ExpandRootSuite(ghost outer: Scope)
      returns (r: Result<(), Error>, ghost live: seq<TestCase>, ghost sels: seq<seq<Record>>)
      requires Valid() && currentSuite != null && variables.Current() == outer
      modifies currentSuite, variables
      ensures Valid() && variables.frames == old(variables.frames) && variables.Current() == outer
      ensures r.Ok? ==>
        && ClosedExpansion(old(currentSuite.tests), live, sels, outer, cap, chosenRandom)
        && SuitesExpand(currentSuite.suites, |currentSuite.suites|, outer, cap, chosenRandom)
        && currentSuite.tests == AfterPass(live, currentSuite.suites)
        && PlainSoFar(old(currentSuite.tests), live)
      ensures r.Ok? ==> forall i :: 0 <= i < |currentSuite.tests| ==> !IsTemplate(currentSuite.tests[i])
      ensures r.Err? ==>
        RootPassFails(old(currentSuite.tests), currentSuite.suites, live, sels, currentSuite.tests, r.error,
                      outer, cap, chosenRandom)
    {
      var res;
      res, live, sels := ExpandRootTests(outer);
      if res.Err? {
        return Err(res.error), live, sels;
      }
      currentSuite.tests := res.value;
      var children := currentSuite.suites;
      r := ExpandSuites(children, SuiteTree("", [], children), live, outer);
    }

    /** Lines 129-136 on a suite below the root. Its own list does not grow,
        but the rewritten list still goes to the root suite (line 134), so
        after a pass over a tree of suites the root holds the surviving tests
        of the suite visited last. */
    method ExpandChildSuite(tree: SuiteTree, ghost outer: Scope) returns (r: Result<(), Error>)
      requires Valid() && currentSuite != null && variables.Current() == outer
      modifies currentSuite, variables
      ensures Valid() && variables.frames == old(variables.frames) && variables.Current() == outer
      ensures r.Ok? <==> TreeExpands(tree, outer, cap, chosenRandom)
      ensures r.Ok? ==> currentSuite.tests == NonTemplates(LastVisited(tree).tests)
      ensures r.Err? ==> TreeFails(tree, old(currentSuite.tests), currentSuite.tests, r.error, outer, cap, chosenRandom)
      decreases tree, 1
    {
      TreeExpandsParts(tree, outer, cap, chosenRandom);
      var res := ExpandChildTests(tree, outer);
      if res.Err? {
        return Err(res.error);
      }
      currentSuite.tests := res.value;
      AfterPassOfTree(tree);
      r := ExpandSuites(tree.suites, tree, tree.tests, outer);
    }

    /** Lines 135-136: the pass over each suite below, in order; the first
        one that raises stops the rest. */
    method ExpandSuites(children: seq<SuiteTree>, ghost parent: SuiteTree, ghost own: seq<TestCase>, ghost outer: Scope)
      returns (r: Result<(), Error>)
      requires Valid() && currentSuite != null && variables.Current() == outer
      requires children == parent.suites
      requires currentSuite.tests == NonTemplates(own)
      modifies currentSuite, variables
      ensures Valid() && variables.frames == old(variables.frames) && variables.Current() == outer
      ensures r.Ok? <==> SuitesExpand(children, |children|, outer, cap, chosenRandom)
      ensures r.Ok? ==> currentSuite.tests == AfterPass(own, children)
      ensures r.Err? ==> SuitesFail(parent, own, currentSuite.tests, r.error, outer, cap, chosenRandom)
      decreases parent, 0
    {
      for k := 0 to |children|
        invariant Valid() && variables.frames == old(variables.frames) && variables.Current() == outer
        invariant SuitesExpand(children, k, outer, cap, chosenRandom)
        invariant currentSuite.tests == AfterPass(own, children[..k])
      {
        assert children[k] in parent.suites;
        var rk := ExpandChildSuite(children[k], outer);
        if rk.Err? {
          SuitesExpandFails(children, k, outer, cap, chosenRandom);
          SuitesFailAt(parent, own, currentSuite.tests, rk.error, outer, cap, chosenRandom, k);
          return Err(rk.error);
        }
        SuitesExpandStep(children, k, outer, cap, chosenRandom);
        AfterPassStep(own, children, k);
      }
      assert children[..|children|] == children;
      r := Ok(());
    }

    /** The loop of lines 131-133 on the root suite. It reads the root's
        list afresh on every step, so it also visits the tests that the
        expansions (line 157) append to that same list while it runs. */
    method ExpandRootTests(ghost outer: Scope)
      returns (r: Result<seq<TestCase>, Error>, ghost live: seq<TestCase>, ghost sels: seq<seq<Record>>)
      requires Valid() && currentSuite != null && variables.Current() == outer
      modifies currentSuite, variables
      ensures Valid() && variables.frames == old(variables.frames) && variables.Current() == outer
      ensures live == currentSuite.tests
      ensures r.Ok? ==>
        && ClosedExpansion(old(currentSuite.tests), live, sels, outer, cap, chosenRandom)
        && r.value == NonTemplates(live)
      ensures r.Ok? ==> PlainSoFar(old(currentSuite.tests), live)
      ensures r.Err? ==> RootStuck(old(currentSuite.tests), live, sels, r.error, outer, cap, chosenRandom)
    {
      ghost var original := currentSuite.tests;
      LiveStart(original, outer, cap, chosenRandom);
      sels := [];
      var replacementTests: seq<TestCase> := [];
      var i := 0;
      while i < |currentSuite.tests|
        invariant Valid() && variables.frames == old(variables.frames) && variables.Current() == outer
        invariant LiveLoop(original, currentSuite.tests, i, sels, replacementTests, outer, cap, chosenRandom)
        decreases SumBounds(currentSuite.tests[i..], outer)
      {
        var step;
        step, sels := VisitRootTest(i, replacementTests, original, sels, outer);
        if step.Err? {
          assert LivePrefix(original, currentSuite.tests, i, sels, outer, cap, chosenRandom);
          return Err(step.error), currentSuite.tests, sels;
        }
        replacementTests := step.value;
        i := i + 1;
      }
      live := currentSuite.tests;
      LiveEnd(original, live, sels, replacementTests, outer, cap, chosenRandom);
      r := Ok(replacementTests);
    }

    /** One pass of the loop body of lines 131-133 on test i of the root's
        list: a test that is not a template is kept, a template is expanded
        and dropped, and an error leaves the list as it was. */
    method VisitRootTest(i: nat, kept: seq<TestCase>, ghost original: seq<TestCase>,
                         ghost sels: seq<seq<Record>>, ghost outer: Scope)
      returns (r: Result<seq<TestCase>, Error>, ghost sels': seq<seq<Record>>)
      requires Valid() && currentSuite != null && variables.Current() == outer
      requires i < |currentSuite.tests|
      requires LiveLoop(original, currentSuite.tests, i, sels, kept, outer, cap, chosenRandom)
      modifies currentSuite, variables
      ensures Valid() && variables.frames == old(variables.frames) && variables.Current() == outer
      ensures r.Err? ==>
        && currentSuite.tests == old(currentSuite.tests) && sels' == sels
        && ExpansionError(currentSuite.tests[i], outer, cap, chosenRandom) == Some(r.error)
      ensures r.Ok? ==>
        && LiveLoop(original, currentSuite.tests, i + 1, sels', r.value, outer, cap, chosenRandom)
        && SumBounds(currentSuite.tests[i + 1..], outer) < SumBounds(old(currentSuite.tests)[i..], outer)
    {
      sels' := sels;
      ghost var before := currentSuite.tests;
      var tc := currentSuite.tests[i];
      var expanded, sel := ExpandExampleTc(tc, outer);
      if expanded.Err? {
        return Err(expanded.error), sels';
      }
      if !expanded.value {
        assert currentSuite.tests == before;
        LiveStepKeep(original, before, i, sels, outer, cap, chosenRandom);
        r := Ok(kept + [tc]);
      } else {
        assert currentSuite.tests == before + GenerateAll(before[i], sel, outer);
        LiveStepTemplate(original, before, i, sels, sel, outer, cap, chosenRandom);
        sels' := sels + [sel];
        r := Ok(kept);
      }
    }

    /** The loop of lines 131-133 on a suite below the root: its own list
        does not grow, since expansions go to the root's list. */
    method ExpandChildTests(tree: SuiteTree, ghost outer: Scope) returns (r: Result<seq<TestCase>, Error>)
      requires Valid() && currentSuite != null && variables.Current() == outer
      modifies currentSuite, variables
      ensures Valid() && variables.frames == old(variables.frames) && variables.Current() == outer
      ensures r.Ok? <==> NoErrorsBefore(tree.tests, |tree.tests|, outer, cap, chosenRandom)
      ensures r.Ok? ==> r.value == NonTemplates(tree.tests)
      ensures r.Err? ==> StuckIn(old(currentSuite.tests), currentSuite.tests, tree.tests, r.error,
                                 outer, cap, chosenRandom)
    {
      ghost var start := currentSuite.tests;
      ghost var sels: seq<seq<Record>> := [];
      AppendedStart(start, tree.tests, outer, cap, chosenRandom);
      var replacementTests: seq<TestCase> := [];
      for i := 0 to |tree.tests|
        invariant Valid() && variables.frames == old(variables.frames) && variables.Current() == outer
        invariant AppendedFor(start, currentSuite.tests, tree.tests, i, sels, outer, cap, chosenRandom)
        invariant replacementTests == NonTemplates(tree.tests[..i])
      {
        var step;
        step, sels := VisitChildTest(tree.tests, i, replacementTests, start, sels, outer);
        if step.Err? {
          NoErrorsFails(tree.tests, i, outer, cap, chosenRandom);
          assert AppendedFor(start, currentSuite.tests, tree.tests, i, sels, outer, cap, chosenRandom);
          return Err(step.error);
        }
        replacementTests := step.value;
      }
      assert tree.tests[..|tree.tests|] == tree.tests;
      r := Ok(replacementTests);
    }

    /** One pass of the loop body of lines 131-133 on test i of a suite
        below the root: the test is kept or, as a template, expanded onto
        the root's list, and an error leaves that list as it was. */
    method VisitChildTest(tests: seq<TestCase>, i: nat, kept: seq<TestCase>, ghost start: seq<TestCase>,
                          ghost sels: seq<seq<Record>>, ghost outer: Scope)
      returns (r: Result<seq<TestCase>, Error>, ghost sels': seq<seq<Record>>)
      requires Valid() && currentSuite != null && variables.Current() == outer
      requires i < |tests| && kept == NonTemplates(tests[..i])
      requires AppendedFor(start, currentSuite.tests, tests, i, sels, outer, cap, chosenRandom)
      modifies currentSuite, variables
      ensures Valid() && variables.frames == old(variables.frames) && variables.Current() == outer
      ensures r.Err? ==>
        && currentSuite.tests == old(currentSuite.tests) && sels' == sels
        && ExpansionError(tests[i], outer, cap, chosenRandom) == Some(r.error)
      ensures r.Ok? ==>
        && AppendedFor(start, currentSuite.tests, tests, i + 1, sels', outer, cap, chosenRandom)
        && r.value == NonTemplates(tests[..i + 1])
    {
      sels' := sels;
      ghost var before := currentSuite.tests;
      var tc := tests[i];
      var expanded, sel := ExpandExampleTc(tc, outer);
      if expanded.Err? {
        return Err(expanded.error), sels';
      }
      NonTemplatesStep(tests, i);
      if !expanded.value {
        AppendedKeep(start, before, tests, i, sels, outer, cap, chosenRandom);
        r := Ok(kept + [tc]);
      } else {
        AppendedTemplate(start, before, tests, i, sels, sel, outer, cap, chosenRandom);
        sels' := sels + [sel];
        r := Ok(kept);
      }
    }

    /** Lines 138-164. The `Examples:` arguments are substituted in the
        scope in force, the table is built and the rows are selected; then
        one keyword frame is opened, each row in turn is written into it and
        a test is generated and appended to the root suite's list, and the
        frame is closed. */
    method ExpandExampleTc(tc: TestCase, ghost outer: Scope) returns (r: Result<bool, Error>, ghost sel: seq<Record>)
      requires Valid() && currentSuite != null && variables.Current() == outer
      modifies currentSuite, variables
      ensures Valid() && variables.frames == old(variables.frames) && variables.Current() == outer
      ensures r == Ok(false) <==> !IsTemplate(tc)
      ensures r.Err? <==> ExpansionError(tc, outer, cap, chosenRandom).Some?
      ensures r.Err? ==> r.error == ExpansionError(tc, outer, cap, chosenRandom).value
      ensures r != Ok(true) ==> currentSuite.tests == old(currentSuite.tests)
      ensures r == Ok(true) ==>
        && ExpandsTo(tc, sel, outer, cap, chosenRandom)
        && currentSuite.tests == old(currentSuite.tests) + GenerateAll(tc, sel, outer)
    {
      sel := [];
      var found := FindExamplesKeyword(tc.body);
      if found.None? {
        return Ok(false), sel;
      }
      var args := ReplaceList(found.value.args, variables.Current());
      var table := ExampleRecords(args);
      if table.Err? {
        return Err(table.error), sel;
      }
      var records := table.value;
      var chosen := SelectExamples(records, cap, chosenRandom);
      if chosen.Err? {
        return Err(chosen.error), sel;
      }
      var exampleData := chosen.value;
      sel := exampleData;
      SelectionWithinRecords(exampleData, records, cap, chosenRandom);
      ghost var keys := RoboPandas.HeaderSet(RoboPandas.SplitTable(args).value.headers);
      assert forall j :: 0 <= j < |exampleData| ==> exampleData[j].Keys == keys;

      GenerateRows(tc, exampleData, keys);
      r := Ok(true);
    }

    /** Lines 154-163: one keyword frame holds the rows in turn; each row
        yields one test appended to the root suite's list. */
    method GenerateRows(tc: TestCase, exampleData: seq<Record>, ghost keys: set<string>)
      requires Valid() && currentSuite != null
      requires forall j :: 0 <= j < |exampleData| ==> exampleData[j].Keys == keys
      modifies currentSuite, variables
      ensures Valid() && variables.frames == old(variables.frames) && variables.Current() == old(variables.Current())
      ensures currentSuite.tests == old(currentSuite.tests) + GenerateAll(tc, exampleData, old(variables.Current()))
    {
      var outer := variables.Current();
      LocaliseScope();
      ghost var base := old(variables.frames);
      for j := 0 to |exampleData|
        invariant Valid()
        invariant variables.frames == base + [Accumulate(outer, exampleData[..j])]
        invariant currentSuite.tests == old(currentSuite.tests) + GenerateAll(tc, exampleData[..j], outer)
      {
        ghost var acc := Accumulate(outer, exampleData[..j]);
        AccumulateStep(outer, exampleData, j);
        variables.UpdateCurrent(exampleData[j]);
        RowIsolation(outer, exampleData[..j + 1], keys);
        var scope := variables.Current();
        assert scope == acc + exampleData[j];
        var body := PopulateBody(tc.body, scope, []);
        assert body == CloneBody(tc.body, scope);
        var filledTc := TestCase(ReplaceScalar(tc.name, scope), "", None, body,
                                 tc.setup, tc.teardown, ReplaceList(tc.tags, scope));
        assert filledTc == Generate(tc, outer + exampleData[j]);
        GenerateAllStep(tc, exampleData, outer, j);
        currentSuite.tests := currentSuite.tests + [filledTc];
      }
      assert exampleData[..|exampleData|] == exampleData;
      variables.EndKeyword();
    }
  }

  /** Line 148: `create_dataframe(*args).to_dict('records')`, the rows of
      the examples table as records, every one keyed by the header row. */
  method ExampleRecords(args: seq<string>) returns (r: Result<seq<Record>, Error>)
    ensures r == RoboPandas.TableRecords(args)
    ensures r.Ok? ==> forall j :: 0 <= j < |r.value| ==>
      r.value[j].Keys == RoboPandas.HeaderSet(RoboPandas.SplitTable(args).value.headers)
  {
    var frame := RoboPandas.CreateDataframe(args, None, None);
    if frame.Err? {
      return Err(frame.error);
    }
    r := Ok(frame.value.Records());
  }

  /** Lines 51-66: build the library object, or raise what `int` raises on
      the global `max_examples`. */
  method Instantiate(autoexpand: Arg, maxExamples: Arg, random: Arg, variables: Variables)
    returns (r: Result<Examples, Error>)
    requires variables.Valid()
    ensures r.Err? <==> InitOptions(autoexpand, maxExamples, random).Err?
    ensures r.Err? ==> r.error == InitOptions(autoexpand, maxExamples, random).error
    ensures r.Ok? ==>
      && fresh(r.value) && r.value.Valid()
      && r.value.Settings() == InitOptions(autoexpand, maxExamples, random).value
      && r.value.currentSuite == null && r.value.variables == variables
  {
    var s := InitOptions(autoexpand, maxExamples, random);
    if s.Err? {
      return Err(s.error);
    }
    InitOptionsCapShaped(autoexpand, maxExamples, random);
    var library := new Examples(s.value, variables);
    r := Ok(library);
  }
}
