/** Abstract stand-ins for the Robot Framework objects the Examples library
    touches: keyword calls, control structures with nested bodies, test
    cases, suites, and the stack of variable scopes of the running
    context. */
module RobotModel {
  import opened Common
  import opened Substitution

  /** A keyword call as `Body.create_keyword` builds it. */
  datatype Keyword = Keyword(name: string, args: seq<string>, assign: seq<string>,
                             tags: seq<string>, timeout: Option<string>, lineno: int)

  /** A body item: a keyword call, or a control structure (FOR, IF and its
      branches, ...) with a nested body. A control structure has no `name`;
      it may have loop `values` and a `condition` (None: the attribute is
      absent). */
  datatype BodyItem =
    | Kw(kw: Keyword)
    | Block(kind: string, lineno: int, values: Option<seq<string>>,
            condition: Option<string>, body: seq<BodyItem>)

  /** A test case. `doc` and `timeout` are the fields that `tests.create(name)`
      leaves at their defaults. */
  datatype TestCase = TestCase(name: string, doc: string, timeout: Option<string>,
                               body: seq<BodyItem>, setup: Option<Keyword>,
                               teardown: Option<Keyword>, tags: seq<string>)

  /** A suite the expansion only reads: its tests and its child suites. */
  datatype SuiteTree = SuiteTree(name: string, tests: seq<TestCase>, suites: seq<SuiteTree>)

  /** The suite the library was started on: the only suite whose test list
      the expansion assigns. Its child suites are never written. */
  class Suite {
    const name: string
    var tests: seq<TestCase>
    const suites: seq<SuiteTree>

    constructor (name: string, tests: seq<TestCase>, suites: seq<SuiteTree>)
      ensures this.name == name && this.tests == tests && this.suites == suites
    {
      this.name := name;
      this.tests := tests;
      this.suites := suites;
    }
  }

  /** The variable scopes of the running context: a stack of frames whose
      top frame is the one substitution reads and writes. */
  class Variables {
    var frames: seq<Scope>

    ghost predicate Valid()
      reads this
    {
      |frames| > 0
    }

    /** `variables.current`. */
    function Current(): Scope
      reads this
      requires Valid()
    {
      frames[|frames| - 1]
    }

    constructor (globals: Scope)
      ensures Valid() && frames == [globals]
    {
      frames := [globals];
    }

    /** `start_keyword()`: open a new frame on top of the stack. */
    method StartKeyword()
      requires Valid()
      modifies this
      ensures Valid() && frames == old(frames) + [map[]]
    {
      frames := frames + [map[]];
    }

    /** `current.update(...)` / `current.store.data.update(...)`: bind every
        given name in the top frame, overriding earlier bindings. */
    method UpdateCurrent(bindings: Scope)
      requires Valid()
      modifies this
      ensures Valid()
      ensures frames == old(frames)[..|old(frames)| - 1] + [old(Current()) + bindings]
    {
      frames := frames[..|frames| - 1] + [Current() + bindings];
    }

    /** `end_keyword()`: drop the top frame. */
    method EndKeyword()
      requires |frames| > 1
      modifies this
      ensures Valid() && frames == old(frames)[..|old(frames)| - 1]
    {
      frames := frames[..|frames| - 1];
    }
  }
}
