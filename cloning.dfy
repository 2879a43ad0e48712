/** Finding the `Examples:` pseudo-keyword in a test (Examples.py:139-147)
    and cloning a test body under a scope (Examples.py:166-187): keyword
    calls are rebuilt with substituted name, arguments, assignments and tags;
    control structures are copied with substituted values and condition and
    their bodies cloned in turn; `Examples:` calls are dropped at every
    depth. */
module Cloning {
  import opened Common
  import opened Substitution
  import opened RobotModel

  const ExamplesName: string := "examples:"

  predicate IsExamplesName(name: string) {
    Lower(name) == ExamplesName
  }

  /** An item that `kw.name.lower() == 'examples:'` selects. Control
      structures have no `name` and are never selected. */
  predicate IsExamplesItem(item: BodyItem) {
    item.Kw? && IsExamplesName(item.kw.name)
  }

  // ---------------------------------------------------------------------
  // Template detection
  // ---------------------------------------------------------------------

  /** Position of the first top-level `Examples:` call. */
  function FirstExamplesIndex(body: seq<BodyItem>): (r: Option<nat>)
    ensures r.None? <==> forall i :: 0 <= i < |body| ==> !IsExamplesItem(body[i])
    ensures r.Some? ==> r.value < |body| && IsExamplesItem(body[r.value])
    ensures r.Some? ==> forall k :: 0 <= k < r.value ==> !IsExamplesItem(body[k])
  {
    if body == [] then None
    else if IsExamplesItem(body[0]) then Some(0)
    else match FirstExamplesIndex(body[1..])
      case None => None
      case Some(i) => Some(i + 1)
  }

  /** The `Examples:` call that makes a test a template, if any. */
  function FindExamples(body: seq<BodyItem>): (r: Option<Keyword>)
    ensures r.None? <==> forall i :: 0 <= i < |body| ==> !IsExamplesItem(body[i])
    ensures r.Some? ==> IsExamplesName(r.value.name)
  {
    match FirstExamplesIndex(body)
    case None => None
    case Some(i) => Some(body[i].kw)
  }

  predicate IsTemplate(tc: TestCase) {
    FindExamples(tc.body).Some?
  }

  /** Lines 139-147: scan the top-level items in order and stop at the first
      `Examples:` call. */
  method FindExamplesKeyword(body: seq<BodyItem>) returns (found: Option<Keyword>)
    ensures found == FindExamples(body)
  {
    for i := 0 to |body|
      invariant forall k :: 0 <= k < i ==> !IsExamplesItem(body[k])
    {
      match body[i] {
        case Kw(kw) =>
          if IsExamplesName(kw.name) {
            return Some(kw);
          }
        case Block(_, _, _, _, _) =>
          // no `name` attribute: the AttributeError is caught and the item skipped
      }
    }
    return None;
  }

  // ---------------------------------------------------------------------
  // Cloning (lines 166-187)
  // ---------------------------------------------------------------------

  function SubstKeyword(kw: Keyword, scope: Scope): Keyword {
    Keyword(ReplaceScalar(kw.name, scope), ReplaceList(kw.args, scope),
            ReplaceList(kw.assign, scope), ReplaceList(kw.tags, scope),
            kw.timeout, kw.lineno)
  }

  function SubstValues(values: Option<seq<string>>, scope: Scope): Option<seq<string>> {
    match values
    case None => None
    case Some(vs) => Some(ReplaceList(vs, scope))
  }

  function SubstCondition(condition: Option<string>, scope: Scope): Option<string> {
    match condition
    case None => None
    case Some(c) => Some(ReplaceScalar(c, scope))
  }

  /** What `_populate_example_to_body(body, target)` appends to `target`.
      The clone never has more items than the body, and has fewer when the
      body holds a top-level `Examples:` call. */
  function CloneBody(body: seq<BodyItem>, scope: Scope): (r: seq<BodyItem>)
    ensures |r| <= |body|
    ensures (exists i :: 0 <= i < |body| && IsExamplesItem(body[i])) ==> |r| < |body|
    decreases body
  {
    if body == [] then []
    else
      var n := |body| - 1;
      assert forall i :: 0 <= i < n ==> body[..n][i] == body[i];
      CloneBody(body[..n], scope) + CloneItem(body[n], scope)
  }

  function CloneItem(item: BodyItem, scope: Scope): (r: seq<BodyItem>)
    ensures IsExamplesItem(item) ==> r == []
    ensures !IsExamplesItem(item) ==> |r| == 1 && r[0].Kw? == item.Kw?
    decreases item
  {
    match item
    case Kw(kw) =>
      if IsExamplesName(kw.name) then [] else [Kw(SubstKeyword(kw, scope))]
    case Block(kind, lineno, values, condition, body) =>
      [Block(kind, lineno, SubstValues(values, scope), SubstCondition(condition, scope),
             CloneBody(body, scope))]
  }

  lemma CloneBodyStep(body: seq<BodyItem>, i: nat, scope: Scope)
    requires i < |body|
    ensures CloneBody(body[..i + 1], scope) == CloneBody(body[..i], scope) + CloneItem(body[i], scope)
  {
    assert body[..i + 1][..i] == body[..i] && body[..i + 1][i] == body[i];
  }

  /** Lines 166-187: walk the body in order, appending to `target`. */
  method PopulateBody(body: seq<BodyItem>, scope: Scope, target: seq<BodyItem>)
    returns (filled: seq<BodyItem>)
    ensures filled == target + CloneBody(body, scope)
    decreases body
  {
    filled := target;
    for i := 0 to |body|
      invariant filled == target + CloneBody(body[..i], scope)
    {
      CloneBodyStep(body, i, scope);
      var piece: seq<BodyItem> := [];
      match body[i] {
        case Kw(kw) =>
          if !IsExamplesName(kw.name) {
            piece := [Kw(Keyword(ReplaceScalar(kw.name, scope), ReplaceList(kw.args, scope),
                                 ReplaceList(kw.assign, scope), ReplaceList(kw.tags, scope),
                                 kw.timeout, kw.lineno))];
          }
        case Block(kind, lineno, values, condition, children) =>
          var newValues := values;
          if values.Some? {
            newValues := Some(ReplaceList(values.value, scope));
          }
          var newCondition := condition;
          if condition.Some? {
            newCondition := Some(ReplaceScalar(condition.value, scope));
          }
          var newBody := PopulateBody(children, scope, []);
          assert newBody == CloneBody(children, scope);
          piece := [Block(kind, lineno, newValues, newCondition, newBody)];
      }
      assert piece == CloneItem(body[i], scope);
      ConcatAssoc(target, CloneBody(body[..i], scope), piece);
      filled := filled + piece;
    }
    assert body[..|body|] == body;
  }

  // ---------------------------------------------------------------------
  // Reference definitions: strip, then substitute; and the shape of a body
  // ---------------------------------------------------------------------

  /** Drop every `Examples:` call, at every depth, and change nothing else. */
  function Strip(body: seq<BodyItem>): seq<BodyItem>
    decreases body
  {
    if body == [] then []
    else StripItem(body[0]) + Strip(body[1..])
  }

  function StripItem(item: BodyItem): seq<BodyItem>
    decreases item
  {
    match item
    case Kw(kw) => if IsExamplesName(kw.name) then [] else [item]
    case Block(kind, lineno, values, condition, body) =>
      [Block(kind, lineno, values, condition, Strip(body))]
  }

  /** Substitute the fields of every item, at every depth, keeping every item. */
  function SubstBody(body: seq<BodyItem>, scope: Scope): (r: seq<BodyItem>)
    ensures |r| == |body|
    decreases body
  {
    seq(|body|, i requires 0 <= i < |body| => SubstItem(body[i], scope))
  }

  function SubstItem(item: BodyItem, scope: Scope): BodyItem
    decreases item
  {
    match item
    case Kw(kw) => Kw(SubstKeyword(kw, scope))
    case Block(kind, lineno, values, condition, body) =>
      Block(kind, lineno, SubstValues(values, scope), SubstCondition(condition, scope),
            SubstBody(body, scope))
  }

  /** The shape of a body: item kinds, sibling order and nesting, with the
      fields that substitution never touches, and nothing that it does. */
  datatype Shape =
    | KwShape(timeout: Option<string>, lineno: int)
    | BlockShape(kind: string, lineno: int, hasValues: bool, hasCondition: bool, body: seq<Shape>)

  function ShapeOf(body: seq<BodyItem>): (r: seq<Shape>)
    ensures |r| == |body|
    decreases body
  {
    seq(|body|, i requires 0 <= i < |body| => ItemShape(body[i]))
  }

  function ItemShape(item: BodyItem): Shape
    decreases item
  {
    match item
    case Kw(kw) => KwShape(kw.timeout, kw.lineno)
    case Block(kind, lineno, values, condition, body) =>
      BlockShape(kind, lineno, values.Some?, condition.Some?, ShapeOf(body))
  }

  /** No `Examples:` call at any depth. */
  predicate NoExamples(body: seq<BodyItem>)
    decreases body
  {
    forall i :: 0 <= i < |body| ==> NoExamplesItem(body[i])
  }

  predicate NoExamplesItem(item: BodyItem)
    decreases item
  {
    match item
    case Kw(kw) => !IsExamplesName(kw.name)
    case Block(_, _, _, _, body) => NoExamples(body)
  }

  // ---------------------------------------------------------------------
  // Properties of cloning
  // ---------------------------------------------------------------------

  lemma StripAppend(a: seq<BodyItem>, b: seq<BodyItem>)
    ensures Strip(a + b) == Strip(a) + Strip(b)
    decreases |a|
  {
    if a != [] {
      assert (a + b)[0] == a[0] && (a + b)[1..] == a[1..] + b;
      StripAppend(a[1..], b);
    } else {
      assert a + b == b;
    }
  }

  lemma StripSnoc(a: seq<BodyItem>, x: BodyItem)
    ensures Strip(a + [x]) == Strip(a) + StripItem(x)
  {
    StripAppend(a, [x]);
    assert Strip([x]) == StripItem(x) + Strip([]);
  }

  /** Cloning is stripping the `Examples:` calls and then substituting the
      fields of everything that remains. */
  lemma {:induction false} CloneIsStripThenSubst(body: seq<BodyItem>, scope: Scope)
    ensures CloneBody(body, scope) == SubstBody(Strip(body), scope)
    decreases body
  {
    if body != [] {
      var n := |body| - 1;
      CloneIsStripThenSubst(body[..n], scope);
      CloneItemIsStripThenSubst(body[n], scope);
      assert body == body[..n] + [body[n]];
      StripSnoc(body[..n], body[n]);
      var a, b := Strip(body[..n]), StripItem(body[n]);
      assert SubstBody(a + b, scope) == SubstBody(a, scope) + SubstBody(b, scope);
    }
  }

  lemma {:induction false} CloneItemIsStripThenSubst(item: BodyItem, scope: Scope)
    ensures CloneItem(item, scope) == SubstBody(StripItem(item), scope)
    decreases item
  {
    match item
    case Kw(kw) =>
    case Block(kind, lineno, values, condition, body) =>
      CloneIsStripThenSubst(body, scope);
  }

  /** Substitution keeps the shape: same items, same order, same nesting,
      same timeouts and line numbers. */
  lemma {:induction false} SubstKeepsShape(body: seq<BodyItem>, scope: Scope)
    ensures ShapeOf(SubstBody(body, scope)) == ShapeOf(body)
    decreases body
  {
    forall i | 0 <= i < |body|
      ensures ItemShape(SubstItem(body[i], scope)) == ItemShape(body[i])
    {
      SubstItemKeepsShape(body[i], scope);
    }
  }

  lemma {:induction false} SubstItemKeepsShape(item: BodyItem, scope: Scope)
    ensures ItemShape(SubstItem(item, scope)) == ItemShape(item)
    decreases item
  {
    match item
    case Kw(kw) =>
    case Block(kind, lineno, values, condition, body) =>
      SubstKeepsShape(body, scope);
  }

  /** Under an empty scope substitution is the identity. */
  lemma {:induction false} SubstEmptyScope(body: seq<BodyItem>)
    ensures SubstBody(body, map[]) == body
    decreases body
  {
    forall i | 0 <= i < |body| ensures SubstItem(body[i], map[]) == body[i] {
      SubstItemEmptyScope(body[i]);
    }
  }

  lemma {:induction false} SubstItemEmptyScope(item: BodyItem)
    ensures SubstItem(item, map[]) == item
    decreases item
  {
    match item
    case Kw(kw) =>
      ReplaceScalarEmptyScope(kw.name);
      ReplaceListEmptyScope(kw.args);
      ReplaceListEmptyScope(kw.assign);
      ReplaceListEmptyScope(kw.tags);
    case Block(kind, lineno, values, condition, body) =>
      SubstEmptyScope(body);
      if values.Some? { ReplaceListEmptyScope(values.value); }
      if condition.Some? { ReplaceScalarEmptyScope(condition.value); }
  }

  /** Stripping leaves no `Examples:` call at any depth. */
  lemma {:induction false} StripLeavesNoExamples(body: seq<BodyItem>)
    ensures NoExamples(Strip(body))
    decreases body
  {
    if body != [] {
      StripItemLeavesNoExamples(body[0]);
      StripLeavesNoExamples(body[1..]);
      var a, b := StripItem(body[0]), Strip(body[1..]);
      assert forall i :: 0 <= i < |a + b| ==> (a + b)[i] == if i < |a| then a[i] else b[i - |a|];
    }
  }

  lemma {:induction false} StripItemLeavesNoExamples(item: BodyItem)
    ensures NoExamples(StripItem(item))
    decreases item
  {
    match item
    case Kw(kw) =>
    case Block(kind, lineno, values, condition, body) =>
      StripLeavesNoExamples(body);
  }

  /** The clone of a body keeps the shape of what is left once the
      `Examples:` calls are dropped, whatever the scope; under an empty scope
      it is exactly that. */
  lemma CloneKeepsShape(body: seq<BodyItem>, scope: Scope)
    ensures ShapeOf(CloneBody(body, scope)) == ShapeOf(Strip(body))
    ensures CloneBody(body, map[]) == Strip(body)
  {
    CloneIsStripThenSubst(body, scope);
    SubstKeepsShape(Strip(body), scope);
    CloneIsStripThenSubst(body, map[]);
    SubstEmptyScope(Strip(body));
  }

  /** A keyword name without '$' survives substitution unchanged. */
  lemma PlainNameUnchanged(name: string, scope: Scope)
    requires '$' !in name
    ensures ReplaceScalar(name, scope) == name
  {
    ReplaceScalarPlainPrefix(name, [], scope);
    assert name + [] == name;
  }

  /** When no top-level keyword name of the body contains '$', its clone has
      no top-level `Examples:` call. (A name like `${x}` can turn into
      `Examples:` under substitution.) */
  lemma {:induction false} CloneOfPlainNamesHasNoExamples(body: seq<BodyItem>, scope: Scope)
    requires forall i :: 0 <= i < |body| && body[i].Kw? ==> '$' !in body[i].kw.name
    ensures FindExamples(CloneBody(body, scope)).None?
    decreases body
  {
    if body != [] {
      var n := |body| - 1;
      var init := body[..n];
      forall i | 0 <= i < |init| && init[i].Kw? ensures '$' !in init[i].kw.name {
        assert init[i] == body[i];
      }
      CloneOfPlainNamesHasNoExamples(init, scope);
      var a, b := CloneBody(init, scope), CloneItem(body[n], scope);
      assert CloneBody(body, scope) == a + b;
      forall i | 0 <= i < |b| ensures !IsExamplesItem(b[i]) {
        if body[n].Kw? {
          PlainNameUnchanged(body[n].kw.name, scope);
        }
      }
      forall i | 0 <= i < |a + b| ensures !IsExamplesItem((a + b)[i]) {
        if i < |a| {
          assert (a + b)[i] == a[i];
        } else {
          assert (a + b)[i] == b[i - |a|];
        }
      }
    }
  }
}
