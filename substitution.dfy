/** A stand-in for Robot Framework's `replace_scalar` / `replace_list` with
    `ignore_errors=True`: every `${name}` whose name is bound in the scope is
    replaced by its value, and every other placeholder is left as literal
    text. */
module Substitution {
  import opened Common

  /** The variables visible to substitution: name -> value. */
  type Scope = map<string, string>

  /** Position of the first '}' at or after `from`. */
  function FindClose(t: string, from: nat): (r: Option<nat>)
    requires from <= |t|
    ensures r.Some? ==> from <= r.value < |t| && t[r.value] == '}'
    ensures r.Some? ==> forall k :: from <= k < r.value ==> t[k] != '}'
    ensures r.None? ==> forall k :: from <= k < |t| ==> t[k] != '}'
    decreases |t| - from
  {
    if from == |t| then None
    else if t[from] == '}' then Some(from)
    else FindClose(t, from + 1)
  }

  /** `replace_scalar(text, ignore_errors=True)`. */
  function ReplaceScalar(text: string, scope: Scope): string
    decreases |text|
  {
    if |text| >= 2 && text[0] == '$' && text[1] == '{' then
      match FindClose(text, 2)
      case None => text
      case Some(j) =>
        var name := text[2..j];
        (if name in scope then scope[name] else text[..j + 1]) + ReplaceScalar(text[j + 1..], scope)
    else if text == [] then []
    else [text[0]] + ReplaceScalar(text[1..], scope)
  }

  /** `replace_list(items, ignore_errors=True)`, item by item. */
  function ReplaceList(items: seq<string>, scope: Scope): (r: seq<string>)
    ensures |r| == |items|
  {
    seq(|items|, i requires 0 <= i < |items| => ReplaceScalar(items[i], scope))
  }

  /** With nothing bound, substitution leaves every text as it is. */
  lemma {:induction false} ReplaceScalarEmptyScope(text: string)
    ensures ReplaceScalar(text, map[]) == text
    decreases |text|
  {
    if |text| >= 2 && text[0] == '$' && text[1] == '{' {
      match FindClose(text, 2)
      case None =>
      case Some(j) =>
        ReplaceScalarEmptyScope(text[j + 1..]);
        assert text[..j + 1] + text[j + 1..] == text;
    } else if text != [] {
      ReplaceScalarEmptyScope(text[1..]);
      assert [text[0]] + text[1..] == text;
    }
  }

  lemma ReplaceListEmptyScope(items: seq<string>)
    ensures ReplaceList(items, map[]) == items
  {
    forall i | 0 <= i < |items| ensures ReplaceList(items, map[])[i] == items[i] {
      ReplaceScalarEmptyScope(items[i]);
    }
  }

  lemma ReplaceScalarPlainChar(c: char, text: string, scope: Scope)
    requires c != '$'
    ensures ReplaceScalar([c] + text, scope) == [c] + ReplaceScalar(text, scope)
  {
    var t := [c] + text;
    assert t[0] == c && t[1..] == text;
  }

  /** Text without a '$' passes through unchanged, and so does such a prefix. */
  lemma {:induction false} ReplaceScalarPlainPrefix(prefix: string, rest: string, scope: Scope)
    requires '$' !in prefix
    ensures ReplaceScalar(prefix + rest, scope) == prefix + ReplaceScalar(rest, scope)
    decreases |prefix|
  {
    if prefix == [] {
      assert prefix + rest == rest;
    } else {
      assert prefix + rest == [prefix[0]] + (prefix[1..] + rest);
      ReplaceScalarPlainChar(prefix[0], prefix[1..] + rest, scope);
      ReplaceScalarPlainPrefix(prefix[1..], rest, scope);
      assert [prefix[0]] + (prefix[1..] + ReplaceScalar(rest, scope)) == prefix + ReplaceScalar(rest, scope);
    }
  }

  /** `${name}` becomes the bound value, or stays literal when `name` is unbound. */
  lemma ReplaceScalarPlaceholder(name: string, rest: string, scope: Scope)
    requires '}' !in name
    ensures ReplaceScalar("${" + name + "}" + rest, scope)
      == (if name in scope then scope[name] else "${" + name + "}") + ReplaceScalar(rest, scope)
  {
    var t := "${" + name + "}" + rest;
    var j := |name| + 2;
    assert t[j] == '}';
    assert forall k :: 2 <= k < j ==> t[k] == name[k - 2];
    assert FindClose(t, 2) == Some(j);
    assert t[2..j] == name && t[..j + 1] == "${" + name + "}" && t[j + 1..] == rest;
  }
}
