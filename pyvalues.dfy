/** The Python values the library's options arrive as, with the three
    Python behaviours the option handling leans on: truthiness, `int(...)`
    and the slice `s[0:stop]`. */
module PyValues {
  import opened Common

  /** A library or keyword argument: `None`, a bool, an int or a string. */
  datatype Arg = NoneArg | BoolArg(b: bool) | IntArg(i: int) | StrArg(s: string)

  /** Python truthiness of an argument. */
  predicate Truthy(a: Arg) {
    match a
    case NoneArg => false
    case BoolArg(b) => b
    case IntArg(i) => i != 0
    case StrArg(s) => s != ""
  }

  function DigitValue(c: char): nat
    requires '0' <= c <= '9'
  {
    c as int - '0' as int
  }

  predicate AllDigits(s: string) {
    forall i :: 0 <= i < |s| ==> '0' <= s[i] <= '9'
  }

  /** The value of a string of decimal digits, most significant first. */
  function DigitsValue(s: string): nat
    requires AllDigits(s)
  {
    if s == [] then 0 else DigitsValue(s[..|s| - 1]) * 10 + DigitValue(s[|s| - 1])
  }

  /** An optional sign followed by at least one decimal digit. */
  predicate IsDecimal(s: string) {
    |s| > 0 && if s[0] == '-' || s[0] == '+' then |s| > 1 && AllDigits(s[1..]) else AllDigits(s)
  }

  /** `int(s)` on a string: an optional sign followed by at least one digit. */
  function ParseDecimal(s: string): (r: Option<int>)
    ensures r.Some? <==> IsDecimal(s)
    ensures r.Some? && s[0] == '-' ==> r.value <= 0
    ensures r.Some? && s[0] != '-' ==> r.value >= 0
  {
    if |s| > 0 && (s[0] == '-' || s[0] == '+') then
      var ds := s[1..];
      if ds != [] && AllDigits(ds) then
        Some(if s[0] == '-' then 0 - DigitsValue(ds) as int else DigitsValue(ds) as int)
      else None
    else if s != [] && AllDigits(s) then Some(DigitsValue(s))
    else None
  }

  function DigitChar(d: nat): (c: char)
    requires d < 10
    ensures '0' <= c <= '9' && DigitValue(c) == d
  {
    ('0' as int + d) as char
  }

  /** `str(n)` for a natural number. */
  function ShowNat(n: nat): (s: string)
    ensures s != [] && AllDigits(s)
  {
    if n < 10 then [DigitChar(n)] else ShowNat(n / 10) + [DigitChar(n % 10)]
  }

  /** `str(i)` for an integer. */
  function ShowInt(i: int): string {
    if i < 0 then "-" + ShowNat(-i) else ShowNat(i)
  }

  lemma {:induction false} ShowNatValue(n: nat)
    ensures DigitsValue(ShowNat(n)) == n
  {
    if n >= 10 {
      var s := ShowNat(n);
      ShowNatValue(n / 10);
      assert s[..|s| - 1] == ShowNat(n / 10);
    }
  }

  /** `int(str(i)) == i`: the decimal reading of the printed integer. */
  lemma ParseShowRoundTrip(i: int)
    ensures ParseDecimal(ShowInt(i)) == Some(i)
  {
    if i < 0 {
      ParseShowNegative(-i);
    } else {
      ParseShowNat(i);
    }
  }

  lemma ParseShowNat(n: nat)
    ensures ParseDecimal(ShowNat(n)) == Some(n)
  {
    var s := ShowNat(n);
    assert '0' <= s[0] <= '9';
    ShowNatValue(n);
    assert ParseDecimal(s) == Some(DigitsValue(s) as int);
  }

  lemma ParseShowNegative(n: nat)
    requires n > 0
    ensures ParseDecimal("-" + ShowNat(n)) == Some(0 - n)
  {
    var ds := ShowNat(n);
    var s := "-" + ds;
    assert s[0] == '-' && s[1..] == ds;
    ShowNatValue(n);
    assert ParseDecimal(s) == Some(0 - DigitsValue(ds) as int);
  }

  /** A digit string means the same with a '+' in front, and its negation
      with a '-' in front; leading zeros do not change it. So "+5", "05"
      and "5" all read as 5. */
  lemma ParseDecimalValue(ds: string)
    requires ds != [] && AllDigits(ds)
    ensures ParseDecimal(ds) == Some(DigitsValue(ds) as int)
    ensures ParseDecimal("+" + ds) == Some(DigitsValue(ds) as int)
    ensures ParseDecimal("-" + ds) == Some(0 - DigitsValue(ds))
    ensures DigitsValue("0" + ds) == DigitsValue(ds)
  {
    assert ('+' as char != '-');
    assert ("+" + ds)[1..] == ds && ("-" + ds)[1..] == ds;
    LeadingZero(ds);
  }

  lemma {:induction false} LeadingZero(ds: string)
    requires AllDigits(ds)
    ensures AllDigits("0" + ds) && DigitsValue("0" + ds) == DigitsValue(ds)
    decreases |ds|
  {
    var z := "0" + ds;
    if ds != [] {
      var n := |ds| - 1;
      assert z[..|z| - 1] == "0" + ds[..n] && z[|z| - 1] == ds[n];
      LeadingZero(ds[..n]);
    } else {
      assert z[..0] == [];
    }
  }

  /** Python's `int(a)` for the argument kinds above. */
  function PyInt(a: Arg): (r: Result<int, Error>)
    ensures r.Err? ==> r.error == NotAnInteger || r.error == NoneIsNotAnInteger
    ensures r.Err? && r.error == NoneIsNotAnInteger <==> a.NoneArg?
    ensures a.IntArg? ==> r == Ok(a.i)
    ensures a.BoolArg? ==> r == Ok(if a.b then 1 else 0)
    ensures a.StrArg? ==> (r.Ok? <==> ParseDecimal(a.s).Some?)
    ensures a.StrArg? && r.Ok? ==> r.value == ParseDecimal(a.s).value
  {
    match a
    case NoneArg => Err(NoneIsNotAnInteger)
    case BoolArg(b) => Ok(if b then 1 else 0)
    case IntArg(i) => Ok(i)
    case StrArg(s) =>
      match ParseDecimal(s)
      case Some(v) => Ok(v)
      case None => Err(NotAnInteger)
  }

  /** The end position Python uses for `s[0:stop]` on a sequence of length n. */
  function SliceEnd(n: nat, stop: Option<int>): (e: nat)
    ensures e <= n
    ensures stop.None? ==> e == n
    ensures stop.Some? && stop.value >= 0 ==> e == if stop.value < n then stop.value else n
    ensures stop.Some? && stop.value < 0 ==> e == if n + stop.value > 0 then n + stop.value else 0
  {
    match stop
    case None => n
    case Some(k) =>
      if k >= 0 then (if k < n then k else n)
      else if n + k > 0 then n + k else 0
  }

  /** Python's `s[0:stop]`, where a negative stop counts from the end. */
  function PySlice<T>(s: seq<T>, stop: Option<int>): (r: seq<T>)
    ensures r == s[..SliceEnd(|s|, stop)]
  {
    s[..SliceEnd(|s|, stop)]
  }
}
