/** The library options and their per-call overrides (Examples.py:51-66 and
    120-126). */
module Options {
  import opened Common
  import opened PyValues
  import opened Selection

  /** The strings that switch automatic expansion off, compared in lower case. */
  const FalseWords: seq<string> := ["false", "no", "off", "f", "0"]

  /** Line 64: a string `autoexpand` that reads as false becomes False; any
      other value is kept as given. */
  function NormaliseAutoexpand(a: Arg): (r: Arg)
    ensures a.StrArg? && Lower(a.s) in FalseWords ==> r == BoolArg(false)
    ensures !(a.StrArg? && Lower(a.s) in FalseWords) ==> r == a
  {
    match a
    case StrArg(s) => if Lower(s) in FalseWords then BoolArg(false) else a
    case _ => a
  }

  /** The options the library instance keeps. */
  datatype Settings = Settings(autoexpand: Arg, maxExamples: Arg, random: Arg)

  /** `int(a) if a else a`, the conversion of lines 65 and 120. */
  function IntIfTruthy(a: Arg, fallback: Arg): (r: Result<Arg, Error>)
    ensures !Truthy(a) ==> r == Ok(fallback)
    ensures Truthy(a) ==> (r.Ok? <==> PyInt(a).Ok?)
    ensures Truthy(a) && r.Ok? ==> r.value == IntArg(PyInt(a).value)
    ensures Truthy(a) && r.Err? ==> r.error == NotAnInteger
  {
    if Truthy(a) then
      match PyInt(a)
      case Ok(v) => Ok(IntArg(v))
      case Err(e) => Err(e)
    else Ok(fallback)
  }

  /** Lines 64-66: the constructor's conversions; a truthy `max_examples`
      that `int` rejects makes the constructor raise. */
  function InitOptions(autoexpand: Arg, maxExamples: Arg, random: Arg): (r: Result<Settings, Error>)
    ensures r.Err? <==> IntIfTruthy(maxExamples, maxExamples).Err?
    ensures r.Ok? ==> r.value == Settings(NormaliseAutoexpand(autoexpand),
                                          IntIfTruthy(maxExamples, maxExamples).value, random)
  {
    var cap :- IntIfTruthy(maxExamples, maxExamples);
    Ok(Settings(NormaliseAutoexpand(autoexpand), cap, random))
  }

  /** The cap and the random switch a call of `expand_test_examples` uses. */
  datatype Effective = Effective(cap: Arg, random: Arg)

  /** Lines 120-126. The per-call `max_examples` is converted (and raises
      when `int` rejects it); the per-call `random` is taken when truthy;
      then, when the effective `random` is truthy and no per-call cap was
      given, `int(random)` becomes the cap unless it raises ValueError. */
  function ResolveCall(s: Settings, maxArg: Arg, randomArg: Arg): Result<Effective, Error> {
    var cap :- IntIfTruthy(maxArg, s.maxExamples);
    var random := if Truthy(randomArg) then randomArg else s.random;
    if Truthy(random) && !Truthy(maxArg) then
      match PyInt(random)
      case Ok(v) => Ok(Effective(IntArg(v), random))
      case Err(_) => Ok(Effective(cap, random))
    else Ok(Effective(cap, random))
  }

  // ---------------------------------------------------------------------
  // Properties
  // ---------------------------------------------------------------------

  /** A string `autoexpand` is truthy after the constructor exactly when it
      is non-empty and not one of the five false words in any case. */
  lemma AutoexpandString(s: string)
    ensures Truthy(NormaliseAutoexpand(StrArg(s))) <==> s != "" && Lower(s) !in FalseWords
  {
  }

  /** Normalising twice changes nothing more. */
  lemma NormaliseAutoexpandIdempotent(a: Arg)
    ensures NormaliseAutoexpand(NormaliseAutoexpand(a)) == NormaliseAutoexpand(a)
  {
  }

  /** The stored cap is always an int or the falsy value given. */
  lemma InitOptionsCapShaped(autoexpand: Arg, maxExamples: Arg, random: Arg)
    requires InitOptions(autoexpand, maxExamples, random).Ok?
    ensures CapShaped(InitOptions(autoexpand, maxExamples, random).value.maxExamples)
    ensures !Truthy(maxExamples) ==> InitOptions(autoexpand, maxExamples, random).value.maxExamples == maxExamples
  {
  }

  /** Per-call overrides: a truthy call `max_examples` decides the cap
      whatever `random` is; a truthy call `random` replaces the global one;
      with neither given, an int-like effective `random` becomes the cap and
      otherwise the global cap stays. The resolved cap keeps its shape. */
  lemma ResolveCallOverrides(s: Settings, maxArg: Arg, randomArg: Arg)
    requires CapShaped(s.maxExamples)
    ensures ResolveCall(s, maxArg, randomArg).Err? <==> Truthy(maxArg) && PyInt(maxArg).Err?
    ensures ResolveCall(s, maxArg, randomArg).Ok? ==>
      var e := ResolveCall(s, maxArg, randomArg).value;
      && CapShaped(e.cap)
      && (Truthy(randomArg) ==> e.random == randomArg)
      && (!Truthy(randomArg) ==> e.random == s.random)
      && (Truthy(maxArg) ==> e.cap == IntArg(PyInt(maxArg).value))
      && (!Truthy(maxArg) && Truthy(e.random) && PyInt(e.random).Ok? ==> e.cap == IntArg(PyInt(e.random).value))
      && (!Truthy(maxArg) && !(Truthy(e.random) && PyInt(e.random).Ok?) ==> e.cap == s.maxExamples)
  {
  }

  /** `random=True` with no cap caps the selection at one example, since
      `int(True) == 1`. */
  lemma RandomTrueMeansOne(s: Settings)
    ensures ResolveCall(s, NoneArg, BoolArg(true)) == Ok(Effective(IntArg(1), BoolArg(true)))
  {
  }
}
