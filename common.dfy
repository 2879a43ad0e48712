/** Shared vocabulary: optional values, results carrying the exception a
    Python call would raise, and the ASCII lower-casing used for
    case-insensitive keyword names. */
module Common {

  datatype Option<+T> = None | Some(value: T)

  datatype Result<+T, +E> = Ok(value: T) | Err(error: E) {
    predicate IsFailure() { Err? }
    function PropagateFailure<U>(): Result<U, E> requires Err? { Err(error) }
    function Extract(): T requires Ok? { value }
  }

  /** The exceptions the modelled code lets escape. */
  datatype Error =
    | StopIteration                      // `next` ran off the token list before a "--"
    | RaggedRows                         // the last data chunk is shorter than the header row
    | EmptyRows                          // no row was pulled and there is not exactly one header
    | MissingColumn(column: string)      // `df[set_index]` on a column that does not exist
    | AmbiguousColumn(column: string)    // `df['_idx_'] = df[set_index]` when that header occurs twice
    | UnknownOrientation(orient: string) // `to_dict` with an orientation pandas rejects
    | NotAnInteger                       // `int(...)` raised ValueError
    | NoneIsNotAnInteger                 // `int(None)` raised TypeError
    | SampleSizeOutOfRange(k: int, n: int) // `random.sample` with k < 0 or k > n
    | BadSliceIndex                      // a slice bound that is not an integer
    | NoCurrentSuite                     // `None.tests`: expansion before any suite was started

  /** Lower-case an ASCII letter; every other character is unchanged. */
  function LowerChar(c: char): (r: char)
    ensures 'A' <= c <= 'Z' ==> r as int == c as int + 32
    ensures !('A' <= c <= 'Z') ==> r == c
  {
    if 'A' <= c <= 'Z' then (c as int + 32) as char else c
  }

  function Lower(s: string): (r: string)
    ensures |r| == |s|
    ensures forall i :: 0 <= i < |s| ==> r[i] == LowerChar(s[i])
  {
    if s == [] then [] else [LowerChar(s[0])] + Lower(s[1..])
  }

  // Sequence facts the proofs hand to the solver explicitly.

  lemma AppendEmpty<T>(s: seq<T>)
    ensures s + [] == s
  {
  }

  lemma SliceOfAppend<T>(a: seq<T>, b: seq<T>, n: nat)
    requires n <= |a|
    ensures (a + b)[n..] == a[n..] + b
  {
  }

  lemma ConcatAssoc<T>(a: seq<T>, b: seq<T>, c: seq<T>)
    ensures (a + b) + c == a + (b + c)
  {
  }

  lemma PrefixOfAppend<T>(a: seq<T>, b: seq<T>, n: nat)
    requires n <= |a|
    ensures (a + b)[..n] == a[..n]
  {
  }

  lemma SliceAt<T>(s: seq<T>, from: nat, k: nat)
    requires from + k < |s|
    ensures s[from..][k] == s[from + k]
  {
  }
}
