/** Which example rows a template expands to (Examples.py:149-152): with
    `random` unset, a prefix slice `records[0:max]`; with `random` set,
    `random.sample(records, max or len(records))`, a choice of distinct
    positions. */
module Selection {
  import opened Common
  import opened PyValues

  // ---------------------------------------------------------------------
  // `random.sample`
  // ---------------------------------------------------------------------

  /** `idx` lists distinct positions below `n`. */
  predicate DistinctIndices(idx: seq<nat>, n: nat) {
    && (forall i :: 0 <= i < |idx| ==> idx[i] < n)
    && (forall i, j :: 0 <= i < j < |idx| ==> idx[i] != idx[j])
  }

  /** The elements of `pop` at the positions `idx`, in that order. */
  function Pick<T>(pop: seq<T>, idx: seq<nat>): (r: seq<T>)
    requires forall i :: 0 <= i < |idx| ==> idx[i] < |pop|
    ensures |r| == |idx|
    ensures forall i :: 0 <= i < |idx| ==> r[i] == pop[idx[i]]
  {
    seq(|idx|, i requires 0 <= i < |idx| => pop[idx[i]])
  }

  /** `sel` is a possible outcome of `random.sample(pop, k)`: k elements
      drawn from k distinct positions of `pop`, in any order. */
  ghost predicate IsSampleOf<T>(sel: seq<T>, pop: seq<T>, k: int) {
    && |sel| == k
    && exists idx :: DistinctIndices(idx, |pop|) && |idx| == k && sel == Pick(pop, idx)
  }

  function Range(k: nat): (r: seq<nat>)
    ensures |r| == k && forall i :: 0 <= i < k ==> r[i] == i
  {
    seq(k, i requires 0 <= i < k => i)
  }

  /** `random.sample(population, k)`: ValueError when k is negative or
      larger than the population, otherwise some sample of size k. Which
      positions are chosen is left open. */
  method Sample<T>(population: seq<T>, k: int) returns (r: Result<seq<T>, Error>)
    ensures r.Err? <==> k < 0 || k > |population|
    ensures r.Err? ==> r.error == SampleSizeOutOfRange(k, |population|)
    ensures r.Ok? ==> IsSampleOf(r.value, population, k)
  {
    if k < 0 || k > |population| {
      return Err(SampleSizeOutOfRange(k, |population|));
    }
    assert DistinctIndices(Range(k), |population|);
    var idx :| DistinctIndices(idx, |population|) && |idx| == k;
    assert DistinctIndices(idx, |population|);
    assert forall i :: 0 <= i < |idx| ==> idx[i] < |population|;
    r := Ok(Pick(population, idx));
  }

  /** Remove position m. */
  function Without<T>(s: seq<T>, m: nat): (r: seq<T>)
    requires m < |s|
    ensures |r| == |s| - 1
    ensures multiset(s) == multiset(r) + multiset{s[m]}
  {
    assert s == s[..m] + [s[m]] + s[m + 1..];
    s[..m] + s[m + 1..]
  }

  /** Positions of `s` renumbered for `Without(s, m)`. */
  function Shift(idx: seq<nat>, m: nat): (r: seq<nat>)
    ensures |r| == |idx|
    ensures forall i :: 0 <= i < |idx| ==> r[i] == if idx[i] <= m then idx[i] else idx[i] - 1
  {
    seq(|idx|, i requires 0 <= i < |idx| => if idx[i] <= m then idx[i] else idx[i] - 1)
  }

  /** A sample takes each element of the population at most as often as it
      occurs there. */
  lemma {:induction false} PickSubMultiset<T>(pop: seq<T>, idx: seq<nat>)
    requires DistinctIndices(idx, |pop|)
    ensures multiset(Pick(pop, idx)) <= multiset(pop)
    decreases |idx|
  {
    if idx != [] {
      var l := |idx| - 1;
      var m := idx[l];
      var rest := Shift(idx[..l], m);
      var pop' := Without(pop, m);
      assert DistinctIndices(rest, |pop'|) by {
        forall i, j | 0 <= i < j < |rest| ensures rest[i] != rest[j] {
          assert idx[i] != idx[j] && idx[i] != m && idx[j] != m;
        }
        forall i | 0 <= i < |rest| ensures rest[i] < |pop'| {
          assert idx[i] != m;
        }
      }
      PickSubMultiset(pop', rest);
      assert Pick(pop, idx[..l]) == Pick(pop', rest) by {
        forall i | 0 <= i < l ensures Pick(pop, idx[..l])[i] == Pick(pop', rest)[i] {
          assert idx[i] != m;
        }
      }
      assert Pick(pop, idx) == Pick(pop, idx[..l]) + [pop[m]];
    }
  }

  /** A sample of the whole population is a permutation of it. */
  lemma SampleIsPermutation<T>(sel: seq<T>, pop: seq<T>, k: int)
    requires IsSampleOf(sel, pop, k)
    ensures multiset(sel) <= multiset(pop)
    ensures k == |pop| ==> multiset(sel) == multiset(pop)
    ensures forall i :: 0 <= i < |sel| ==> sel[i] in pop
  {
    var idx :| DistinctIndices(idx, |pop|) && |idx| == k && sel == Pick(pop, idx);
    PickSubMultiset(pop, idx);
    if k == |pop| {
      var d := multiset(pop) - multiset(sel);
      assert |multiset(pop)| == |multiset(sel)| + |d|;
      assert multiset(pop) == multiset(sel) + d;
    }
  }

  // ---------------------------------------------------------------------
  // The cap and the choice between slice and sample
  // ---------------------------------------------------------------------

  /** The values `_max_examples` can hold: an int, or the falsy value the
      library was given (None, False, 0 or ""). */
  predicate CapShaped(a: Arg) {
    a.IntArg? || !Truthy(a)
  }

  /** `self._max_examples or len(records)`. */
  function SampleSize(cap: Arg, n: nat): (k: int)
    requires CapShaped(cap)
    ensures Truthy(cap) ==> k == cap.i
    ensures !Truthy(cap) ==> k == n
  {
    if Truthy(cap) then cap.i else n
  }

  /** The stop of `records[0:cap]`: None for `None`, the number for an int
      or a bool, and a TypeError for a string. */
  function SliceStop(cap: Arg): (r: Result<Option<int>, Error>)
    ensures r.Err? <==> cap.StrArg?
    ensures cap.NoneArg? ==> r == Ok(None)
    ensures cap.IntArg? ==> r == Ok(Some(cap.i))
    ensures cap.BoolArg? ==> r == Ok(Some(if cap.b then 1 else 0))
  {
    match cap
    case NoneArg => Ok(None)
    case BoolArg(b) => Ok(Some(if b then 1 else 0))
    case IntArg(i) => Ok(Some(i))
    case StrArg(_) => Err(BadSliceIndex)
  }

  /** Whether and how lines 149-152 fail, decided by the inputs alone. */
  function SelectionError<T>(records: seq<T>, cap: Arg, random: Arg): (r: Option<Error>)
    requires CapShaped(cap)
    ensures Truthy(random) ==>
      (r.Some? <==> SampleSize(cap, |records|) < 0 || SampleSize(cap, |records|) > |records|)
    ensures !Truthy(random) ==> (r.Some? <==> cap.StrArg?)
  {
    if Truthy(random) then
      var k := SampleSize(cap, |records|);
      if k < 0 || k > |records| then Some(SampleSizeOutOfRange(k, |records|)) else None
    else if SliceStop(cap).Err? then Some(SliceStop(cap).error)
    else None
  }

  /** The selections lines 149-152 can make when they do not fail. */
  ghost predicate IsSelection<T>(sel: seq<T>, records: seq<T>, cap: Arg, random: Arg)
    requires CapShaped(cap)
  {
    && SelectionError(records, cap, random).None?
    && if Truthy(random) then IsSampleOf(sel, records, SampleSize(cap, |records|))
       else sel == PySlice(records, SliceStop(cap).value)
  }

  /** Lines 149-152. */
  method SelectExamples<T>(records: seq<T>, cap: Arg, random: Arg) returns (r: Result<seq<T>, Error>)
    requires CapShaped(cap)
    ensures r.Err? <==> SelectionError(records, cap, random).Some?
    ensures r.Err? ==> r.error == SelectionError(records, cap, random).value
    ensures r.Ok? ==> IsSelection(r.value, records, cap, random)
  {
    if Truthy(random) {
      var k := if Truthy(cap) then cap.i else |records|;
      r := Sample(records, k);
    } else {
      match cap {
        case NoneArg => r := Ok(records);
        case BoolArg(b) => r := Ok(records[0..if b && |records| > 0 then 1 else 0]);
        case IntArg(i) =>
          var stop := if i >= 0 then (if i < |records| then i else |records|)
                      else if |records| + i > 0 then |records| + i else 0;
          r := Ok(records[0..stop]);
        case StrArg(_) => r := Err(BadSliceIndex);
      }
    }
  }

  // ---------------------------------------------------------------------
  // What a selection is
  // ---------------------------------------------------------------------

  /** Without `random`, the selection is the first min(max, n) records in
      their original order, all of them when no cap is set, and none for a
      cap of 0 or False; a negative cap drops that many from the end. */
  lemma PrefixSelection<T>(sel: seq<T>, records: seq<T>, cap: Arg, random: Arg)
    requires CapShaped(cap) && !Truthy(random)
    requires IsSelection(sel, records, cap, random)
    ensures cap.NoneArg? ==> sel == records
    ensures !Truthy(cap) && !cap.NoneArg? ==> sel == []
    ensures cap.IntArg? && cap.i >= 0 ==>
      |sel| == (if cap.i < |records| then cap.i else |records|) && sel == records[..|sel|]
    ensures cap.IntArg? && cap.i < 0 ==>
      |sel| == (if |records| + cap.i > 0 then |records| + cap.i else 0) && sel == records[..|sel|]
  {
  }

  /** Whatever the options, a selection holds only records of the table,
      each at most as often as it occurs there, and no more of them than the
      table has. With `random` set and no cap, it is a reordering of the
      whole table. */
  lemma SelectionWithinRecords<T>(sel: seq<T>, records: seq<T>, cap: Arg, random: Arg)
    requires CapShaped(cap)
    requires IsSelection(sel, records, cap, random)
    ensures |sel| <= |records|
    ensures multiset(sel) <= multiset(records)
    ensures forall i :: 0 <= i < |sel| ==> sel[i] in records
    ensures Truthy(random) && !Truthy(cap) ==> multiset(sel) == multiset(records)
  {
    if Truthy(random) {
      SampleIsPermutation(sel, records, SampleSize(cap, |records|));
    } else {
      var e := SliceEnd(|records|, SliceStop(cap).value);
      assert records == records[..e] + records[e..];
    }
  }
}
