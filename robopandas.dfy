/** `create_dataframe` of RoboPandas.py: a flat argument list
    `H1 .. Hn -- V1 .. Vk` becomes a table whose column headers are the
    tokens before the first "--" and whose rows are the remaining tokens cut
    into consecutive chunks of n. The pandas frame is modelled by its
    records view (one header -> value map per row), which is what the
    Examples library asks of it. */
module RoboPandas {
  import opened Common

  type Record = map<string, string>

  const Separator: string := "--"

  /** The orientations line 47 passes through to `to_dict` unchanged; any
      other value, without `set_index`, is taken as the index column. */
  const Orientations: set<string> := {"dict", "list", "series", "split", "records", "index"}

  /** The orientations pandas 2 `DataFrame.to_dict` accepts: the tuple above
      and "tight", which reaches `to_dict` only when `set_index` is given. */
  const PandasOrientations: set<string> := Orientations + {"tight"}

  // ---------------------------------------------------------------------
  // Reference definitions
  // ---------------------------------------------------------------------

  /** Position of the first occurrence of `x` in `s`. */
  function FirstIndex(s: seq<string>, x: string): (r: Option<nat>)
    ensures r.None? <==> x !in s
    ensures r.Some? ==> r.value < |s| && s[r.value] == x && x !in s[..r.value]
  {
    if s == [] then None
    else if s[0] == x then Some(0)
    else match FirstIndex(s[1..], x)
      case None => None
      case Some(i) =>
        assert s[1..][..i] == s[1..i + 1];
        assert s[..i + 1] == [s[0]] + s[1..][..i];
        Some(i + 1)
  }

  /** The chunks `islice(source, h)` pulls from the data tokens until it
      yields an empty tuple. With h == 0 the very first pull is empty. */
  function Chunks(data: seq<string>, h: nat): (rows: seq<seq<string>>)
    decreases |data|
  {
    if h == 0 || data == [] then []
    else if |data| <= h then [data]
    else [data[..h]] + Chunks(data[h..], h)
  }

  function Flatten(rows: seq<seq<string>>): seq<string> {
    if rows == [] then [] else rows[0] + Flatten(rows[1..])
  }

  datatype Table = Table(headers: seq<string>, rows: seq<seq<string>>)

  /** The header/row split of lines 41-46: a missing "--" raises
      StopIteration; a data count that is not a multiple of a non-zero
      header count leaves a short last row, which the frame constructor
      rejects. When no row is pulled at all (no headers, or no data),
      `numpy.array(())` is a one-dimensional empty array, which pandas reads
      as a single column: the frame constructor rejects it unless there is
      exactly one header. */
  function SplitTable(args: seq<string>): Result<Table, Error> {
    match FirstIndex(args, Separator)
    case None => Err(StopIteration)
    case Some(i) =>
      var headers := args[..i];
      var data := args[i + 1..];
      if |headers| > 0 && |data| % |headers| != 0 then Err(RaggedRows)
      else if (|headers| == 0 || data == []) && |headers| != 1 then Err(EmptyRows)
      else Ok(Table(headers, Chunks(data, |headers|)))
  }

  function HeaderSet(headers: seq<string>): (r: set<string>)
    ensures forall x :: x in r <==> x in headers
  {
    set h | h in headers
  }

  /** `dict(zip(headers, row))`: a later duplicate header overwrites an earlier one. */
  function Zip(headers: seq<string>, row: seq<string>): (r: Record)
    requires |headers| == |row|
    ensures r.Keys == HeaderSet(headers)
  {
    if headers == [] then map[]
    else
      var n := |headers| - 1;
      Zip(headers[..n], row[..n])[headers[n] := row[n]]
  }

  predicate WellShaped(t: Table) {
    forall i :: 0 <= i < |t.rows| ==> |t.rows[i]| == |t.headers|
  }

  /** `to_dict('records')` of the frame built from a table. */
  function ToRecords(t: Table): (rs: seq<Record>)
    requires WellShaped(t)
    ensures |rs| == |t.rows|
    ensures forall i :: 0 <= i < |rs| ==> rs[i].Keys == HeaderSet(t.headers)
  {
    seq(|t.rows|, i requires 0 <= i < |t.rows| => Zip(t.headers, t.rows[i]))
  }

  /** The records `create_dataframe(*args).to_dict('records')` yields. */
  function TableRecords(args: seq<string>): (r: Result<seq<Record>, Error>)
    ensures SplitTable(args).Err? ==> r == Err(SplitTable(args).error)
    ensures SplitTable(args).Ok? ==>
      WellShaped(SplitTable(args).value) && r == Ok(ToRecords(SplitTable(args).value))
  {
    match SplitTable(args)
    case Err(e) => Err(e)
    case Ok(t) =>
      SplitTableWellShaped(args);
      Ok(ToRecords(t))
  }

  // ---------------------------------------------------------------------
  // Properties of the split
  // ---------------------------------------------------------------------

  /** Concatenating the chunks gives back the data tokens, in order. */
  lemma {:induction false} ChunksFlatten(data: seq<string>, h: nat)
    requires h > 0
    ensures Flatten(Chunks(data, h)) == data
  {
    if data != [] && |data| > h {
      ChunksFlatten(data[h..], h);
      assert data == data[..h] + data[h..];
    }
  }

  /** Every chunk but the last has exactly h tokens; the last has h tokens
      when h divides the data count and the remainder otherwise. */
  lemma {:induction false} ChunksShape(data: seq<string>, h: nat)
    requires h > 0
    ensures var c := Chunks(data, h);
      && (|data| % h == 0 ==> |c| == |data| / h && forall i :: 0 <= i < |c| ==> |c[i]| == h)
      && (|data| % h != 0 ==>
            && |c| == |data| / h + 1
            && (forall i :: 0 <= i < |c| - 1 ==> |c[i]| == h)
            && |c[|c| - 1]| == |data| % h)
  {
    ChunksShapeByQuotient(data, h, |data| / h, |data| % h);
  }

  lemma {:induction false} ChunksShapeByQuotient(data: seq<string>, h: nat, q: nat, r: nat)
    requires h > 0 && r < h && |data| == q * h + r
    ensures var c := Chunks(data, h);
      && |c| == (if r == 0 then q else q + 1)
      && (forall i :: 0 <= i < q ==> |c[i]| == h)
      && (r != 0 ==> |c[q]| == r)
  {
    var c := Chunks(data, h);
    if q == 0 {
      assert |data| == r;
    } else if |data| <= h {
      SingleChunk(data, h, q, r);
    } else {
      var rest := Chunks(data[h..], h);
      MulSucc(q - 1, h);
      ChunksCons(data, h);
      ChunksShapeByQuotient(data[h..], h, q - 1, r);
      forall i | 0 <= i < q ensures |c[i]| == h {
        if i > 0 { assert c[i] == rest[i - 1]; }
      }
      if r != 0 { assert c[q] == rest[q - 1]; }
    }
  }

  /** Data no longer than one header row, with a whole number of rows, is
      exactly one row. */
  lemma SingleChunk(data: seq<string>, h: nat, q: nat, r: nat)
    requires h > 0 && r < h && |data| == q * h + r && q > 0 && |data| <= h
    ensures q == 1 && r == 0 && Chunks(data, h) == [data]
  {
    MulSucc(q - 1, h);
    ZeroProduct(q - 1, h);
  }

  lemma ChunksCons(data: seq<string>, h: nat)
    requires h > 0 && |data| > h
    ensures Chunks(data, h) == [data[..h]] + Chunks(data[h..], h)
  {
  }

  /** With no headers nothing is pulled, whatever data follows, and the
      frame constructor rejects the empty array of rows. */
  lemma ZeroHeadersRaise(args: seq<string>)
    requires Separator in args && args[0] == Separator
    ensures SplitTable(args) == Err(EmptyRows)
  {
  }

  /** Headers with no data: a single header gives an empty one-column
      table, and any other count is rejected. */
  lemma NoDataRows(headers: seq<string>)
    requires Separator !in headers
    ensures |headers| == 1 ==> SplitTable(headers + [Separator]) == Ok(Table(headers, []))
    ensures |headers| != 1 ==> SplitTable(headers + [Separator]) == Err(EmptyRows)
  {
    var args := headers + [Separator];
    FirstIndexOfSeparator(headers, []);
    assert headers + [Separator] + [] == args;
    assert args[..|headers|] == headers && args[|headers| + 1..] == [];
  }

  /** The first "--" after a run of tokens without one. */
  lemma FirstIndexOfSeparator(headers: seq<string>, data: seq<string>)
    requires Separator !in headers
    ensures FirstIndex(headers + [Separator] + data, Separator) == Some(|headers|)
  {
    var args := headers + [Separator] + data;
    assert args[|headers|] == Separator;
    assert args[..|headers|] == headers;
  }

  lemma SplitTableWellShaped(args: seq<string>)
    ensures SplitTable(args).Ok? ==> WellShaped(SplitTable(args).value)
  {
    if SplitTable(args).Ok? {
      var i := FirstIndex(args, Separator).value;
      if i > 0 {
        ChunksShape(args[i + 1..], i);
      }
    }
  }

  /** The headers are exactly the tokens before the first "--"; that "--" is
      consumed, and every later token, a later "--" included, is data, in
      row-major order. A table is produced iff a "--" exists, a non-zero
      header count divides the data count, and some data follows unless
      there is exactly one header; then there are D/H rows of H tokens each. */
  lemma SplitTableSpec(args: seq<string>)
    ensures SplitTable(args).Err? && SplitTable(args).error == StopIteration <==> Separator !in args
    ensures SplitTable(args).Ok? ==>
      var t := SplitTable(args).value;
      var data := args[|t.headers| + 1..];
      && |t.headers| < |args|
      && args[..|t.headers|] == t.headers
      && args[|t.headers|] == Separator
      && Separator !in t.headers
      && |t.headers| > 0
      && Flatten(t.rows) == data && |t.rows| == |data| / |t.headers|
      && (t.rows == [] ==> |t.headers| == 1)
      && WellShaped(t)
    ensures SplitTable(args).Err? && SplitTable(args).error == RaggedRows <==>
      Separator in args &&
      var i := FirstIndex(args, Separator).value;
      i > 0 && (|args| - i - 1) % i != 0
    ensures SplitTable(args).Err? && SplitTable(args).error == EmptyRows <==>
      Separator in args &&
      var i := FirstIndex(args, Separator).value;
      (i == 0 || i + 1 == |args|) && i != 1
  {
    SplitTableTable(args);
    SplitTableStop(args);
    SplitTableRagged(args);
    SplitTableEmpty(args);
  }

  lemma SplitTableTable(args: seq<string>)
    ensures SplitTable(args).Ok? ==>
      var t := SplitTable(args).value;
      var data := args[|t.headers| + 1..];
      && |t.headers| < |args|
      && args[..|t.headers|] == t.headers
      && args[|t.headers|] == Separator
      && Separator !in t.headers
      && |t.headers| > 0
      && Flatten(t.rows) == data && |t.rows| == |data| / |t.headers|
      && (t.rows == [] ==> |t.headers| == 1)
      && WellShaped(t)
  {
    if SplitTable(args).Ok? {
      var i := FirstIndex(args, Separator).value;
      SplitTableCases(args, i);
      SplitTableOk(args, i);
    }
  }

  lemma SplitTableStop(args: seq<string>)
    ensures SplitTable(args).Err? && SplitTable(args).error == StopIteration <==> Separator !in args
  {
    if Separator in args {
      SplitTableCases(args, FirstIndex(args, Separator).value);
    }
  }

  lemma SplitTableRagged(args: seq<string>)
    ensures SplitTable(args).Err? && SplitTable(args).error == RaggedRows <==>
      Separator in args &&
      var i := FirstIndex(args, Separator).value;
      i > 0 && (|args| - i - 1) % i != 0
  {
    if Separator in args {
      SplitTableCases(args, FirstIndex(args, Separator).value);
    }
  }

  lemma SplitTableEmpty(args: seq<string>)
    ensures SplitTable(args).Err? && SplitTable(args).error == EmptyRows <==>
      Separator in args &&
      var i := FirstIndex(args, Separator).value;
      (i == 0 || i + 1 == |args|) && i != 1
  {
    if Separator in args {
      var i := FirstIndex(args, Separator).value;
      SplitTableCases(args, i);
      if i > 0 && i + 1 == |args| {
        assert (|args| - i - 1) % i == 0 % i == 0;
      }
    }
  }

  /** `SplitTable` by its three outcomes once the "--" is found at i. */
  lemma SplitTableCases(args: seq<string>, i: nat)
    requires FirstIndex(args, Separator) == Some(i)
    ensures SplitTable(args) ==
      if i > 0 && (|args| - i - 1) % i != 0 then Err(RaggedRows)
      else if (i == 0 || i + 1 == |args|) && i != 1 then Err(EmptyRows)
      else Ok(Table(args[..i], Chunks(args[i + 1..], i)))
  {
    assert |args[..i]| == i && |args[i + 1..]| == |args| - i - 1;
    assert args[i + 1..] == [] <==> i + 1 == |args|;
  }

  lemma SplitTableOk(args: seq<string>, i: nat)
    requires FirstIndex(args, Separator) == Some(i)
    requires i > 0 && (|args| - i - 1) % i == 0 && (i + 1 == |args| ==> i == 1)
    ensures var data := args[i + 1..];
      && SplitTable(args) == Ok(Table(args[..i], Chunks(data, i)))
      && Flatten(Chunks(data, i)) == data && |Chunks(data, i)| == |data| / i
      && WellShaped(Table(args[..i], Chunks(data, i)))
  {
    var data := args[i + 1..];
    SplitTableCases(args, i);
    ChunksFlatten(data, i);
    ChunksShape(data, i);
  }

  /** In a record, a header that occurs once maps to the value in its column. */
  lemma {:induction false} ZipAt(headers: seq<string>, row: seq<string>, j: nat)
    requires |headers| == |row| && j < |headers|
    requires forall k :: j < k < |headers| ==> headers[k] != headers[j]
    ensures Zip(headers, row)[headers[j]] == row[j]
  {
    var n := |headers| - 1;
    if j < n {
      ZipAt(headers[..n], row[..n], j);
    }
  }

  /** With distinct headers, record i maps header j to token j of row i, and
      row i is the i-th run of H data tokens. */
  lemma RecordsHoldTheirRow(args: seq<string>, i: nat, j: nat)
    requires SplitTable(args).Ok?
    requires i < |SplitTable(args).value.rows| && j < |SplitTable(args).value.headers|
    requires Distinct(SplitTable(args).value.headers)
    ensures RecordCell(args, i, j)
  {
    var t := SplitTable(args).value;
    var h := FirstIndex(args, Separator).value;
    assert t.headers == args[..h] && t.rows == Chunks(args[h + 1..], h);
    assert |t.headers| == h;
    SplitTableWellShaped(args);
    RowTokenAt(args, h, i, j);
    CellOfRecords(t, i, j);
    assert TableRecords(args).value == ToRecords(t);
  }

  /** Where token j of data row i sits among the arguments when there are
      h headers: after the headers, the "--" and i full rows. */
  function Position(h: nat, i: nat, j: nat): nat {
    h + 1 + i * h + j
  }

  /** Token j of data row i sits at position H + 1 + i * H + j of the arguments. */
  lemma RowTokenAt(args: seq<string>, h: nat, i: nat, j: nat)
    requires h < |args| && h > 0
    requires i < |Chunks(args[h + 1..], h)| && j < |Chunks(args[h + 1..], h)[i]|
    ensures Position(h, i, j) < |args| && Chunks(args[h + 1..], h)[i][j] == args[Position(h, i, j)]
  {
    ChunkAt(args[h + 1..], h, i, j);
    SliceAt(args, h + 1, i * h + j);
  }

  lemma CellOfRecords(t: Table, i: nat, j: nat)
    requires WellShaped(t) && i < |t.rows| && j < |t.headers| && Distinct(t.headers)
    ensures t.headers[j] in ToRecords(t)[i] && ToRecords(t)[i][t.headers[j]] == t.rows[i][j]
  {
    var r := ToRecords(t);
    assert r[i] == Zip(t.headers, t.rows[i]);
    ZipAt(t.headers, t.rows[i], j);
    assert t.headers[j] in HeaderSet(t.headers);
  }

  predicate Distinct(s: seq<string>) {
    forall a, b :: 0 <= a < b < |s| ==> s[a] != s[b]
  }

  /** Record i maps header j to the data token at row-major position i * H + j. */
  predicate RecordCell(args: seq<string>, i: nat, j: nat)
    requires SplitTable(args).Ok? && i < |SplitTable(args).value.rows| && j < |SplitTable(args).value.headers|
  {
    var t := SplitTable(args).value;
    var h := |t.headers|;
    var p := Position(h, i, j);
    && TableRecords(args).Ok?
    && var r := TableRecords(args).value;
      i < |r| && p < |args| && t.headers[j] in r[i] && r[i][t.headers[j]] == args[p]
  }

  lemma {:induction false} ChunkAt(data: seq<string>, h: nat, i: nat, j: nat)
    requires h > 0 && i < |Chunks(data, h)| && j < |Chunks(data, h)[i]|
    ensures i * h + j < |data| && Chunks(data, h)[i][j] == data[i * h + j]
  {
    var c := Chunks(data, h);
    if |data| <= h {
      assert c == [data];
    } else {
      var rest := Chunks(data[h..], h);
      assert c == [data[..h]] + rest;
      if i > 0 {
        assert c[i] == rest[i - 1];
        ChunkAt(data[h..], h, i - 1, j);
        MulSucc(i - 1, h);
        SliceAt(data, h, (i - 1) * h + j);
      }
    }
  }

  lemma ZeroProduct(a: nat, h: nat)
    requires h > 0 && a * h == 0
    ensures a == 0
  {
  }

  lemma MulSucc(a: nat, h: nat)
    ensures (a + 1) * h == a * h + h
  {
  }

  // ---------------------------------------------------------------------
  // The shared token iterator and the parse loop (lines 41-46)
  // ---------------------------------------------------------------------

  /** `iter(args)`: one cursor shared by the header loop and the row pulls. */
  class TokenIterator {
    const tokens: seq<string>
    var pos: nat

    ghost predicate Valid()
      reads this
    {
      pos <= |tokens|
    }

    constructor (tokens: seq<string>)
      ensures Valid() && this.tokens == tokens && pos == 0
    {
      this.tokens := tokens;
      pos := 0;
    }

    /** `next(source)`; None stands for StopIteration. */
    method Next() returns (t: Option<string>)
      requires Valid()
      modifies this
      ensures Valid()
      ensures old(pos) < |tokens| ==> t == Some(tokens[old(pos)]) && pos == old(pos) + 1
      ensures old(pos) == |tokens| ==> t == None && pos == old(pos)
    {
      if pos < |tokens| {
        t := Some(tokens[pos]);
        pos := pos + 1;
      } else {
        t := None;
      }
    }

    /** `tuple(islice(source, n))`: up to n further tokens. */
    method Take(n: nat) returns (chunk: seq<string>)
      requires Valid()
      modifies this
      ensures Valid()
      ensures pos == (if old(pos) + n <= |tokens| then old(pos) + n else |tokens|)
      ensures chunk == tokens[old(pos)..pos]
    {
      chunk := [];
      var taken := 0;
      while taken < n
        invariant Valid() && taken <= n
        invariant pos == old(pos) + |chunk| && chunk == tokens[old(pos)..pos]
        invariant |chunk| == taken || pos == |tokens|
        invariant pos <= old(pos) + taken
      {
        var t := Next();
        if t.None? {
          break;
        }
        chunk := chunk + [t.value];
        taken := taken + 1;
      }
    }
  }

  lemma ChunksStep(rest: seq<string>, h: nat)
    requires h > 0 && rest != []
    ensures var k := if h <= |rest| then h else |rest|;
      Chunks(rest, h) == [rest[..k]] + Chunks(rest[k..], h)
  {
    if |rest| <= h {
      assert rest[..|rest|] == rest && rest[|rest|..] == [];
    }
  }

  lemma QuotientRemainder(n: nat, h: nat) returns (q: nat, r: nat)
    requires h > 0
    ensures n == q * h + r && r < h && r == n % h
  {
    q, r := n / h, n % h;
  }

  /** The data count is a multiple of h exactly when the last chunk is
      full, and then every chunk is. */
  lemma LastChunk(data: seq<string>, h: nat)
    requires h > 0
    ensures var rows := Chunks(data, h);
      && (|data| % h != 0 <==> |rows| > 0 && |rows[|rows| - 1]| != h)
      && (|data| % h == 0 ==> forall i :: 0 <= i < |rows| ==> |rows[i]| == h)
  {
    var q, r := QuotientRemainder(|data|, h);
    ChunksShapeByQuotient(data, h, q, r);
  }

  /** The split fails with RaggedRows exactly when the last chunk pulled is
      shorter than the header row, and with EmptyRows exactly when no chunk
      is pulled and there is not exactly one header. */
  lemma LastChunkDecides(args: seq<string>, h: nat)
    requires FirstIndex(args, Separator) == Some(h)
    ensures var rows := Chunks(args[h + 1..], h);
      && (h > 0 && |rows| > 0 && |rows[|rows| - 1]| != h ==> SplitTable(args) == Err(RaggedRows))
      && (rows == [] && h != 1 ==> SplitTable(args) == Err(EmptyRows))
      && (!(h > 0 && |rows| > 0 && |rows[|rows| - 1]| != h) && !(rows == [] && h != 1) ==>
            SplitTable(args) == Ok(Table(args[..h], rows)) && WellShaped(Table(args[..h], rows)))
  {
    var data := args[h + 1..];
    assert |args[..h]| == h;
    if h == 0 {
      assert SplitTable(args) == Err(EmptyRows);
    } else {
      LastChunk(data, h);
      if |data| % h != 0 {
        assert SplitTable(args) == Err(RaggedRows);
      } else if data == [] && h != 1 {
        assert SplitTable(args) == Err(EmptyRows);
      } else {
        assert SplitTable(args) == Ok(Table(args[..h], Chunks(data, h)));
      }
    }
  }

  /** Line 45: `tuple(iter(lambda: tuple(islice(source, h)), ()))`, the
      chunks pulled until the first empty one. */
  method PullRows(source: TokenIterator, h: nat) returns (rows: seq<seq<string>>)
    requires source.Valid()
    modifies source
    ensures source.Valid()
    ensures rows == Chunks(source.tokens[old(source.pos)..], h)
  {
    rows := [];
    ghost var start := source.pos;
    while true
      invariant source.Valid() && start <= source.pos
      invariant rows + Chunks(source.tokens[source.pos..], h) == Chunks(source.tokens[start..], h)
      decreases |source.tokens| - source.pos
    {
      ghost var before := source.pos;
      var chunk := source.Take(h);
      if chunk == [] {
        NoMoreChunks(source.tokens, before, h);
        assert rows + [] == rows;
        return;
      }
      PulledChunk(source.tokens, before, source.pos, h);
      ConcatAssoc(rows, [chunk], Chunks(source.tokens[source.pos..], h));
      rows := rows + [chunk];
    }
  }

  /** An empty pull means the header count is zero or the tokens ran out,
      and then no chunk is left. */
  lemma NoMoreChunks(tokens: seq<string>, pos: nat, h: nat)
    requires pos <= |tokens|
    requires tokens[pos..if pos + h <= |tokens| then pos + h else |tokens|] == []
    ensures Chunks(tokens[pos..], h) == []
  {
    var end := if pos + h <= |tokens| then pos + h else |tokens|;
    assert |tokens[pos..end]| == end - pos;
    assert h == 0 || pos == |tokens|;
  }

  /** A non-empty pull is the first chunk of what was left. */
  lemma PulledChunk(tokens: seq<string>, before: nat, after: nat, h: nat)
    requires before < after <= |tokens|
    requires after == (if before + h <= |tokens| then before + h else |tokens|)
    ensures Chunks(tokens[before..], h) == [tokens[before..after]] + Chunks(tokens[after..], h)
  {
    var rest := tokens[before..];
    ChunksStep(rest, h);
    assert rest[..after - before] == tokens[before..after];
    assert rest[after - before..] == tokens[after..];
  }

  /** Lines 41-46: collect headers up to the first "--", then pull chunks of
      the header count until an empty one; a short last chunk is refused as
      the frame constructor refuses it, and so is an empty pull unless there
      is exactly one header. */
  method ParseTokens(args: seq<string>) returns (res: Result<Table, Error>)
    ensures res == SplitTable(args)
    ensures res.Ok? ==> WellShaped(res.value)
  {
    var source := new TokenIterator(args);
    var colNames: seq<string> := [];
    while true
      invariant source.Valid() && source.tokens == args
      invariant source.pos == |colNames| && colNames == args[..source.pos]
      invariant Separator !in colNames
      decreases |args| - source.pos
    {
      var t := source.Next();
      if t.None? {
        return Err(StopIteration);
      }
      if t.value == Separator {
        break;
      }
      colNames := colNames + [t.value];
    }
    var h := |colNames|;
    assert FirstIndex(args, Separator) == Some(h);
    var rows := PullRows(source, h);
    ghost var data := args[h + 1..];
    assert rows == Chunks(data, h);
    LastChunkDecides(args, h);
    if h > 0 && |rows| > 0 && |rows[|rows| - 1]| != h {
      return Err(RaggedRows);
    }
    if |rows| == 0 && h != 1 {
      return Err(EmptyRows);
    }
    res := Ok(Table(colNames, rows));
  }

  // ---------------------------------------------------------------------
  // Option normalisation (lines 47-49)
  // ---------------------------------------------------------------------

  datatype FrameOptions = FrameOptions(toDict: Option<string>, setIndex: Option<string>)

  predicate Given(o: Option<string>) {
    o.Some? && o.value != ""
  }

  /** An unknown `to_dict` without `set_index` names the index column and
      selects the 'index' orientation; anything else is left as it is. */
  function NormaliseOptions(o: FrameOptions): (r: FrameOptions)
    ensures Given(o.toDict) && o.toDict.value !in Orientations && !Given(o.setIndex) ==>
      r == FrameOptions(Some("index"), o.toDict)
    ensures !(Given(o.toDict) && o.toDict.value !in Orientations && !Given(o.setIndex)) ==> r == o
  {
    if Given(o.toDict) && o.toDict.value !in Orientations && !Given(o.setIndex) then
      FrameOptions(Some("index"), o.toDict)
    else o
  }

  /** After normalisation the orientation is absent or one pandas knows,
      unless an index column was given explicitly; normalising again changes
      nothing. */
  lemma NormaliseOptionsSettles(o: FrameOptions)
    ensures var r := NormaliseOptions(o);
      (!Given(o.setIndex) ==> !Given(r.toDict) || r.toDict.value in Orientations)
      && NormaliseOptions(r) == r
      && (Given(o.toDict) ==> Given(r.setIndex) || r.toDict == o.toDict)
  {
  }

  // ---------------------------------------------------------------------
  // De-duplication on the index column (lines 50-54)
  // ---------------------------------------------------------------------

  function KeyOf(r: Record, column: string): string {
    if column in r then r[column] else ""
  }

  function KeySet(rows: seq<Record>, column: string): set<string> {
    set i | 0 <= i < |rows| :: KeyOf(rows[i], column)
  }

  /** `drop_duplicates(subset=[column])` with the default keep='first':
      a row survives iff no earlier row has the same key. */
  function DedupFirst(rows: seq<Record>, column: string): (r: seq<Record>)
    ensures |r| <= |rows|
  {
    if rows == [] then []
    else
      var n := |rows| - 1;
      DedupFirst(rows[..n], column)
        + (if KeyOf(rows[n], column) in KeySet(rows[..n], column) then [] else [rows[n]])
  }

  lemma KeySetSnoc(rows: seq<Record>, x: Record, column: string)
    ensures KeySet(rows + [x], column) == KeySet(rows, column) + {KeyOf(x, column)}
  {
    var a := rows + [x];
    forall k | k in KeySet(a, column) ensures k in KeySet(rows, column) + {KeyOf(x, column)} {
      var i :| 0 <= i < |a| && KeyOf(a[i], column) == k;
      if i < |rows| { assert a[i] == rows[i]; }
    }
    forall k | k in KeySet(rows, column) ensures k in KeySet(a, column) {
      var i :| 0 <= i < |rows| && KeyOf(rows[i], column) == k;
      assert a[i] == rows[i];
    }
    assert a[|rows|] == x;
    assert KeyOf(a[|rows|], column) in KeySet(a, column);
  }

  /** The surviving rows have pairwise distinct keys, and every key of the
      input survives. */
  lemma {:induction false} DedupFirstKeys(rows: seq<Record>, column: string)
    ensures var d := DedupFirst(rows, column);
      (forall i, j :: 0 <= i < j < |d| ==> KeyOf(d[i], column) != KeyOf(d[j], column))
      && KeySet(d, column) == KeySet(rows, column)
  {
    if rows != [] {
      var n := |rows| - 1;
      var init := rows[..n];
      DedupFirstKeys(init, column);
      assert rows == init + [rows[n]];
      KeySetSnoc(init, rows[n], column);
      var d0 := DedupFirst(init, column);
      if KeyOf(rows[n], column) in KeySet(init, column) {
        assert DedupFirst(rows, column) == d0;
      } else {
        assert DedupFirst(rows, column) == d0 + [rows[n]];
        KeySetSnoc(d0, rows[n], column);
        forall i | 0 <= i < |d0| ensures KeyOf(d0[i], column) != KeyOf(rows[n], column) {
          assert KeyOf(d0[i], column) in KeySet(d0, column);
        }
      }
    }
  }

  /** Each row whose key was not seen before it is kept, and only such rows
      are kept. */
  lemma {:induction false} DedupFirstKeepsFirstOccurrences(rows: seq<Record>, column: string)
    ensures var d := DedupFirst(rows, column);
      (forall i :: 0 <= i < |rows| && KeyOf(rows[i], column) !in KeySet(rows[..i], column) ==> rows[i] in d)
      && (forall x :: x in d ==> exists i :: 0 <= i < |rows| && rows[i] == x && KeyOf(x, column) !in KeySet(rows[..i], column))
  {
    if rows != [] {
      var n := |rows| - 1;
      DedupFirstKeepsFirstOccurrences(rows[..n], column);
      FirstOccurrencesKeptStep(rows, column);
      OnlyFirstOccurrencesStep(rows, column);
    }
  }

  /** The last row's contribution to `DedupFirst`. */
  lemma DedupFirstSnoc(rows: seq<Record>, column: string)
    requires rows != []
    ensures var n := |rows| - 1;
      DedupFirst(rows, column) == DedupFirst(rows[..n], column)
        + (if KeyOf(rows[n], column) in KeySet(rows[..n], column) then [] else [rows[n]])
  {
  }

  /** `d` is `rows` read at the strictly increasing positions `idx`, each of
      which is the first row with its key. */
  ghost predicate FirstOccurrencesInOrder(d: seq<Record>, rows: seq<Record>, column: string, idx: seq<nat>) {
    |idx| == |d|
    && (forall k :: 0 <= k < |idx| ==>
          idx[k] < |rows| && d[k] == rows[idx[k]] && KeyOf(rows[idx[k]], column) !in KeySet(rows[..idx[k]], column))
    && (forall k, l :: 0 <= k < l < |idx| ==> idx[k] < idx[l])
  }

  /** The survivors of `drop_duplicates(keep='first')` keep the frame's row
      order: they are a subsequence of the input, taken at first occurrences. */
  lemma DedupFirstKeepsOrder(rows: seq<Record>, column: string)
    ensures exists idx :: FirstOccurrencesInOrder(DedupFirst(rows, column), rows, column, idx)
  {
    var idx := DedupFirstPositions(rows, column);
  }

  lemma {:induction false} DedupFirstPositions(rows: seq<Record>, column: string) returns (idx: seq<nat>)
    ensures FirstOccurrencesInOrder(DedupFirst(rows, column), rows, column, idx)
    ensures forall k :: 0 <= k < |idx| ==> idx[k] < |rows|
    decreases |rows|
  {
    if rows == [] {
      idx := [];
    } else {
      var n := |rows| - 1;
      var init := rows[..n];
      var d0 := DedupFirst(init, column);
      var prev := DedupFirstPositions(init, column);
      assert rows == init + [rows[n]];
      FirstOccurrencesWiden(d0, init, rows[n], column, prev);
      DedupFirstSnoc(rows, column);
      if KeyOf(rows[n], column) in KeySet(init, column) {
        idx := prev;
        assert DedupFirst(rows, column) == d0 + [];
      } else {
        FirstOccurrencesSnoc(d0, rows, column, prev, n);
        idx := prev + [n];
      }
    }
  }

  /** Positions in a list stay first occurrences when a row is appended. */
  lemma FirstOccurrencesWiden(d: seq<Record>, init: seq<Record>, x: Record, column: string, idx: seq<nat>)
    requires FirstOccurrencesInOrder(d, init, column, idx)
    ensures FirstOccurrencesInOrder(d, init + [x], column, idx)
  {
    var rows := init + [x];
    forall k | 0 <= k < |idx|
      ensures idx[k] < |rows| && d[k] == rows[idx[k]]
      ensures KeyOf(rows[idx[k]], column) !in KeySet(rows[..idx[k]], column)
    {
      assert rows[idx[k]] == init[idx[k]];
      assert rows[..idx[k]] == init[..idx[k]];
    }
  }

  /** A row whose key is new extends the survivors at its own position. */
  lemma FirstOccurrencesSnoc(d: seq<Record>, rows: seq<Record>, column: string, idx: seq<nat>, n: nat)
    requires FirstOccurrencesInOrder(d, rows, column, idx)
    requires n < |rows| && forall k :: 0 <= k < |idx| ==> idx[k] < n
    requires KeyOf(rows[n], column) !in KeySet(rows[..n], column)
    ensures FirstOccurrencesInOrder(d + [rows[n]], rows, column, idx + [n])
  {
    var d' := d + [rows[n]];
    var idx' := idx + [n];
    forall k | 0 <= k < |idx'|
      ensures idx'[k] < |rows| && d'[k] == rows[idx'[k]]
      ensures KeyOf(rows[idx'[k]], column) !in KeySet(rows[..idx'[k]], column)
    {
      if k < |idx| {
        assert idx'[k] == idx[k] && d'[k] == d[k];
      }
    }
    forall k, l | 0 <= k < l < |idx'| ensures idx'[k] < idx'[l] {
      if l < |idx| {
        assert idx'[k] == idx[k] && idx'[l] == idx[l];
      } else {
        assert idx'[k] == idx[k];
      }
    }
  }

  lemma FirstOccurrencesKeptStep(rows: seq<Record>, column: string)
    requires rows != []
    requires var init := rows[..|rows| - 1];
      forall i :: 0 <= i < |init| && KeyOf(init[i], column) !in KeySet(init[..i], column) ==>
        init[i] in DedupFirst(init, column)
    ensures forall i :: 0 <= i < |rows| && KeyOf(rows[i], column) !in KeySet(rows[..i], column) ==>
      rows[i] in DedupFirst(rows, column)
  {
    var n := |rows| - 1;
    var init := rows[..n];
    var d0 := DedupFirst(init, column);
    var tail := if KeyOf(rows[n], column) in KeySet(init, column) then [] else [rows[n]];
    DedupFirstSnoc(rows, column);
    var d := DedupFirst(rows, column);
    assert d == d0 + tail;
    forall i | 0 <= i < |rows| && KeyOf(rows[i], column) !in KeySet(rows[..i], column)
      ensures rows[i] in d
    {
      if i < n {
        assert rows[..i] == init[..i];
        assert rows[i] == init[i];
        assert rows[i] in d0;
      } else {
        assert rows[..i] == init;
        assert rows[i] in tail;
      }
    }
  }

  lemma OnlyFirstOccurrencesStep(rows: seq<Record>, column: string)
    requires rows != []
    requires var init := rows[..|rows| - 1];
      forall x :: x in DedupFirst(init, column) ==>
        exists i :: 0 <= i < |init| && init[i] == x && KeyOf(x, column) !in KeySet(init[..i], column)
    ensures forall x :: x in DedupFirst(rows, column) ==>
      exists i :: 0 <= i < |rows| && rows[i] == x && KeyOf(x, column) !in KeySet(rows[..i], column)
  {
    var n := |rows| - 1;
    var init := rows[..n];
    var d0 := DedupFirst(init, column);
    var tail := if KeyOf(rows[n], column) in KeySet(init, column) then [] else [rows[n]];
    DedupFirstSnoc(rows, column);
    var d := DedupFirst(rows, column);
    assert d == d0 + tail;
    forall x | x in d
      ensures exists i :: 0 <= i < |rows| && rows[i] == x && KeyOf(x, column) !in KeySet(rows[..i], column)
    {
      if x in d0 {
        var i :| 0 <= i < |init| && init[i] == x && KeyOf(x, column) !in KeySet(init[..i], column);
        assert rows[..i] == init[..i] && rows[i] == init[i];
      } else {
        assert x in tail;
        assert x == rows[n] && rows[..n] == init;
      }
    }
  }

  /** One more row of a prefix: it survives exactly when its key is new,
      and its key joins the keys seen. */
  lemma DedupFirstPrefixStep(rows: seq<Record>, i: nat, column: string)
    requires i < |rows|
    ensures DedupFirst(rows[..i + 1], column) == DedupFirst(rows[..i], column)
      + (if KeyOf(rows[i], column) in KeySet(rows[..i], column) then [] else [rows[i]])
    ensures KeySet(rows[..i + 1], column) == KeySet(rows[..i], column) + {KeyOf(rows[i], column)}
  {
    var p := rows[..i + 1];
    assert p[..i] == rows[..i] && p[i] == rows[i];
    DedupFirstSnoc(p, column);
    assert p == rows[..i] + [rows[i]];
    KeySetSnoc(rows[..i], rows[i], column);
  }

  /** The surviving rows are rows of the input, so they keep its columns. */
  lemma DedupFirstKeepsShape(rows: seq<Record>, column: string, keys: set<string>)
    requires forall i :: 0 <= i < |rows| ==> rows[i].Keys == keys
    ensures forall k :: 0 <= k < |DedupFirst(rows, column)| ==> DedupFirst(rows, column)[k].Keys == keys
  {
    var d := DedupFirst(rows, column);
    DedupFirstKeepsFirstOccurrences(rows, column);
    forall k | 0 <= k < |d| ensures d[k].Keys == keys {
      assert d[k] in d;
      var j :| 0 <= j < |rows| && rows[j] == d[k] && KeyOf(d[k], column) !in KeySet(rows[..j], column);
    }
  }

  /** Rows whose keys are already distinct all survive, in order; hence
      de-duplicating twice is de-duplicating once. */
  lemma {:induction false} DedupFirstOfDistinct(rows: seq<Record>, column: string)
    requires forall i, j :: 0 <= i < j < |rows| ==> KeyOf(rows[i], column) != KeyOf(rows[j], column)
    ensures DedupFirst(rows, column) == rows
  {
    if rows != [] {
      var n := |rows| - 1;
      var init := rows[..n];
      forall a, b | 0 <= a < b < |init| ensures KeyOf(init[a], column) != KeyOf(init[b], column) {
        assert init[a] == rows[a] && init[b] == rows[b];
      }
      DedupFirstOfDistinct(init, column);
      forall a | 0 <= a < |init| ensures KeyOf(init[a], column) != KeyOf(rows[n], column) {
        assert init[a] == rows[a];
      }
      NotInKeySet(init, KeyOf(rows[n], column), column);
      DedupFirstSnoc(rows, column);
      assert rows == init + [rows[n]];
    }
  }

  lemma NotInKeySet(rows: seq<Record>, k: string, column: string)
    requires forall a :: 0 <= a < |rows| ==> KeyOf(rows[a], column) != k
    ensures k !in KeySet(rows, column)
  {
  }

  lemma DedupFirstIdempotent(rows: seq<Record>, column: string)
    ensures DedupFirst(DedupFirst(rows, column), column) == DedupFirst(rows, column)
  {
    DedupFirstKeys(rows, column);
    DedupFirstOfDistinct(DedupFirst(rows, column), column);
  }

  // ---------------------------------------------------------------------
  // The frame
  // ---------------------------------------------------------------------

  /** The column line 51 copies the index column into. */
  const IndexLabel: string := "_idx_"

  /** How often `x` occurs among the headers. */
  function Occurrences(s: seq<string>, x: string): (n: nat)
    ensures n == 0 <==> x !in s
    ensures n <= |s|
  {
    if s == [] then 0
    else
      var m := |s| - 1;
      assert s == s[..m] + [s[m]];
      Occurrences(s[..m], x) + if s[m] == x then 1 else 0
  }

  /** The headers with every `name` column removed. */
  function Without(headers: seq<string>, name: string): (r: seq<string>)
    ensures HeaderSet(r) == HeaderSet(headers) - {name}
    ensures name !in headers ==> r == headers
  {
    if headers == [] then []
    else
      var m := |headers| - 1;
      assert headers == headers[..m] + [headers[m]];
      Without(headers[..m], name) + if headers[m] == name then [] else [headers[m]]
  }

  /** `df[target] = df[source]` on the records. */
  function CopyColumn(rows: seq<Record>, source: string, target: string): (r: seq<Record>)
    ensures |r| == |rows|
  {
    seq(|rows|, i requires 0 <= i < |rows| => rows[i][target := KeyOf(rows[i], source)])
  }

  /** The records with the `name` column moved out of them. */
  function DropColumn(rows: seq<Record>, name: string): (r: seq<Record>)
    ensures |r| == |rows|
  {
    seq(|rows|, i requires 0 <= i < |rows| => rows[i] - {name})
  }

  /** The values of one column, row by row. */
  function ColumnValues(rows: seq<Record>, name: string): (r: seq<string>)
    ensures |r| == |rows|
  {
    seq(|rows|, i requires 0 <= i < |rows| => KeyOf(rows[i], name))
  }

  /** The frame `create_dataframe` builds and then changes in place. */
  class DataFrame {
    var columns: seq<string>
    var rows: seq<Record>
    var index: Option<seq<string>> // the index values once `set_index` has run
    var orient: Option<string>     // the `to_dict` orientation the frame is handed to

    ghost predicate Valid()
      reads this
    {
      forall i :: 0 <= i < |rows| ==> rows[i].Keys == HeaderSet(columns)
    }

    constructor (columns: seq<string>, rows: seq<Record>)
      requires forall i :: 0 <= i < |rows| ==> rows[i].Keys == HeaderSet(columns)
      ensures Valid() && this.columns == columns && this.rows == rows
      ensures index == None && orient == None
    {
      this.columns := columns;
      this.rows := rows;
      index := None;
      orient := None;
    }

    /** Line 51, `df[target] = df[source]`: a missing source raises
        KeyError, and a source header that occurs twice selects two columns,
        which pandas refuses to store in one. Otherwise the target column
        is added, or overwritten when it exists, with the source's values. */
    method AssignColumn(source: string, target: string) returns (r: Result<(), Error>)
      requires Valid()
      modifies this`columns, this`rows
      ensures Valid()
      ensures source !in old(columns) ==> r == Err(MissingColumn(source))
      ensures Occurrences(old(columns), source) > 1 ==> r == Err(AmbiguousColumn(source))
      ensures r.Err? ==> columns == old(columns) && rows == old(rows)
      ensures Occurrences(old(columns), source) == 1 ==>
        && r == Ok(())
        && columns == (if target in old(columns) then old(columns) else old(columns) + [target])
        && rows == CopyColumn(old(rows), source, target)
    {
      var n := Occurrences(columns, source);
      if n == 0 {
        return Err(MissingColumn(source));
      }
      if n > 1 {
        return Err(AmbiguousColumn(source));
      }
      if target !in columns {
        columns := columns + [target];
      }
      rows := CopyColumn(rows, source, target);
      r := Ok(());
    }

    /** `df.drop_duplicates(subset=[column], inplace=True)`. */
    method DropDuplicates(column: string)
      requires Valid()
      modifies this`rows
      ensures Valid()
      ensures rows == DedupFirst(old(rows), column)
    {
      var kept: seq<Record> := [];
      var seen: set<string> := {};
      var i := 0;
      while i < |rows|
        invariant i <= |rows| && rows == old(rows)
        invariant kept == DedupFirst(rows[..i], column)
        invariant seen == KeySet(rows[..i], column)
      {
        var key := KeyOf(rows[i], column);
        DedupFirstPrefixStep(rows, i, column);
        if key !in seen {
          kept := kept + [rows[i]];
        }
        seen := seen + {key};
        i := i + 1;
      }
      assert rows[..i] == rows;
      DedupFirstKeepsShape(rows, column, HeaderSet(columns));
      rows := kept;
    }

    /** Line 54, `df.set_index(name)`: the column leaves the frame and its
        values become the index; a missing name raises KeyError. */
    method SetIndex(name: string) returns (r: Result<(), Error>)
      requires Valid()
      modifies this`columns, this`rows, this`index
      ensures Valid()
      ensures name !in old(columns) ==> r == Err(MissingColumn(name)) && unchanged(this)
      ensures name in old(columns) ==>
        && r == Ok(())
        && index == Some(ColumnValues(old(rows), name))
        && columns == Without(old(columns), name)
        && rows == DropColumn(old(rows), name)
    {
      if name !in columns {
        return Err(MissingColumn(name));
      }
      index := Some(ColumnValues(rows, name));
      columns := Without(columns, name);
      rows := DropColumn(rows, name);
      r := Ok(());
    }

    /** Lines 50-54 on the frame: copy the `set_index` column to `_idx_`,
        drop the rows whose copy repeats an earlier one, and move the copy
        into the index. */
    method IndexOn(key: string) returns (r: Result<(), Error>)
      requires Valid()
      modifies this`columns, this`rows, this`index
      ensures Valid()
      ensures key !in old(columns) ==> r == Err(MissingColumn(key))
      ensures Occurrences(old(columns), key) > 1 ==> r == Err(AmbiguousColumn(key))
      ensures Occurrences(old(columns), key) == 1 ==>
        var v := IndexedView(old(columns), old(rows), key);
        r == Ok(()) && columns == v.columns && rows == v.rows && index == v.index
    {
      var copied := AssignColumn(key, IndexLabel);
      if copied.Err? {
        return copied;
      }
      DropDuplicates(IndexLabel);
      var moved := SetIndex(IndexLabel);
      WithoutAddedLabel(old(columns), IndexLabel);
      r := Ok(());
    }

    /** `to_dict('records')`. */
    function Records(): (rs: seq<Record>)
      reads this
      ensures |rs| == |rows|
    {
      rows
    }
  }

  datatype FrameView = FrameView(columns: seq<string>, rows: seq<Record>,
                                 index: Option<seq<string>>, orient: Option<string>)

  /** Lines 51-54 on a table whose `set_index` column occurs once: the
      column is copied to `_idx_` (overwriting a header of that name), the
      rows are de-duplicated on the copy, and the copy becomes the index. */
  function IndexedView(headers: seq<string>, records: seq<Record>, key: string): FrameView {
    var kept := DedupFirst(CopyColumn(records, key, IndexLabel), IndexLabel);
    FrameView(Without(headers, IndexLabel), DropColumn(kept, IndexLabel), Some(ColumnValues(kept, IndexLabel)), None)
  }

  /** What `create_dataframe(*args, to_dict=, set_index=)` produces. */
  function CreateDataframeSpec(args: seq<string>, options: FrameOptions): Result<FrameView, Error> {
    match TableRecords(args)
    case Err(e) => Err(e)
    case Ok(records) =>
      var t := SplitTable(args).value;
      var o := NormaliseOptions(options);
      if Given(o.setIndex) && o.setIndex.value !in t.headers then Err(MissingColumn(o.setIndex.value))
      else if Given(o.setIndex) && Occurrences(t.headers, o.setIndex.value) > 1 then
        Err(AmbiguousColumn(o.setIndex.value))
      else if Given(o.toDict) && o.toDict.value !in PandasOrientations then Err(UnknownOrientation(o.toDict.value))
      else
        var v := if Given(o.setIndex) then IndexedView(t.headers, records, o.setIndex.value)
                 else FrameView(t.headers, records, None, None);
        Ok(v.(orient := if Given(o.toDict) then o.toDict else None))
  }

  /** An orientation is rejected only when `set_index` names a column too
      and line 51 gets past it: without `set_index`, line 47 turns every
      unknown orientation into the index column and asks for "index". */
  lemma OrientationRejectedOnlyWithIndex(args: seq<string>, options: FrameOptions)
    ensures var r := CreateDataframeSpec(args, options);
      r.Err? && r.error.UnknownOrientation? <==>
        && TableRecords(args).Ok?
        && Given(options.setIndex) && Occurrences(SplitTable(args).value.headers, options.setIndex.value) == 1
        && Given(options.toDict) && options.toDict.value !in PandasOrientations
  {
  }

  /** `set_index` naming a header that occurs more than once raises at
      line 51, whatever the orientation. */
  lemma DuplicatedIndexRaises(args: seq<string>, options: FrameOptions)
    requires TableRecords(args).Ok?
    requires var o := NormaliseOptions(options);
      Given(o.setIndex) && Occurrences(SplitTable(args).value.headers, o.setIndex.value) > 1
    ensures CreateDataframeSpec(args, options) == Err(AmbiguousColumn(NormaliseOptions(options).setIndex.value))
  {
  }

  lemma {:induction false} CopyColumnSnoc(rows: seq<Record>, source: string, target: string)
    requires rows != []
    ensures var n := |rows| - 1;
      CopyColumn(rows, source, target)
        == CopyColumn(rows[..n], source, target) + [rows[n][target := KeyOf(rows[n], source)]]
  {
  }

  lemma KeySetAssigned(rows: seq<Record>, key: string)
    ensures KeySet(CopyColumn(rows, key, IndexLabel), IndexLabel) == KeySet(rows, key)
  {
    var a := CopyColumn(rows, key, IndexLabel);
    forall k | k in KeySet(a, IndexLabel) ensures k in KeySet(rows, key) {
      var i :| 0 <= i < |a| && KeyOf(a[i], IndexLabel) == k;
      assert KeyOf(rows[i], key) == k;
    }
    forall k | k in KeySet(rows, key) ensures k in KeySet(a, IndexLabel) {
      var i :| 0 <= i < |rows| && KeyOf(rows[i], key) == k;
      assert KeyOf(a[i], IndexLabel) == k;
    }
  }

  /** De-duplicating on the copy at line 53 is de-duplicating on the
      `set_index` column itself. */
  lemma {:induction false} DedupOnCopy(rows: seq<Record>, key: string)
    ensures DedupFirst(CopyColumn(rows, key, IndexLabel), IndexLabel)
      == CopyColumn(DedupFirst(rows, key), key, IndexLabel)
    decreases |rows|
  {
    if rows != [] {
      var n := |rows| - 1;
      var a := CopyColumn(rows, key, IndexLabel);
      var last := rows[n][IndexLabel := KeyOf(rows[n], key)];
      CopyColumnSnoc(rows, key, IndexLabel);
      assert a[..n] == CopyColumn(rows[..n], key, IndexLabel) && a[n] == last;
      DedupFirstSnoc(a, IndexLabel);
      DedupFirstSnoc(rows, key);
      DedupOnCopy(rows[..n], key);
      KeySetAssigned(rows[..n], key);
      assert KeyOf(last, IndexLabel) == KeyOf(rows[n], key);
      var d := DedupFirst(rows[..n], key);
      if KeyOf(rows[n], key) in KeySet(rows[..n], key) {
        assert DedupFirst(rows, key) == d + [];
      } else {
        CopyColumnSnoc(d + [rows[n]], key, IndexLabel);
        assert (d + [rows[n]])[..|d|] == d;
      }
    } else {
      assert CopyColumn(rows, key, IndexLabel) == [];
    }
  }

  /** When no header is called `_idx_`, setting the index keeps every
      column and the de-duplicated records as they were, and the index
      holds every `set_index` value of the table, each once, in order of
      first occurrence. */
  lemma IndexedViewUsual(headers: seq<string>, records: seq<Record>, key: string)
    requires IndexLabel !in headers && key in headers
    requires forall i :: 0 <= i < |records| ==> records[i].Keys == HeaderSet(headers)
    ensures var v := IndexedView(headers, records, key);
      var kept := DedupFirst(records, key);
      && v.columns == headers
      && v.rows == kept
      && v.index == Some(ColumnValues(kept, key))
      && (forall i, j :: 0 <= i < j < |kept| ==> v.index.value[i] != v.index.value[j])
      && (forall k :: k in v.index.value <==> k in KeySet(records, key))
  {
    var kept := DedupFirst(records, key);
    DedupOnCopy(records, key);
    DedupFirstKeepsShape(records, key, HeaderSet(headers));
    DropCopy(kept, key);
    ValuesOfCopy(kept, key);
    IndexValues(records, key);
  }

  /** Moving the copy out again restores records that had no `_idx_`. */
  lemma DropCopy(rows: seq<Record>, key: string)
    requires forall i :: 0 <= i < |rows| ==> IndexLabel !in rows[i]
    ensures DropColumn(CopyColumn(rows, key, IndexLabel), IndexLabel) == rows
  {
    var d := DropColumn(CopyColumn(rows, key, IndexLabel), IndexLabel);
    forall i | 0 <= i < |rows| ensures d[i] == rows[i] {
      assert IndexLabel !in rows[i];
    }
  }

  lemma ValuesOfCopy(rows: seq<Record>, key: string)
    ensures ColumnValues(CopyColumn(rows, key, IndexLabel), IndexLabel) == ColumnValues(rows, key)
  {
  }

  /** The keys of the de-duplicated rows are distinct and are all the
      keys of the input. */
  lemma IndexValues(rows: seq<Record>, key: string)
    ensures var vs := ColumnValues(DedupFirst(rows, key), key);
      && (forall i, j :: 0 <= i < j < |vs| ==> vs[i] != vs[j])
      && (forall k :: k in vs <==> k in KeySet(rows, key))
  {
    var d := DedupFirst(rows, key);
    var vs := ColumnValues(d, key);
    DedupFirstKeys(rows, key);
    forall k ensures k in vs <==> k in KeySet(d, key) {
      if k in vs {
        var i :| 0 <= i < |vs| && vs[i] == k;
        assert KeyOf(d[i], key) == k;
      }
      if k in KeySet(d, key) {
        var i :| 0 <= i < |d| && KeyOf(d[i], key) == k;
        assert vs[i] == k;
      }
    }
  }

  /** A header literally named `_idx_` is overwritten by line 51 and moved
      into the index by line 54, so it leaves the frame. */
  lemma IndexLabelHeaderLeaves()
    ensures CreateDataframeSpec(["_idx_", "b", "--", "1", "2"], FrameOptions(None, Some("b")))
      == Ok(FrameView(["b"], [map["b" := "2"]], Some(["2"]), None))
  {
    var args := ["_idx_", "b", "--", "1", "2"];
    IndexLabelTable();
    IndexLabelView();
    assert Occurrences(["_idx_", "b"], "b") == 1 by {
      assert ["_idx_", "b"][..1] == ["_idx_"] && ["_idx_"][..0] == [];
    }
    IndexedSpec(args, "b", [map["_idx_" := "1", "b" := "2"]]);
  }

  /** With `set_index` naming a header that occurs once and no `to_dict`,
      the frame is the table with its index set. */
  lemma IndexedSpec(args: seq<string>, key: string, records: seq<Record>)
    requires TableRecords(args) == Ok(records) && key != ""
    requires Occurrences(SplitTable(args).value.headers, key) == 1
    ensures CreateDataframeSpec(args, FrameOptions(None, Some(key)))
      == Ok(IndexedView(SplitTable(args).value.headers, records, key))
  {
    assert NormaliseOptions(FrameOptions(None, Some(key))) == FrameOptions(None, Some(key));
  }

  /** Two headers and one row of two values. */
  lemma TwoColumnTable(h1: string, h2: string, v1: string, v2: string)
    requires h1 != Separator && h2 != Separator
    ensures var args := [h1, h2, Separator, v1, v2];
      && SplitTable(args) == Ok(Table([h1, h2], [[v1, v2]]))
      && TableRecords(args) == Ok([map[h1 := v1][h2 := v2]])
  {
    var args := [h1, h2, Separator, v1, v2];
    assert args[2..][1..] == args[3..];
    assert FirstIndex(args[2..], Separator) == Some(0);
    assert FirstIndex(args[1..], Separator) == Some(1) by { assert args[1..][1..] == args[2..]; }
    assert FirstIndex(args, Separator) == Some(2);
    SplitTableCases(args, 2);
    assert args[..2] == [h1, h2] && args[3..] == [v1, v2];
    assert Chunks([v1, v2], 2) == [[v1, v2]];
    var t := Table([h1, h2], [[v1, v2]]);
    var r := map[h1 := v1][h2 := v2];
    assert Zip([h1, h2], [v1, v2]) == r by {
      assert [h1, h2][..1] == [h1] && [v1, v2][..1] == [v1];
    }
    assert ToRecords(t) == [r] by {
      assert |ToRecords(t)| == 1 && ToRecords(t)[0] == r;
    }
  }

  lemma IndexLabelTable()
    ensures var args := ["_idx_", "b", "--", "1", "2"];
      && SplitTable(args).Ok? && SplitTable(args).value.headers == ["_idx_", "b"]
      && TableRecords(args) == Ok([map["_idx_" := "1", "b" := "2"]])
  {
    TwoColumnTable("_idx_", "b", "1", "2");
    assert map["_idx_" := "1"]["b" := "2"] == map["_idx_" := "1", "b" := "2"];
  }

  /** The table `a a -- 1 2` indexed on "a": line 51 raises before the
      bogus orientation is looked at. */
  lemma DuplicatedHeaderRaises()
    ensures CreateDataframeSpec(["a", "a", "--", "1", "2"], FrameOptions(Some("bogus"), Some("a")))
      == Err(AmbiguousColumn("a"))
  {
    TwoColumnTable("a", "a", "1", "2");
    assert Occurrences(["a", "a"], "a") == 2 by {
      assert ["a", "a"][..1] == ["a"] && ["a"][..0] == [];
    }
    var options := FrameOptions(Some("bogus"), Some("a"));
    assert NormaliseOptions(options) == options;
  }

  lemma IndexLabelView()
    ensures IndexedView(["_idx_", "b"], [map["_idx_" := "1", "b" := "2"]], "b")
      == FrameView(["b"], [map["b" := "2"]], Some(["2"]), None)
  {
    var r := map["_idx_" := "1", "b" := "2"];
    assert KeyOf(r, "b") == "2";
    var copy := map["_idx_" := "2", "b" := "2"];
    assert r[IndexLabel := "2"] == copy;
    var a := CopyColumn([r], "b", IndexLabel);
    assert a == [copy] by {
      assert |a| == 1 && a[0] == copy;
    }
    assert DedupFirst(a, IndexLabel) == a;
    assert Without(["_idx_", "b"], IndexLabel) == ["b"];
    assert copy - {IndexLabel} == map["b" := "2"];
    assert DropColumn(a, IndexLabel) == [map["b" := "2"]] by {
      assert |DropColumn(a, IndexLabel)| == 1;
    }
    assert ColumnValues(a, IndexLabel) == ["2"] by {
      assert KeyOf(copy, IndexLabel) == "2";
    }
  }

  /** The whole of `create_dataframe` (lines 25-57). */
  method CreateDataframe(args: seq<string>, toDict: Option<string>, setIndex: Option<string>)
    returns (res: Result<DataFrame, Error>)
    ensures res.Ok? <==> CreateDataframeSpec(args, FrameOptions(toDict, setIndex)).Ok?
    ensures res.Err? ==> res.error == CreateDataframeSpec(args, FrameOptions(toDict, setIndex)).error
    ensures res.Ok? ==>
      var df := res.value;
      && fresh(df) && df.Valid()
      && FrameView(df.columns, df.rows, df.index, df.orient)
         == CreateDataframeSpec(args, FrameOptions(toDict, setIndex)).value
  {
    var parsed := ParseTokens(args);
    if parsed.Err? {
      return Err(parsed.error);
    }
    var t := parsed.value;
    var df := new DataFrame(t.headers, ToRecords(t));
    var o := NormaliseOptions(FrameOptions(toDict, setIndex));
    if Given(o.setIndex) {
      var indexed := df.IndexOn(o.setIndex.value);
      if indexed.Err? {
        return Err(indexed.error);
      }
    }
    if Given(o.toDict) {
      if o.toDict.value !in PandasOrientations {
        return Err(UnknownOrientation(o.toDict.value));
      }
      df.orient := o.toDict;
    }
    res := Ok(df);
  }

  lemma WithoutAddedLabel(headers: seq<string>, name: string)
    ensures Without(headers + [name], name) == Without(headers, name)
  {
    assert (headers + [name])[..|headers|] == headers;
  }
}
