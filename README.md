# Robot Framework Examples library: a verified model

The Examples library turns a Robot Framework test into a template for
scenario outlines. A test that contains an `Examples:` pseudo-keyword is
replaced by one concrete test per row of its example table. The table's
arguments are `H1 .. Hn -- V1 .. Vk`. Before `--` are the column headers;
after it, the values are cut into rows of n. Each row is written into a
fresh keyword scope. The test name, the tags and every keyword call,
loop value and condition of the body (at every depth) are substituted
under that scope, and the `Examples:` call is dropped. The per-call
options `max_examples` and `random` decide which rows are used:
- without `random`, a prefix slice;
- with `random`, a `random.sample`.

The table is built by `create_dataframe` of the RoboPandas helper module.

The modules follow the program:

- `Common`: `Option`, `Result`, the exceptions that can escape, and ASCII lower-casing.
- `PyValues`: the Python values the options arrive as. It models truthiness, `int(...)` and `s[0:stop]`.
- `RoboPandas`: `create_dataframe`.
  - The shared token iterator is a class; the header loop and the row pulls are methods proved against the reference split `SplitTable`.
  - The frame is a class, whose in-place `drop_duplicates` is a method proved against `DedupFirst`.
  - The option normalisation of `to_dict`/`set_index` is a function.
- `Substitution`: `replace_scalar`/`replace_list` with `ignore_errors=True`.
- `RobotModel`: keyword calls, control structures, tests and suites. It also holds the stack of variable scopes (a class).
- `Cloning`: finding the `Examples:` call, and the recursive body copy.
- `Selection`: `random.sample` and the slice.
- `Options`: the constructor's conversions and the per-call overrides.
- `Expansion`: what expanding one template and one pass over a suite produce, stated as functions and predicates on values.
- `Docstring`: the example of the library's own documentation, expanded from end to end.
- `ExamplesLibrary`: the `Examples` class. Its methods change the suite and the scope stack in place, and each is proved against `Expansion`.

Behaviours of the code that the model keeps, as written:

- **The loop sees new tests.** The loop over the starting suite's tests iterates the same list that `tests.create` appends to. Generated tests are therefore visited too. `ExpandRootTests` proves the loop ends by a measure that each expansion strictly lowers (`ExpansionShrinks`). It proves the final list is closed: the originals, followed by the expansion of every template the list ever holds.
- **Line 134 always writes the starting suite.** It assigns the starting suite's list even while a child suite is being expanded. After a pass over a tree of suites, the starting suite holds the surviving tests of the suite visited last (`AfterPass`, `LastVisited`). A child suite's own list is never changed.
- **No cleanup on errors.** `end_keyword` is not in a `finally`. Every exception the model knows is raised before the scope is opened:
  - a missing `--`;
  - ragged rows, or no rows without exactly one header;
  - a bad sample size;
  - a string cap.

  So the scope stack is left as it was (`ExpandExampleTc`).
- **`random=True` caps at one.** With no cap, `random=True` means a cap of 1, because `int(True) == 1` (`RandomTrueMeansOne`).
- **String caps.** A string `max_examples` given to the constructor is converted with `int`. A falsy one is kept as given. Without `random`, a `""` cap then makes the slice raise TypeError.
- **Duplicate headers.** A header that occurs twice keeps the later column's value in a record. Setting the index on such a header raises at line 51, because `df[set_index]` then selects two columns, and it raises before an unknown orientation is looked at.
- **The `_idx_` column.** Line 51 copies the index column to `_idx_` and line 54 moves that copy into the index. A header that is itself called `_idx_` is overwritten by the copy and leaves the frame with it.
- **A pass that raises leaves partial work.** Nothing is rolled back when a test raises. If it is one of the starting suite's own tests, that suite keeps its original tests plus everything the templates before it appended. Line 134 has not run yet (`RootStuck`). If it is a test of a child suite, line 134 has already rewritten the starting suite's list. The list then holds that rewrite plus what the child's earlier templates appended (`TreeFails`, `SuitesFail`, `RootPassFails`).
- **The documented example.** The expansion the library's documentation shows (Examples.py:37-45) is what the code gives, except that the last message is rendered there without the "!" its table cell holds. The code keeps the cell as it is (`DocstringExample`).
- **Empty tables.** With no data after `--`, numpy builds an array of shape (0,), which pandas reads as one column. So only a single header gives an empty table; any other header count raises, and so does `--` with no header before it.

## Model

| member | source | states |
|---|---|---|
| Common.Lower | Examples.py:64 | `lower()` on ASCII: same length, each letter A-Z mapped to a-z, every other character kept |
| PyValues.ParseDecimal | Examples.py:65 | `int(s)` accepts exactly an optional '+' or '-' followed by at least one digit, and the sign of the result follows a leading '-' |
| PyValues.ParseDecimalValue | Examples.py:65 | a digit string reads as its decimal value, the same with a '+' in front or a leading zero, and negated with a '-' in front |
| PyValues.ShowNatValue | Examples.py:65 | the digits of `str(n)` read back as n |
| PyValues.ParseShowRoundTrip | Examples.py:65 | `int(str(i)) == i` for every integer |
| PyValues.PyInt | Examples.py:65 | `int(a)`: None raises TypeError, ints are themselves, bools are 0/1, and strings convert iff they parse, to the parsed value, else ValueError |
| PyValues.SliceEnd | Examples.py:152 | definition of the stop of `s[0:stop]`, never past the length; `Selection.PrefixSelection` states what it selects |
| Options.IntIfTruthy | Examples.py:65 | definition of `int(a) if a else fallback` in terms of `PyInt`; `Options.InitOptionsCapShaped` states what it stores |
| Options.InitOptions | Examples.py:64-66 | definition of the constructor's conversions; `ExamplesLibrary.Instantiate` and `Options.InitOptionsCapShaped` state what they promise |
| Options.AutoexpandString | Examples.py:64 | a string autoexpand stays truthy iff it is non-empty and, lower-cased, not one of false/no/off/f/0 |
| Options.NormaliseAutoexpandIdempotent | Examples.py:64 | normalising autoexpand twice equals normalising once |
| Options.InitOptionsCapShaped | Examples.py:65 | the stored cap is an int or the falsy value given, and a falsy value is kept unchanged |
| Options.ResolveCallOverrides | Examples.py:120-126 | the call cap wins when truthy; a truthy call `random` replaces the global one; with no call cap an int-like `random` becomes the cap, and otherwise the global cap stays; only a bad call cap raises |
| Options.RandomTrueMeansOne | Examples.py:122-124 | `random=True` with no cap selects one example |
| Selection.Sample | Examples.py:150 | `random.sample(pop, k)` raises iff k < 0 or k > len(pop), and otherwise returns k elements taken from k distinct positions |
| Selection.PickSubMultiset | Examples.py:150 | a sample takes each element at most as often as the population holds it |
| Selection.SampleIsPermutation | Examples.py:150 | a sample is a sub-multiset of the population, and a full-size sample is a permutation of it |
| Selection.SampleSize | Examples.py:150 | definition of `max_examples or len(records)`; `Selection.SelectionError` states when it is out of range |
| Selection.SliceStop | Examples.py:152 | definition of the slice stop Python reads from a cap: only a string raises TypeError |
| Selection.SelectionError | Examples.py:149-152 | lines 149-152 raise iff the sample size is out of range (with random) or the cap is a string (without) |
| Selection.SelectExamples | Examples.py:149-152 | the selection raises exactly as `SelectionError` says, and otherwise is a sample or the prefix slice |
| Selection.PrefixSelection | Examples.py:152 | without random: the selection is all records when there is no cap, none for 0/False, and otherwise the first min(cap, n) records in order (n + cap when the cap is negative) |
| Selection.SelectionWithinRecords | Examples.py:149-152 | every selection holds only records of the table, none more often than the table has it and no more than n; with random and no cap it is a permutation of the table |
| Substitution.ReplaceScalarEmptyScope | Examples.py:157 | with nothing bound, substitution leaves a text unchanged |
| Substitution.ReplaceListEmptyScope | Examples.py:142 | with nothing bound, substitution leaves a list unchanged |
| Substitution.ReplaceScalarPlainPrefix | Examples.py:172 | text without '$' passes through substitution untouched |
| Substitution.ReplaceScalarPlaceholder | Examples.py:157 | `${name}` becomes its bound value and stays literal when unbound |
| RobotModel.Variables.StartKeyword | Examples.py:79 | opens an empty frame on top of the scope stack |
| RobotModel.Variables.UpdateCurrent | Examples.py:156 | binds the given names in the top frame, overriding earlier bindings, and leaves the frames below alone |
| RobotModel.Variables.EndKeyword | Examples.py:163 | drops the top frame |
| Cloning.FirstExamplesIndex | Examples.py:139-147 | the first top-level item named `Examples:` in any case; control structures are skipped; none iff no item matches |
| Cloning.FindExamples | Examples.py:139-147 | a test is a template iff some top-level keyword is named `Examples:` |
| Cloning.FindExamplesKeyword | Examples.py:139-147 | the scan loop finds exactly the first `Examples:` call |
| Cloning.CloneBody | Examples.py:166-187 | the clone is never longer than the body, and strictly shorter when the body holds a top-level `Examples:` call |
| Cloning.CloneItem | Examples.py:168-187 | an `Examples:` call yields nothing; any other item yields exactly one copy of the same kind |
| Cloning.PopulateBody | Examples.py:166-187 | walking the body appends exactly its clone to the target |
| Cloning.CloneIsStripThenSubst | Examples.py:166-187 | cloning equals dropping every `Examples:` call at every depth, then substituting the fields of what remains |
| Cloning.SubstKeepsShape | Examples.py:172-186 | substitution keeps the items, their order, nesting, kinds, timeouts and line numbers |
| Cloning.SubstEmptyScope | Examples.py:172-186 | under an empty scope, substitution of a body is the identity |
| Cloning.StripLeavesNoExamples | Examples.py:169-171 | after the copy, no `Examples:` call is left at any depth |
| Cloning.CloneKeepsShape | Examples.py:166-187 | a clone has the shape of the stripped body under any scope, and is the stripped body under an empty scope |
| Cloning.PlainNameUnchanged | Examples.py:172 | a keyword name without '$' is copied as is |
| Cloning.CloneOfPlainNamesHasNoExamples | Examples.py:170-172 | when no top-level name holds '$', the clone is not a template |
| RoboPandas.FirstIndex | RoboPandas.py:41-44 | the first "--": none iff absent, and no "--" before it |
| RoboPandas.ToRecords | RoboPandas.py:46 | one record per row, each keyed by exactly the header set |
| RoboPandas.TableRecords | RoboPandas.py:41-46 | the records exist iff the split succeeds, and then they are the records of a well-shaped table |
| RoboPandas.ChunksFlatten | RoboPandas.py:45 | concatenating the pulled rows gives back the data tokens in order |
| RoboPandas.ChunksShape | RoboPandas.py:45 | every row but the last has h tokens, and the last has h or D mod h |
| RoboPandas.ZeroHeadersRaise | RoboPandas.py:43-46 | with "--" first, no row is pulled and the frame raises, whatever follows |
| RoboPandas.NoDataRows | RoboPandas.py:43-46 | with nothing after "--", one header gives an empty table and any other count raises |
| RoboPandas.SplitTableWellShaped | RoboPandas.py:45-46 | a table that is built has every row as wide as the header |
| RoboPandas.SplitTableSpec | RoboPandas.py:41-46 | the headers are the tokens before the first "--", which is consumed, and the data follows in row-major order with D/H rows; StopIteration iff there is no "--"; ragged iff a non-zero H does not divide D; EmptyRows iff H or D is zero and H is not 1 |
| RoboPandas.ChunkAt | RoboPandas.py:45 | token j of row i is data token i*H + j |
| RoboPandas.RecordsHoldTheirRow | RoboPandas.py:41-46 | with distinct headers, record i maps header j to argument H + 1 + i*H + j |
| RoboPandas.TokenIterator.Next | RoboPandas.py:43 | `next(source)` yields the token at the cursor and advances, or stops at the end |
| RoboPandas.TokenIterator.Take | RoboPandas.py:45 | `islice(source, n)` yields the next min(n, remaining) tokens and advances past them |
| RoboPandas.LastChunk | RoboPandas.py:45-46 | h divides the data count iff the last chunk is full, and then every chunk is full |
| RoboPandas.LastChunkDecides | RoboPandas.py:45-46 | a short last chunk makes the frame fail, so does an empty pull without exactly one header, and otherwise the pulled rows form the table |
| RoboPandas.PullRows | RoboPandas.py:45 | pulling until an empty chunk yields exactly the reference chunks of the remaining tokens |
| RoboPandas.ParseTokens | RoboPandas.py:41-46 | the header loop and the row pulls produce exactly `SplitTable(args)` (errors included), and the table is well shaped |
| RoboPandas.NormaliseOptionsSettles | RoboPandas.py:47-49 | after normalisation the orientation is absent or known unless `set_index` was given; a second pass changes nothing; a given `to_dict` is kept or becomes the index |
| RoboPandas.DedupFirstKeys | RoboPandas.py:53 | the surviving keys are pairwise distinct, and every key of the input survives |
| RoboPandas.DedupFirstKeepsFirstOccurrences | RoboPandas.py:53 | a row survives iff no earlier row has its key (keep='first') |
| RoboPandas.DedupFirstOfDistinct | RoboPandas.py:53 | rows whose keys are already distinct all survive, in order |
| RoboPandas.DedupFirstKeepsOrder | RoboPandas.py:53 | the survivors are the input read at strictly increasing positions, each the first with its key, so their order is kept |
| RoboPandas.DedupFirstIdempotent | RoboPandas.py:53 | dropping duplicates twice equals once |
| RoboPandas.DedupFirstKeepsShape | RoboPandas.py:53 | surviving rows keep the frame's columns |
| RoboPandas.DataFrame.constructor | RoboPandas.py:46 | the frame holds the headers as columns and the records as rows, with no index and no orientation |
| RoboPandas.DataFrame.DropDuplicates | RoboPandas.py:53 | in place, the rows become the keep-first de-duplication of the old rows, and the frame stays well formed |
| RoboPandas.DataFrame.AssignColumn | RoboPandas.py:51 | `df[target] = df[source]`: a missing source raises KeyError, a source header occurring twice raises, and either error leaves the frame as it was; otherwise the target column is added (or overwritten) with the source's values, row by row |
| RoboPandas.DataFrame.SetIndex | RoboPandas.py:54 | a missing column raises and changes nothing; otherwise its values, row by row, become the index and the column leaves the headers and every record |
| RoboPandas.DataFrame.IndexOn | RoboPandas.py:50-54 | the missing-column and duplicated-column errors of line 51; with a header occurring once, the frame becomes the copied, de-duplicated and indexed table |
| RoboPandas.CreateDataframe | RoboPandas.py:25-57 | succeeds iff the split succeeds, the index column (when set) occurs exactly once and pandas knows the orientation, raising in that order; the fresh frame then holds the headers, records and index that lines 50-54 produce, and the orientation |
| RoboPandas.DuplicatedIndexRaises | RoboPandas.py:50-51 | a `set_index` header occurring more than once raises at line 51, whatever the orientation |
| RoboPandas.DuplicatedHeaderRaises | RoboPandas.py:50-51 | `a a -- 1 2` indexed on "a" raises at line 51, before a bogus orientation is reached |
| RoboPandas.DedupOnCopy | RoboPandas.py:51-53 | de-duplicating on the `_idx_` copy is de-duplicating on the `set_index` column |
| RoboPandas.IndexedViewUsual | RoboPandas.py:50-54 | with no `_idx_` header, the frame keeps every column and the keep-first records, and the index holds each `set_index` value of the table exactly once |
| RoboPandas.IndexValues | RoboPandas.py:53-54 | the index values are pairwise distinct and are all the keys of the table |
| RoboPandas.DropCopy | RoboPandas.py:51-54 | moving the `_idx_` copy out restores records that had no `_idx_` column |
| RoboPandas.IndexLabelHeaderLeaves | RoboPandas.py:50-54 | `_idx_ b -- 1 2` indexed on "b" leaves the single column b with value 2 and the index ["2"]: the `_idx_` header is overwritten and moved out |
| RoboPandas.IndexedSpec | RoboPandas.py:47-54 | with `set_index` naming a header that occurs once and no `to_dict`, the result is the indexed table |
| RoboPandas.OrientationRejectedOnlyWithIndex | RoboPandas.py:47-56 | an unknown orientation raises iff the table builds, `set_index` names a header occurring exactly once (so line 51 succeeds) and `to_dict` is not an orientation pandas accepts |
| Expansion.RowIsolation | Examples.py:155-156 | rows with the same headers overwrite each other completely, so each row sees the outer scope plus its own values only |
| Expansion.NonTemplates | Examples.py:131-133 | the kept tests hold no template and are never more than the input |
| Expansion.NonTemplatesAppend | Examples.py:131-133 | keeping the non-templates distributes over concatenation |
| Expansion.NonTemplatesOfPlain | Examples.py:131-133 | a list without templates is kept whole |
| Expansion.GenerateAllOfPlain | Examples.py:157-161 | a template with plain top-level names generates no template |
| Expansion.PlainClosure | Examples.py:131-134 | when generated tests are not templates, the pass leaves the original non-templates in order, followed by each original template's generated tests in template order |
| Expansion.AfterPassOfTree | Examples.py:134-136 | a pass over a subtree leaves the non-templates of the suite it visits last |
| Expansion.TreeExpandsParts | Examples.py:135-136 | a tree expands iff its own tests and every suite below it do |
| Expansion.SuitesExpandFails | Examples.py:135-136 | one failing child suite fails the whole pass |
| Expansion.NoErrorsFails | Examples.py:131-133 | one failing test fails its suite's pass |
| Expansion.LiveStart | Examples.py:130-131 | before the loop: nothing visited, nothing kept, the list is the original |
| Expansion.LiveStepKeep | Examples.py:132-133 | visiting a non-template keeps it, leaves the list as is and lowers the remaining measure |
| Expansion.LiveStepTemplate | Examples.py:132 | visiting a template appends its generated tests, keeps nothing and lowers the remaining measure |
| Expansion.LiveEnd | Examples.py:131-134 | at the end of the list, the list is the original plus the expansion of every template it holds, and the kept tests are its non-templates |
| Expansion.AppendedKeep | Examples.py:131-133 | visiting a non-template of a suite leaves the starting suite's list as it is |
| Expansion.AppendedTemplate | Examples.py:131-133 | visiting a template of a suite appends its generated tests to the starting suite's list |
| Expansion.TreeFailsRaises | Examples.py:129-136 | a pass described as failing is over a tree that does not expand |
| Expansion.ExpansionShrinks | Examples.py:155-161 | the tests a template generates measure strictly less in total than the template |
| ExamplesLibrary.Instantiate | Examples.py:51-66 | construction raises iff `int(max_examples)` does; otherwise it yields a fresh library with the converted options and no suite |
| ExamplesLibrary.Examples.constructor | Examples.py:62-66 | stores the converted options, with no suite yet |
| ExamplesLibrary.Examples.AttachSuite | Examples.py:70 | the suite being started becomes the current suite |
| ExamplesLibrary.Examples.LocaliseScope | Examples.py:74-87 | opens one frame on the scope stack, holding a copy of the outer scope |
| ExamplesLibrary.Examples.ResolveOptions | Examples.py:120-126 | the call's cap and random are exactly `ResolveCall`'s, and a bad call cap raises without changing them |
| ExamplesLibrary.Examples.ExpandTestExamples | Examples.py:94-127 | after resolving the options: a missing suite raises; otherwise, on success, the starting suite's list was a closed expansion of its tests, every child suite expands, the suite ends with what the last-visited suite's pass left (no template), and the scope stack is unchanged; on an error the list is as `RootPassFails` describes, and a bad option leaves it untouched |
| ExamplesLibrary.Examples.ExpandRootSuite | Examples.py:129-136 | the pass over the starting suite: its closed live list, then each child suite in turn, leaving `AfterPass` in the starting suite; on an error, either the live list as far as the loop got or a child's failure state (`RootPassFails`) |
| ExamplesLibrary.Examples.ExpandChildSuite | Examples.py:129-136 | the pass over a child suite succeeds iff every test in its subtree expands, and leaves the non-templates of its last visited suite in the starting suite; on an error, the list is as `TreeFails` describes |
| ExamplesLibrary.Examples.ExpandSuites | Examples.py:135-136 | the recursion over child suites succeeds iff all of them expand, stopping at the first failure, which leaves the list as `SuitesFail` describes |
| ExamplesLibrary.Examples.ExpandRootTests | Examples.py:130-133 | the loop ends; on success, the live list is the original closed under expansion and the result is its non-templates; on an error, the list is the original plus the expansions of the templates before the raising test |
| ExamplesLibrary.Examples.VisitRootTest | Examples.py:131-133 | one visit keeps the loop invariant and lowers the measure, or raises the test's own error with the list unchanged |
| ExamplesLibrary.Examples.ExpandChildTests | Examples.py:130-133 | the loop over a child suite succeeds iff none of its tests raises and keeps its non-templates; on an error, the starting suite's list has grown by the expansions of the templates before the raising test |
| ExamplesLibrary.Examples.VisitChildTest | Examples.py:131-133 | one visit of a child suite's test extends the kept tests and the starting suite's list, or raises the test's own error with the list unchanged |
| ExamplesLibrary.Examples.ExpandExampleTc | Examples.py:138-164 | returns False iff the test is no template; raises exactly `ExpansionError`; on success, appends one generated test per selected row to the starting suite and leaves the scope stack as it was |
| ExamplesLibrary.Examples.GenerateRows | Examples.py:154-163 | one test per row, in order, each substituted under the outer scope plus that row, with the opened frame closed at the end |
| ExamplesLibrary.ExampleRecords | Examples.py:148 | `create_dataframe(*args).to_dict('records')` is the table's records, each keyed by the header set |
| Docstring.DocstringExample | Examples.py:18-45 | the documented template, under any outer scope with no cap and no `random`: it is a template, raises nothing, selects exactly its three rows in table order, and generates exactly the three documented tests, "My test with examples for Joe" logging "Hello Joe, welcome to the world!" and so on for Arthur and Patsy; the last message keeps its "!" |
| Docstring.DocstringGenerateAll | Examples.py:37-45 | the three generated tests, in table order, each with its row's name and its substituted `Log` message |
| Docstring.DocstringGenerate | Examples.py:26-28 | one row of the table: the test's name and the `Log` message take the row's two values, `console=True` is kept, and the `Examples:` call is dropped |
| Docstring.DocstringTestIsPlain | Examples.py:37-45 | the generated tests hold no `Examples:` call, so they are not templates again |
| Docstring.DocstringTableOf | Examples.py:28-31 | line 148 reads the documented table as its three records in table order |
| Docstring.DocstringTable | Examples.py:28-31 | `create_dataframe(*args).to_dict('records')` of the documented arguments is the three records of name and where welcome |
| Docstring.DocstringTableUnchanged | Examples.py:28-31 | no cell of the documented table holds a placeholder, so line 142 leaves its arguments as they are |
| Docstring.DocstringSelection | Examples.py:149-152 | with no cap and no `random`, the only selection of the documented table is all three records in order |
| Docstring.TwoByThree | RoboPandas.py:41-46 | two headers, "--" and six values give three records, each mapping the two headers to its row's two values |
| Docstring.GenerateTwoPlaceholders | Examples.py:154-163 | a template of one call and its `Examples:` call generates a test whose name and whose call's first argument have their placeholders replaced by the scope's values, with the rest of the call kept and the `Examples:` call dropped |

## Left out

- Listener wiring of `_start_suite` (Examples.py:71-72): the autoexpand dispatch is not modelled. It calls `expand_test_examples` with no arguments, which `ExpandTestExamples` covers. Only line 70 is modelled, as `AttachSuite`.
- The `examples` keyword (Examples.py:89-92) only calls `BuiltIn().fail`, so it is not modelled.
- The execution context (`EXECUTION_CONTEXTS`, `BuiltIn()._variables`) becomes the `Variables` object the library holds.
- Robot Framework's `@{list}`/`&{dict}` variables, item access and nested variables are left out: substitution is `${name}` over a string map.
- Variable-name normalisation (case, spaces, underscores) is left out.
- Robot Framework's deep copy and its model objects (`tests.create`, `create_keyword`, `deepcopy`) are records. A generated test gets the defaults of `tests.create`, so documentation and timeout are not copied.
- Tag normalisation is left out.
- `Common.Lower` handles ASCII only; Python's full Unicode `lower()` is left out.
- `PyValues.PyInt`: `int(...)` on strings does not model surrounding whitespace, digit-group underscores or non-ASCII digits. Float arguments are left out: only None, bool, int and str are modelled.
- `Selection.Sample`: the random distribution of `random.sample` is not modelled. The model only states which outcomes are possible.
- pandas internals are modelled only through the records view. `to_dict` orientations other than 'records' are recorded on the frame but not computed, and the index is kept as its sequence of values. Line 54 rebinds `df` to the new frame `set_index` returns; the model changes the one frame in place, which no caller can tell apart. The accepted orientations are those of pandas 2, 'tight' included; the abbreviations older pandas accepted are left out.
- The ValueErrors numpy and pandas raise for ragged rows, for an empty table and for a duplicated index column are the error values `RaggedRows`, `EmptyRows` and `AmbiguousColumn`, and the KeyError of a missing index column is `MissingColumn`; their messages are left out.
- RoboPandas.CreateDataframe: when the `set_index` header is itself `_idx_` and occurs twice, pandas assigns the two-column selection to the two `_idx_` columns, and what lines 53-54 then do with the duplicated label is not modelled; the model raises `AmbiguousColumn` there. Likewise a table with two `_idx_` headers indexed on another column is modelled as if it had one.
- The database and spreadsheet functions of RoboPandas are not part of this model.
- `RobotModel.Variables.StartKeyword` opens an empty frame, where Robot Framework's `start_keyword` pushes a copy of the suite's scope. Line 85 then copies the outer scope into the new frame. Inside a test the outer scope already holds every suite variable, so `LocaliseScope` ends in the same state either way.
