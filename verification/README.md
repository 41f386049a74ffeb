# foldout: a verified model of the three-way database diff

foldout branches a PostgreSQL database by copying its files, lets MAIN and BRANCH change
independently, and later computes a three-way diff against BASE, the snapshot kept from branch
time. Only pages whose LSN moved are read, rows are merged by primary key or as multisets, schemas
are merged object by object and column by column, and the result is an ordered SQL script. This
project models those layers in Dafny, connects them, and proves what they promise.

Main results:

* **End to end** (`EndToEnd`). For every run of the branch command interleaved with any client
  writes, page flushes and file growth on MAIN and BRANCH, the diff that reads only the blocks
  returned by the stat and LSN filters is the merge of the *whole* tables: a conflict is reported
  iff some key anywhere was changed on both sides to different results. Otherwise the emitted
  statements run *if and only if* no row that BRANCH inserts or updates takes a UNIQUE value still
  held when it is written, and leave BRANCH's row where BRANCH changed it and MAIN's row everywhere
  else. The same is proved for tables without a key as multisets, for the drift reports, and, when
  MAIN did not move, for the two-way diff against the naive whole-table diff.
* **The whole diff** (`CrossDiff`). One script: schema changes, rows, then drops and sequence
  positions. A conflict is reported iff something anywhere was changed irreconcilably, and then
  nothing is written; otherwise each table gets exactly its own statements, which leave its merge.
* **DDL** (`DdlTheorem`, `DdlIff`, `SchemaClosed`, `DdlDrift`, `DdlAgain`). For any two
  referentially closed schemas and any listing order, the generated script runs without error and reaches its target *if and
  only if* a condition on the two schemas holds that can be checked before generating. The merge of
  closed schemas is closed if and only if a condition on the three inputs holds. No statement
  touches what BRANCH left as in BASE or what is in conflict. Diffing again after apply writes
  nothing, and conflicts exactly when a column or sequence was changed both in what is altered and in what never is.
* **Schema merge** (`SchemaEntries`). At every key the merge holds BRANCH's entry where MAIN left
  BASE's and MAIN's otherwise; a conflict is reported exactly where both changed it differently.
* **Reports** (`SchemaMerge`, `SchemaDrift`). Everything MAIN changed is reported as drift or as a
  conflict, except exactly primary keys that only MAIN changed on tables that BRANCH changed too.
* **Lock** (`Lock`). The lock protects its body in every run iff at most one foldout process uses it;
  with force a process can always get in, and from wherever it is it can get out.
* **Scheduler** (`Lpt`). The 4/3 - 1/(3k) bound of the longest-processing-time partitioner.
* **Chunk state** (`Chunks`). The incremental XOR index equals the recomputed aggregate after any
  run under its trigger, and exactly when it still does under the trigger that bootstrap leaves.

## Modules

| module | content |
|---|---|
| `Types`, `Heap` | values, rows, keys; heap files as pages of slots |
| `PageFormat` | LSN text, page headers, line pointers, segment scans, stat filter |
| `BranchProtocol` | the branch command as a state machine over buffered and on-disk pages, file times, one LSN counter |
| `Candidates` | page images, fetching rows by line pointer, and candidate keys |
| `RowMerge`, `NoPkMerge` | the three-way row merges and the meaning of the emitted DML |
| `TwoWay` | the two-way diff of changed pages against the whole-table diff |
| `EndToEnd` | the layers above put together, over every run |
| `NoPkAdded` | the two-way diff of a table without a key that has gained columns |
| `Catalog`, `SchemaMerge`, `SchemaLaws`, `SchemaDrift`, `SchemaEntries` | schema dumps under structured names, their three-way merge, its laws, its drift report, and the merge key by key |
| `Ddl`, `DdlProof`, `DdlRun`, `DdlTables`, `DdlTheorem` | the DDL generator as 22 loops, a catalog that executes its statements, and convergence |
| `DdlSound` | what every statement keeps true of the catalog |
| `SchemaClosed` | when the merge of referentially closed schemas is closed |
| `DdlLimits`, `DdlKinds`, `DdlSequences`, `DdlBounds`, `DdlIff` | the converse: what a script that reaches its target must meet |
| `DdlExamples` | small schema pairs for which the script fails or the next diff conflicts |
| `DdlDrift`, `DdlAgain` | the three-way schema diff: drift, apply, diff again |
| `CrossDiff` | schemas and all tables in one diff and one script |
| `Quoting`, `Setval` | literals, identifiers and the relation name inside setval(), and lexers that read them back |
| `Lock`, `Chunks`, `Lpt` | database lock, chunk state, table scheduler |

Code that loops and mutates in the source is a method with loops here, proved against a
specification function; the lemmas are about that function. `sorted(...)` and the iteration order
of sets are modelled by an arbitrary listing parameter, so every result holds for all orders.

## What the source relies on

These stand as explicit preconditions of the theorems; the one on equality is built into the model.

* No relation file shrinks below its branch-time length and none is rewritten (`Tracked`,
  `TailSurvives`); over runs of the protocol model this is proved. `CandidatesCompleteIff` gives
  the exact condition otherwise.
* Nobody writes BRANCH before its index is taken; MAIN is not written while locked
  (`BranchProtocol.Writable`). Nobody writes MAIN or BRANCH while the diff reads them: the diff takes
  no lock, and in the model a run ends with the checkpoint before it.
* In row merges MAIN and BASE have the same columns, BRANCH has those and added ones, and the
  defaults of added columns are constants (`RowMerge.Shaped`). Without a key, all rows of a side
  have its columns (`EndToEnd.ColumnsOk`, `NoPkMerge.InColumns`).
* Every write of a file to disk gives it a modification time later than any earlier stat.
* Keys and rows are compared in PostgreSQL's text form, while the statements find rows by the `=` of
  the column type. The model has one equality, so it takes the two to agree. They do not for types
  that have several texts for one value (numeric 1.0 and 1.00) or no `=` at all (json).
* Schema dumps are referentially closed (`DdlProof.Closed`), and DDL is cascade-free except for
  what PostgreSQL drops together with a column, a table or a materialized view. For the three-way
  diff the merge must be closed too, which `SchemaClosed.MergedClosedIff` turns into a condition on
  BASE, MAIN and BRANCH.

## Findings

Where the code does not do what its documentation or the surrounding code expects, the code is
modelled as it is, the failing case is a lemma, and the exact condition is proved.

* Dropping a column happens before the DML and takes its indexes and constraints with it; the
  later DROP INDEX or DROP CONSTRAINT then fails. DROP NOT NULL and DROP COLUMN run before the
  old primary key is dropped, so a key that loses a column or its NOT NULL cannot be changed
  (`src/foldout/page_diff.py:411-421`). `DdlIff.ScriptConvergesIff` has the condition for this and
  the next five findings; `DdlExamples.KeyColumnGoesFails` and `IndexedColumnGoesFails` are concrete schemas.
* An index on a new materialized view is created before the view (`src/foldout/page_diff.py:423-428`
  against 481-486): `DdlExamples.IndexedMatviewComesFails`.
* The sequence of a new identity column is created by hand, and the column then brings a second one
  under another name; the setval goes to the first (`src/foldout/page_diff.py:298-300`, 352-363):
  `DdlExamples.IdentityColumnComesFails`.
* Identity is never altered. So a column that is to lose it keeps its sequence, which then cannot be
  dropped (`src/foldout/page_diff.py:541-546`), and refuses a default, DROP NOT NULL and any type
  but an integer one (`src/foldout/page_diff.py:392-409`): `DdlExamples.IdentityGoesFails`,
  `IdentityBecomesSerialFails`.
* setval() names its sequence inside a text literal without quoting, so a name that is not a plain
  lower-case word is folded, split, or ends the literal (`src/foldout/page_diff.py:529-539`):
  `Setval.ReadsBackIff`, `DdlExamples.MixedCaseIsSetFails`. All other DDL doubles quotes in names.
* An existing sequence is set to the target's last value or start while its own bounds stay as they
  are, so the call is refused when the target's sequence was widened and went past them. The type
  change of an identity column does move the bounds, or fails when the position is outside the new
  ones (`src/foldout/page_diff.py:521-539`): `DdlExamples.SetPastTheEndFails`,
  `DdlBounds.SetValsMustFit`, `RetypesMustFit`; both are in the condition of `DdlIff.ScriptConvergesIff`.
* Existing indexes, materialized views, identity columns and sequence parameters are never altered;
  `DdlTheorem.TargetIsTgtIff` says exactly when the script reaches the target all the same. When
  such a change comes with one that is altered, the diff after apply reports a conflict:
  `DdlAgain.AgainConflictsIff`, `DdlExamples.SequenceChangesConflictAgain`.
* The three-way merge of schemas checks each object for itself. What one side adds or changes may
  refer to what only the other side drops, one name may come to stand for two kinds of relation,
  and a new key may be on a column that the other side made nullable. No conflict is reported then,
  and the merge is no schema that a database can have (`src/foldout/page_diff.py:632-747`):
  `SchemaClosed.MergedClosedIff`, `DdlExamples.ReferenceAndDropDangles`.
* The row merge and the two-way page diff write INSERTs before UPDATEs and DELETEs. A row that takes
  over a UNIQUE value from a row deleted or changed later in the script fails
  (`src/foldout/page_diff.py:2210-2277`), where the naive diff, which deletes first, may run:
  `RowMerge.MovedValueFails`, `RowMerge.MergeExact`, `TwoWay.NaiveDiffConverges`. On a table without a
  key an update is an INSERT and a DELETE and fails whenever it keeps a UNIQUE value:
  `NoPkMerge.InsertsFitIff`; in the two-way diff with added columns a row on a changed page need not even be updated:
  `NoPkAdded.ReinsertedRowCollides`.
* Where a table is merged column by column, its primary key is left out of the drift report: a key
  that only MAIN changed, on a table that BRANCH changed elsewhere, is in neither list
  (`src/foldout/page_diff.py:608-624`): `SchemaDrift.MainIsToldIff`, `KeyChangeIsQuiet`.
* Only blocks of the changed side's own file are scanned, so keys that BASE stored past the end of
  a truncated file are never read: `Candidates.CandidatesCompleteIff`, `TruncationLosesADelete`.
* DML pastes identifiers between quotes without doubling them (`src/foldout/page_diff.py:2040-2047`):
  `Quoting.PastedIdentifierReadsBack` holds iff the name contains no quote.
* The three-way diff of a table without a key writes nothing when BRANCH added columns
  (`src/foldout/page_diff.py:1877-1887`); the two-way diff has no such guard. Its rows then never
  cancel, and a delete by the common columns may take a row just inserted
  (`src/foldout/page_diff.py:1418-1475`): `NoPkAdded.AddedColumnsConvergeIff`, `AddedValueMayBeLost`.
* Bootstrap installs the chunk trigger and then replaces it by the row-hash trigger, so the chunk
  state stops following the table (`db_hash.py:390-391`): `Chunks.ReplacedTriggerAgreesIff`,
  `InsertAfterBootstrapDisagrees`. Chunks emptied before a second bootstrap keep a stale entry:
  `Chunks.BootstrapAgreesIff`.
* The lock's documentation calls it exclusive, but a second foldout process can enter and, on its
  way out, allow connections while the first is in its body: `Lock.LockHoldsIff`.
* The same documentation lists a CHECKPOINT among the lock's steps; the code leaves it to the
  caller (`src/foldout/db.py:429-433`), and the model follows the code.
* Without a primary key, two different updates of one row are no conflict and both results stay, the
  limit that the source warns of (`src/foldout/page_diff.py:1900-1912`): `NoPkMerge.ParallelUpdateKeepsBoth`.

## Model

| member | source | states |
|---|---|---|
| `EndToEnd.BranchedMergeIsExact` | src/foldout/page_diff.py:2065-2277 | over every run, the merge that fetches only changed blocks reports a conflict iff some key of the whole tables was changed on both sides to different results; otherwise its statements run on MAIN (with the added columns) iff no row that BRANCH inserts or updates takes a UNIQUE value that another row holds when it is written, and then leave the declarative merge at every key |
| `EndToEnd.BranchedDriftIsExact` | src/foldout/page_diff.py:2171-2180 | over every run, the reported row drift is exactly the keys that only MAIN changed, anywhere in the table, each with whether the row came, changed or went |
| `EndToEnd.BranchedConflictsAreExact` | src/foldout/page_diff.py:2189-2207 | over every run, the reported row conflicts are exactly the keys that both sides changed to different results, each with what became of the row on BRANCH and on MAIN |
| `EndToEnd.BranchedMultisetMergeIsExact` | src/foldout/page_diff.py:1914-2057 | over every run, with columns added on BRANCH nothing is reported or written, and nothing is written when some row of the whole tables was added on one side and removed on the other; otherwise the multiset merge from changed blocks conflicts iff there is such a row, and without conflict every delete finds its row, every count changes by the larger delta, and the inserts run under UNIQUE constraints iff no row the merge adds collides with a row of MAIN or another added one |
| `EndToEnd.BranchedMultisetDriftIsExact` | src/foldout/page_diff.py:1978-1995 | over every run, the drift entries of a table without a key are exactly the rows whose count only MAIN changed, with the whole-table change; none when the table is skipped |
| `EndToEnd.BranchedDiffIsNaiveDiff` | src/foldout/page_diff.py:1400-1586 | over every run in which MAIN's file is still BASE's, the page diff writes what it would write from the whole tables; without added columns these are the statements of the naive delete-first diff; each of the two turns MAIN into BRANCH iff in its own order of operations no UNIQUE value is taken when it is written |
| `CrossDiff.CrossDiff3Way` | src/foldout/page_diff.py:1717-2290 | schema conflicts end the diff before rows are compared; any conflict leaves the script empty; otherwise it is the schema statements that go before, all rows, and the schema statements that go after |
| `CrossDiff.ConflictAnywhere` | src/foldout/page_diff.py:1717-2290 | a conflict is reported iff the schemas are in conflict or some table was changed on both sides in a way that cannot be merged |
| `CrossDiff.ScriptMergesEveryTable` | src/foldout/page_diff.py:2210-2290 | of a conflict-free script each table with a key gets exactly its own statements, which run on MAIN iff its UNIQUE values are free and leave its merge |
| `EndToEnd.ScanFindsEveryChange` | src/foldout/page_diff.py:852-938 | over every run, outside the blocks the stat-filtered segment scan returns a side shows exactly BASE's rows, the side is no shorter than BASE, and the scan names only existing blocks |
| `EndToEnd.ScannedIff` | src/foldout/page_diff.py:894-938 | a block is returned iff it exists, its page is newer than the snapshot and its segment file is not skipped by stat |
| `EndToEnd.FilesAreTheHeap` | src/foldout/page_diff.py:1257-1264 | the page at the file and offset computed from a block number is the image of the relation's page of that number |
| `EndToEnd.FilteredScanIsPlainScan` | src/foldout/page_diff.py:914-938 | over every run the stat-filtered scan returns the same blocks as the scan of every file |
| `EndToEnd.EveryTouchedKeyIsCandidate` | src/foldout/page_diff.py:2065-2090 | every key BRANCH or MAIN changed, added columns included, is fetched from a changed block of that side or of BASE |
| `EndToEnd.CandidatesComplete` | src/foldout/page_diff.py:2074-2090 | over every run the collected candidate keys contain every key changed on either side |
| `EndToEnd.CountersFaithful` | src/foldout/page_diff.py:1914-1976 | over every run the four counters taken on changed blocks give the whole-table deltas of every row |
| `BranchProtocol.FilterComplete` | src/foldout/cli.py:182-268 | over every run, a block whose rows differ from BASE's is newer than the snapshot and in a file the stat filter does not skip, although the parent index is taken before the lock |
| `BranchProtocol.SkippedFilesAreOld` | src/foldout/page_diff.py:914-938 | over every run a skipped file holds no page newer than the snapshot, so the stat filter loses nothing |
| `BranchProtocol.NothingShrinks` | src/foldout/cli.py:182-268 | over every run both sides keep every relation of BASE at its branch-time length or longer |
| `BranchProtocol.StepKeepsInv` | src/foldout/cli.py:182-268 | every step of the command and of clients, flushes and checkpoints keeps the invariant |
| `BranchProtocol.RunKeepsInv` | src/foldout/cli.py:182-268 | every reachable state satisfies the invariant |
| `BranchProtocol.CommandCompletes` | src/foldout/cli.py:182-268 | from any point of any run the command's remaining steps can run to a state that can be diffed |
| `BranchProtocol.LsnReadEstablishes` | src/foldout/page_diff.py:852-893 | reading the LSN for the branch index while MAIN is locked makes both filters safe on both sides |
| `BranchProtocol.CheckpointKeeps` | src/foldout/page_diff.py:852-866 | a checkpoint at any time keeps the invariant and leaves no dirty page |
| `BranchProtocol.WrittenRowsReachTheDiff` | src/foldout/cli.py:182-268 | whatever a client writes to any page of either side after branching, the run goes on to a diff that finds those rows on that page, newer than the snapshot, and every other page as it was |
| `BranchProtocol.CopiesAreMain` | src/foldout/cli.py:182-268 | the steps from lock to copies always run, and both copies hold every page of MAIN as it was buffered when the lock was taken |
| `BranchProtocol.LockedMainIsStill` | src/foldout/cli.py:182-268 | while MAIN is locked no step changes what its pages hold |
| `BranchProtocol.WhoMayWrite` | src/foldout/cli.py:182-268 | pages are written exactly before the lock and after it on MAIN, and on BRANCH once its index is taken |
| `BranchProtocol.ExtendShows` | src/foldout/cli.py:182-268 | a file that is extended gains one empty page, and no other page changes |
| `BranchProtocol.BackgroundNeverStops` | src/foldout/cli.py:182-268 | lock or no lock, a page is written back exactly when it differs on disk, and then is on disk as buffered |
| `BranchProtocol.SkippedIff` | src/foldout/page_diff.py:926-931 | a file is skipped iff its index entry has its size in bytes and its modification time |
| `BranchProtocol.IndexedIsSkipped` | src/foldout/page_diff.py:926-931 | a file is skipped from the moment it is indexed |
| `Candidates.CollectKeys` | src/foldout/page_diff.py:2065-2072 | the key set fetched through the line pointers of the page images is exactly the keys of the rows that the given blocks show |
| `Candidates.CollectCandidates` | src/foldout/page_diff.py:2074-2090 | the candidates fetched from the files are the keys on the changed blocks of each side and of BASE, nothing else |
| `Candidates.FetchBlock` | src/foldout/page_diff.py:1257-1281 | reading a page image and fetching the listed ctids returns every row the page shows, once, in slot order |
| `Candidates.DifferingKeyIsCandidate` | src/foldout/page_diff.py:2065-2090 | a key that differs between a side and BASE is a candidate, also when its row was deleted or moved to another page |
| `Candidates.CandidatesCompleteIff` | src/foldout/page_diff.py:2076-2090 | every differing key is a candidate iff each key in BASE's tail past the end of the side's file still exists on the side |
| `Candidates.TruncationLosesADelete` | src/foldout/page_diff.py:2076-2082 | a concrete truncated file whose deleted row goes unseen |
| `RowMerge.MergeTable` | src/foldout/page_diff.py:2127-2277 | conflicts and drifts with their operations, and statements (inserts, then updates, then deletes; none after a conflict) are those of the specification, in candidate order |
| `RowMerge.MergeExact` | src/foldout/page_diff.py:2127-2277 | without conflict the statements run iff no row that BRANCH inserts or updates takes a UNIQUE value from an inserted or updated row written before it, or from a row of MAIN that is not; then every key of the table ends at BRANCH's row if BRANCH touched it and at MAIN's extended row otherwise |
| `RowMerge.MovedValueFails` | src/foldout/page_diff.py:2222-2277 | a concrete table: BRANCH deletes a row and inserts its UNIQUE value under another key; no conflict, an INSERT before a DELETE, and only the other order runs |
| `RowMerge.NullsNeverCollide` | src/foldout/page_diff.py:193-206 | a row with a NULL in every unique column set is never refused for its unique values |
| `RowMerge.ConflictIff` | src/foldout/page_diff.py:2189-2207 | a conflict is reported iff some key was changed on both sides to different results |
| `RowMerge.ConflictReport` | src/foldout/page_diff.py:2125-2207 | a conflict entry is reported iff its key is a candidate that both sides changed to different results, its branch operation is what became of the extended base row on BRANCH, and its main operation what became of the base row on MAIN |
| `RowMerge.DriftReport` | src/foldout/page_diff.py:2171-2180 | a drift entry is reported iff its key is a candidate that only MAIN changed, with what became of the row there |
| `RowMerge.VerdictMeaning` | src/foldout/page_diff.py:2127-2207 | the per-column tests with differs-from-default flags amount to row inequality: conflict, apply and drift each iff their declarative condition |
| `RowMerge.SetListRebuilds` | src/foldout/page_diff.py:2236-2269 | setting only the changed common columns and flagged added columns turns the extended base row into BRANCH's row |
| `RowMerge.SetListExact` | src/foldout/page_diff.py:2236-2269 | the SET list names exactly the columns in which BRANCH's row differs from the extended base row, with BRANCH's values |
| `RowMerge.UpdatesSetSomething` | src/foldout/page_diff.py:2261-2262 | no UPDATE with an empty SET list is written, whatever the tables hold |
| `RowMerge.ChangedMeansDifferent` | src/foldout/page_diff.py:1243-1254 | a row counts as changed iff it differs from the base row extended by the defaults |
| `RowMerge.DriftIsNeverTouched` | src/foldout/page_diff.py:2171-2187 | no statement targets a key whose BRANCH row equals BASE or that MAIN changed, for any candidates |
| `RowMerge.AnyOrderMerges` | src/foldout/page_diff.py:2210-2277 | executing the statements key by key, in any order of the keys, runs iff in that order each row finds its UNIQUE values free, and then gives the same merge |
| `RowMerge.RediffIsEmpty` | src/foldout/page_diff.py:2189-2207 | after a conflict-free merge a second diff reports no conflict and writes nothing |
| `NoPkMerge.MergeRows` | src/foldout/page_diff.py:1877-2057 | with columns added on BRANCH nothing is reported row by row or written; otherwise conflicts, drift entries and statements of the loop are those of the specification; once rows clash nothing is written for the table, and its drift is still reported |
| `NoPkMerge.CollectRows` | src/foldout/page_diff.py:1914-1966 | counting the rows fetched from some blocks gives the multiset of the rows that those blocks show |
| `NoPkMerge.DeltaOnChangedBlocks` | src/foldout/page_diff.py:1914-1971 | the delta on changed blocks is the whole-table delta plus the copies in BASE's truncated tail |
| `NoPkMerge.DeltaIsWholeTableIff` | src/foldout/page_diff.py:1914-1971 | it is the whole-table delta of a row iff no copy of it was cut off |
| `NoPkMerge.ClashIff` | src/foldout/page_diff.py:1981-2019 | a conflict is reported iff some row has deltas of opposite sign |
| `NoPkMerge.DriftExact` | src/foldout/page_diff.py:1978-1995 | the drift entries are the rows whose count differs from BASE on MAIN only, with that difference |
| `NoPkMerge.MergeExact` | src/foldout/page_diff.py:1981-2057 | without conflict every LIMIT 1 delete finds a row and each count is BASE's changed by the larger delta |
| `NoPkMerge.InsertsFitIff` | src/foldout/page_diff.py:2038-2057 | without conflict the inserts, written before the deletes, run under UNIQUE constraints iff no row the merge adds collides with a row of MAIN, with another added row, or with its own second copy |
| `NoPkMerge.MergeIsSymmetric` | src/foldout/page_diff.py:1981-2019 | swapping BRANCH and MAIN gives the same conflicts and the same merged table |
| `NoPkMerge.RediffIsEmpty` | src/foldout/page_diff.py:1981-2019 | a second diff after apply writes nothing |
| `NoPkMerge.ParallelUpdateKeepsBoth` | src/foldout/page_diff.py:2006-2019 | two different updates of the same row are no conflict and both rows stay |
| `TwoWay.CrossDiffTable` | src/foldout/page_diff.py:1500-1586 | the loop over fetched rows writes the specified inserts, updates and deletes |
| `TwoWay.DmlDiffTable` | logical_diff.py:168-238 | the naive diff writes deletes, inserts and updates of the whole tables |
| `TwoWay.NaiveDiffConverges` | logical_diff.py:168-238 | without added columns the delete-first lists hold the same statements as the insert-first lists of the page diff, and turn SOURCE into CURRENT iff no UNIQUE value is taken when it is written in that order |
| `TwoWay.PageDiffIsWholeDiff` | src/foldout/page_diff.py:1400-1586 | diffing the changed pages gives the same statements in the same order as diffing the whole tables |
| `TwoWay.PageDiffConverges` | src/foldout/page_diff.py:1400-1586 | applying the page diff to SOURCE gives CURRENT, or fails, iff no UNIQUE value is taken, or some is, when it is written with the INSERTs first |
| `TwoWay.TwoWayIsThreeWay` | src/foldout/page_diff.py:1400-1586 | with an unmoved parent the three-way merge writes exactly the two-way diff |
| `TwoWay.CrossDiffNoPk` | src/foldout/page_diff.py:1433-1444 | the counter loops list exactly the surplus and the missing copies, as the merge against an unmoved source does |
| `TwoWay.NoPkDiffConverges` | src/foldout/page_diff.py:1418-1475 | over tables with the same columns, the multiset diff of changed pages turns SOURCE into CURRENT, duplicates included, every delete finds a row, and the inserts run under UNIQUE constraints iff SOURCE has room for them |
| `NoPkAdded.SameColumnsSameTuple` | src/foldout/page_diff.py:1421-1432 | rows over the same columns are equal iff their compared tuples are |
| `NoPkAdded.NothingCancels` | src/foldout/page_diff.py:1433-1444 | with added columns every fetched row of CURRENT is inserted and every fetched row of SOURCE deleted |
| `NoPkAdded.AddedColumnsConvergeIff` | src/foldout/page_diff.py:1418-1475 | with added columns, every choice of rows that the LIMIT 1 deletes may make gives CURRENT iff each inserted row that agrees with a deleted one on the common columns has the defaults in the added ones |
| `NoPkAdded.AddedValueMayBeLost` | src/foldout/page_diff.py:1467-1475 | a concrete row whose value in the added column is lost |
| `NoPkAdded.ReinsertedRowCollides` | src/foldout/page_diff.py:1433-1466 | with added columns, a row on a changed page that keeps its values in a UNIQUE constraint over old columns makes the script fail |
| `SchemaMerge.ThreeWayDictMerge` | src/foldout/page_diff.py:632-654 | the loop that edits MAIN's dictionary yields the entrywise merge, MAIN's entry at a clash, and exactly the clashing keys |
| `SchemaMerge.MergeTable3Way` | src/foldout/page_diff.py:554-629 | merged columns in MAIN's order with BRANCH's additions, merged key, and the column and key conflicts |
| `SchemaMerge.MergeSchemas3Way` | src/foldout/page_diff.py:657-747 | the merged schema, the keys of all conflicts and the keys of all drift |
| `SchemaEntries.MergeIsExact` | src/foldout/page_diff.py:554-747 | at every key of any kind, columns and primary keys included, the merge holds BRANCH's entry where MAIN has BASE's, and MAIN's entry otherwise or where the whole table is in conflict |
| `SchemaEntries.ConflictIff` | src/foldout/page_diff.py:554-747 | a key is in conflict iff both sides changed its entry to different results; columns and keys where the table is on all three sides, a table as a whole where it is not |
| `SchemaEntries.ConflictKeepsMain` | src/foldout/page_diff.py:632-654 | whatever is in conflict, alone or with its table, the merge holds as MAIN has it |
| `SchemaEntries.MergedColumnOrder` | src/foldout/page_diff.py:595-606 | merged columns that MAIN has come first and in MAIN's order, the others follow in BRANCH's order |
| `SchemaDrift.MainIsToldIff` | src/foldout/page_diff.py:554-747 | whatever MAIN changed and BRANCH does not have is in the conflict or the drift list, itself or with its table, unless it is a primary key that BRANCH left alone on a table it changed |
| `SchemaDrift.DriftIsTrue` | src/foldout/page_diff.py:580-731 | whatever is in the drift list was changed by MAIN and not by BRANCH, and is not in conflict |
| `SchemaDrift.KeyChangeIsQuiet` | src/foldout/page_diff.py:608-624 | a concrete key change on MAIN that is in neither list |
| `SchemaLaws.UnchangedMainTakesBranch` | src/foldout/page_diff.py:657-747 | merge(b, b, r) is r up to column order, without conflict |
| `SchemaLaws.UnchangedBranchKeepsMain` | src/foldout/page_diff.py:657-747 | merge(b, m, b) is m, without conflict |
| `SchemaLaws.SameChangeIsKept` | src/foldout/page_diff.py:657-747 | merge(b, x, x) is x, without conflict |
| `SchemaLaws.SwapKeepsConflicts` | src/foldout/page_diff.py:657-747 | swapping MAIN and BRANCH reports the same conflict keys |
| `SchemaLaws.SwapKeepsEntries` | src/foldout/page_diff.py:657-747 | and merges the same entry at every key without conflict |
| `SchemaLaws.MergedColumnsExact` | src/foldout/page_diff.py:565-606 | the merged column list holds exactly the merged columns |
| `SchemaLaws.MergedColumnsDistinct` | src/foldout/page_diff.py:595-606 | and has no duplicates |
| `SchemaLaws.DriftIsKept` | src/foldout/page_diff.py:693-747 | whatever BRANCH left as in BASE, down to a column or key, the merge holds as MAIN has it |
| `SchemaLaws.MergeAgainIsStable` | src/foldout/page_diff.py:632-747 | merging again with the merge in MAIN's place changes nothing and conflicts nowhere |
| `SchemaClosed.MergedClosedIff` | src/foldout/page_diff.py:657-747 | closed schemas that merge without conflict give a closed schema iff nothing that one side alone added or changed refers to what only the other dropped, no key one side changed is on a column that the other dropped or made nullable, and no name is given two kinds |
| `Ddl.DiffSchemas` | src/foldout/page_diff.py:317-551 | the two statement lists are the 22 loops in the source's order; before the DML comes everything made, changed or replaced, each with the target's definition, and the drop of a changed constraint; after it only drops of what the target lacks and positions of sequences |
| `Ddl.ScriptInTurn` | src/foldout/page_diff.py:317-551 | the statements of any stretch of loops stand in the order of their turns, each in the loop for its kind and case |
| `DdlProof.TableConverges` | src/foldout/page_diff.py:369-421 | the ALTER TABLE actions of a common table take it to its target when its old key columns stay NOT NULL columns and nothing is asked of an identity column that it refuses |
| `DdlProof.RunAlterColumn` | src/foldout/page_diff.py:384-409 | type, default and NOT NULL actions take one column to its target |
| `DdlTheorem.ScriptConverges` | src/foldout/page_diff.py:317-551 | for closed schemas meeting the condition every statement finds what it needs, every sequence is set within its bounds, no table or schema is dropped while in use, and the script reaches its target |
| `DdlTheorem.KeyStep` | src/foldout/page_diff.py:342-549 | whatever a loop writes for one key runs and leaves every object either as in the source or as in the target, by how far the loops have come |
| `DdlTheorem.TargetIsTgtIff` | src/foldout/page_diff.py:317-551 | the script's target is the target schema iff no common object differs in what is never altered; the parameters of an identity sequence may differ in what its column's type change brings |
| `DdlIff.ScriptConvergesIff` | src/foldout/page_diff.py:317-551 | for any closed schemas and any order, running the script reaches its target iff no old key loses a column or its NOT NULL, no identity column is to get a default, to be nullable or of no integer type, no old index, constraint or sequence hangs on something that goes, no new index is on a new materialized view, no name changes kind, no new column has identity, no identity column that stays loses its sequence, every identity sequence can take the new type of its column, every sequence to be set has a plain lower-case name, and every old sequence is set within the bounds it has |
| `DdlIff.TableStuck` | src/foldout/page_diff.py:384-421 | when an old key column goes or loses NOT NULL, or an identity column is to be what identity forbids, the table's actions fail |
| `DdlIff.TablesMustBeAlterable` | src/foldout/page_diff.py:384-421 | a script that runs at all keeps every old key column and asks nothing of an identity column that it refuses |
| `DdlExamples.KeyColumnGoesFails` | src/foldout/page_diff.py:411-421 | a concrete schema pair: dropping a column with the key on it does not work |
| `DdlExamples.IndexedColumnGoesFails` | src/foldout/page_diff.py:411-430 | a concrete schema pair: dropping a column with the index on it does not work |
| `DdlExamples.IndexedMatviewComesFails` | src/foldout/page_diff.py:423-486 | a concrete schema pair: a new materialized view with an index on it does not work |
| `DdlExamples.IdentityColumnComesFails` | src/foldout/page_diff.py:298-363 | a concrete schema pair: a new table with an identity column does not become the target |
| `DdlExamples.IdentityGoesFails` | src/foldout/page_diff.py:541-546 | a concrete schema pair: a column cannot lose identity together with its sequence |
| `DdlExamples.IdentityBecomesSerialFails` | src/foldout/page_diff.py:392-409 | a concrete schema pair: a column cannot exchange identity for a default |
| `DdlExamples.MixedCaseIsSetFails` | src/foldout/page_diff.py:529-539 | a concrete schema pair: a sequence named in upper case cannot be set |
| `DdlExamples.SetPastTheEndFails` | src/foldout/page_diff.py:521-539 | a concrete schema pair: an integer sequence cannot be set to the last value of the bigint sequence it should become |
| `DdlExamples.SequenceChangesConflictAgain` | src/foldout/page_diff.py:632-757 | three concrete schemas: the diff has no conflict, its script works, and the diff after it conflicts |
| `DdlExamples.ReferenceAndDropDangles` | src/foldout/page_diff.py:657-747 | three concrete closed schemas that are not compatible: their merge has no conflict but a foreign key to a table that is gone |
| `DdlLimits.IndexesMustStay` | src/foldout/page_diff.py:423-430 | reaching the target requires that no old index hangs on what goes |
| `DdlLimits.ConstraintsMustStay` | src/foldout/page_diff.py:432-459 | a script that runs at all requires it of constraints |
| `DdlLimits.HostsMustStand` | src/foldout/page_diff.py:423-486 | a script that runs at all, where no name changes kind, has no new index on a new materialized view |
| `DdlSequences.NewIdentityMustNotBe` | src/foldout/page_diff.py:295-363 | reaching the target requires that no new column has identity |
| `DdlSequences.IdentitiesMustStay` | src/foldout/page_diff.py:541-546 | a script that runs at all drops no sequence of an identity column that stays |
| `DdlSequences.SetValsMustRead` | src/foldout/page_diff.py:521-539 | a script that runs at all names every sequence it sets in plain lower case |
| `DdlBounds.SetValsMustFit` | src/foldout/page_diff.py:521-539 | reaching the target requires that every old sequence is set within the bounds it has after the type changes |
| `DdlBounds.RetypesMustFit` | src/foldout/page_diff.py:384-391 | a script that runs at all changes an identity column's type only where its sequence can take the bounds of the new one |
| `DdlSequences.OwnersMustStay` | src/foldout/page_diff.py:513-546 | reaching the target requires that the owner of a staying sequence stays |
| `DdlKinds.KindsMustStay` | src/foldout/page_diff.py:342-546 | reaching the target requires that no relation name changes its kind |
| `DdlTables.CommonTable` | src/foldout/page_diff.py:369-421 | altering one table inside the catalog reaches its target, takes along only sequences that go, and retypes the sequences of identity columns whose type changes |
| `DdlTables.NotInUse` | src/foldout/page_diff.py:508-511 | when a table is dropped no index, constraint or foreign key depends on it |
| `DdlTables.NoIndexOn` | src/foldout/page_diff.py:487-489 | when a materialized view is dropped it has no index left |
| `DdlTables.SchemaIsEmpty` | src/foldout/page_diff.py:548-549 | every DROP SCHEMA meets an empty schema |
| `DdlDrift.DiffSchemas3Way` | src/foldout/page_diff.py:750-757 | the statements are those from MAIN to the merge, split before and after the DML by what they do, with the merge's conflicts and drift |
| `DdlDrift.StatementWarranted` | src/foldout/page_diff.py:317-551 | every statement is about an object, column or key that differs between the two schemas in what the generator writes |
| `DdlDrift.DriftIsNeverTouched` | src/foldout/page_diff.py:580-606 | no DDL statement is about anything BRANCH left as in BASE |
| `DdlDrift.ConflictIsNeverTouched` | src/foldout/page_diff.py:632-654 | no DDL statement is about a key in conflict or about a column or key of a table in conflict |
| `DdlDrift.AddsFollow` | src/foldout/page_diff.py:382-384 | new columns are added in the order in which the target lists them |
| `DdlAgain.ApplyThenRediff` | src/foldout/page_diff.py:657-757 | for closed sides that are compatible, a conflict-free diff applied to MAIN reaches the merge, but for what is never altered, iff the condition of the script holds; diffing again writes no statement, and finds no conflict iff no common column or sequence differed both in what is altered and in what never is |
| `DdlAgain.TableAgain` | src/foldout/page_diff.py:554-629 | merging one table again after apply agrees with it in everything written, and conflicts iff a column was mixed |
| `DdlAgain.AgainConflictsIff` | src/foldout/page_diff.py:632-747 | the second diff finds no conflict iff BRANCH changed no common column both in identity and in what is altered, and no common sequence in its parameters or owner while the script brings another part of the change |
| `DdlDrift.NothingToDo` | src/foldout/page_diff.py:317-551 | schemas that differ in nothing the generator writes give no statements |
| `DdlSound.NothingDangles` | src/foldout/page_diff.py:317-551 | whatever statements run on the catalog of a closed schema, in whatever order, no index, constraint or sequence is left without what it refers to, no sequence outside its bounds, and no two relations share a name |
| `Quoting.QuotedIdentifierReadsBack` | src/foldout/page_diff.py:292-293 | every identifier is lexed back, up to the text that follows |
| `Quoting.ScanOnlyReadsDoubled` | src/foldout/page_diff.py:292-293 | the lexer accepts nothing but doubled text, so quoting is the only way to write a value |
| `Quoting.PastedIdentifierReadsBack` | src/foldout/page_diff.py:2040-2047 | an identifier pasted by the DML is lexed back iff it has no quote |
| `Setval.ReadsBackIff` | src/foldout/page_diff.py:529-539 | the setval() call addresses the sequence it is written for iff schema and name are plain lower-case words |
| `Setval.WordsAreFolded` | src/foldout/page_diff.py:529-539 | for names of one word it addresses the sequence of the lower-case names |
| `Quoting.LiteralReadsBack` | src/foldout/page_diff.py:1646-1659 | every rendered value, NULL included, is parsed back and parsing stops at the right place |
| `Quoting.ValuesReadBack` | src/foldout/page_diff.py:2229-2233 | a rendered VALUES list parses back to its row |
| `PageFormat.LsnReadsBack` | src/foldout/page_diff.py:60-66 | parsing a formatted LSN gives the LSN, for every natural number |
| `PageFormat.LsnText` | src/foldout/page_diff.py:65-66 | the text of an LSN is upper-case hexadecimal, without leading zero before the slash and with eight digits after it |
| `PageFormat.LsnIsReadIff` | src/foldout/page_diff.py:60-62 | a text is read as an LSN iff it is two hexadecimal numbers with one slash between |
| `PageFormat.LiveCtids` | src/foldout/page_diff.py:1257-1281 | all reads are in bounds iff the line pointers fit the page, and then the ctids returned are exactly those below pd_lower whose pointer has flags 1 and a nonzero length, in order |
| `PageFormat.LiveSlotsIncrease` | src/foldout/page_diff.py:1271-1281 | the listed slots are strictly increasing |
| `PageFormat.LiveSlotsExact` | src/foldout/page_diff.py:1271-1281 | a slot is listed iff the bits of its pointer say normal and of nonzero length |
| `PageFormat.SlotReadsBack` | src/foldout/page_diff.py:1274-1278 | the bit fields of a line pointer survive packing |
| `PageFormat.PageImageReadsBack` | src/foldout/page_diff.py:1257-1281 | decoding a page image finds its slots and its LSN |
| `PageFormat.ImageLines` | src/foldout/page_diff.py:1271-1281 | on the image of any line pointers, pointer i is fetched iff its flags are 1 and its length is not zero |
| `PageFormat.ScanSegment` | src/foldout/page_diff.py:894-911 | the segment loop returns the pages newer than the snapshot |
| `PageFormat.FindChangedBlocks` | src/foldout/page_diff.py:914-938 | the multi-segment loop with the stat filter, and its file counts |
| `PageFormat.FindChangedBlocksLsnOnly` | src/foldout/page_diff.py:1119-1138 | the scan without the filter |
| `PageFormat.ScanExact` | src/foldout/page_diff.py:894-938 | dividing a reported number by the segment size leads back to the scanned page, and nothing else is reported |
| `PageFormat.BlockAddress` | src/foldout/page_diff.py:1259-1264 | block b is the 8192 bytes at offset b mod 131072 times 8192 of segment file b div 131072 |
| `PageFormat.ScanIncreasing` | src/foldout/page_diff.py:894-938 | block numbers are strictly increasing across segments |
| `PageFormat.StatFilterExact` | src/foldout/page_diff.py:914-938 | the filtered scan equals the plain one iff no skipped file holds a newer page |
| `Lock.LockIsSafe` | src/foldout/db.py:391-435 | in every interleaving where no two processes hold the lock at once, the body runs with no backend attached and none able to attach, and connections are allowed exactly when nobody is inside |
| `Lock.LockHoldsIff` | src/foldout/db.py:391-435 | the lock protects its body in every run iff at most one process uses it |
| `Lock.OneProcessNeverOverlaps` | src/foldout/db.py:391-435 | one process alone meets that condition |
| `Lock.SecondProcessSpoils` | src/foldout/db.py:434-435 | from any idle database two processes have a run in which the body is open |
| `Lock.OverlapOpensTheBody` | src/foldout/db.py:434-435 | when a second holder leaves, a client attaches under the first one's body |
| `Lock.NoForceNoTermination` | src/foldout/db.py:418-428 | without force no backend is ever terminated |
| `Lock.ForceReachesBody` | src/foldout/db.py:418-428 | with force a process reaches its body from any state with any backends attached, by its own steps and the exits of the backends it terminates |
| `Lock.NoForceGivesUp` | src/foldout/db.py:418-421 | without force a process that finds backends attached can only leave |
| `Lock.TimeoutGivesUpIff` | src/foldout/db.py:371-387 | a poll past the deadline gives up iff a backend is left |
| `Lock.WayOut` | src/foldout/db.py:434-435 | from wherever it is inside, a process gets out by at most two steps of its own, and connections are allowed again |
| `Lock.WaitForNoConnections` | src/foldout/db.py:371-387 | the polling loop ends at the first empty list or the first late nonempty one; an empty list wins over a passed deadline |
| `Chunks.ChunkIndex.AfterRow` | db_hash.py:272-337 | the trigger body, upserting and XOR-updating in place, is the specified transition or an error that changes nothing; the old row leaves the chunk c with c * size <= |hash| < (c + 1) * size, the new row enters the one for its hash, and every other entry stays |
| `Chunks.ChunkIndex.Aggregate` | db_hash.py:350-368 | bootstrap's grouped aggregation and upsert: each chunk that takes rows gets their XOR and number, any other entry stays; one row whose hash has no absolute value makes it fail and change nothing |
| `Chunks.ChunkIndex.Bootstrap` | db_hash.py:350-391 | aggregation under the chunk trigger with the entries it counts, then the row-hash trigger in its place; or nothing, when aggregation fails |
| `Chunks.FireBooks` | db_hash.py:278-335 | a statement books the old row out of the chunk whose range of hashes covers it and the new row into the one that covers it, with the XOR and count to match, and leaves every other entry alone |
| `Chunks.FireFailsIff` | db_hash.py:278-335 | it fails iff a hash is the smallest bigint or the old row's chunk has no entry |
| `Chunks.TriggerKeepsAgreement` | db_hash.py:278-335 | every insert, update and delete keeps the state equal to the recomputed aggregate, moves between chunks included, and never fails on agreeing states except where abs() overflows |
| `Chunks.RunKeepsAgreement` | db_hash.py:272-337 | so does any run of statements; emptied chunks hold (0, 0) |
| `Chunks.XorTakesAny` | db_hash.py:355-360 | the aggregate does not depend on the order of rows |
| `Chunks.BootstrapAgreesIff` | db_hash.py:350-368 | bootstrap establishes agreement iff older entries of chunks without rows are already (0, 0) |
| `Chunks.ReplacedTriggerAgreesIff` | db_hash.py:390-391 | under the trigger bootstrap leaves, agreement survives a run iff no chunk's aggregate changed |
| `Chunks.OnlyChunkTriggerAgrees` | db_hash.py:390-391 | every run from an agreeing state keeps agreement iff the installed trigger is the chunk trigger |
| `Chunks.InsertAfterBootstrapDisagrees` | db_hash.py:390-391 | the first insert after bootstrap leaves the state behind the table |
| `Lpt.PartitionLpt` | hash_rust/src/main.rs:136-147 | the in-place scheduler computes the specification; parts are a permutation of the input, each load is the sum of the sizes in its part, and no load exceeds (4k-1)/(3k) times the largest of any other split into k |
| `Lpt.Assign` | hash_rust/src/main.rs:141-145 | one turn places the table on the first least loaded worker and keeps loads equal to sums |
| `Lpt.LptGuarantee` | hash_rust/src/main.rs:136-147 | for k workers and any other split of the tables with largest sum of sizes d, 3k times the sum of sizes of any worker is at most (4k-1)d |
| `Lpt.LoadBound` | hash_rust/src/main.rs:141-145 | k times a load is at most the total plus k-1 times the last table placed there |
| `Lpt.HeavyTableFits` | hash_rust/src/main.rs:136-147 | when the last table weighs more than a third of d and some split stays within d, so does the scheduler |
| `Lpt.SortIsStable` | hash_rust/src/main.rs:138-138 | tables of equal size keep their catalog order |
| `Lpt.LptSplits` | hash_rust/src/main.rs:136-147 | no table is lost or scheduled twice |

## Left out

- PageFormat.ParseLsn: does not accept the other spellings of hexadecimal numbers that Python's int() takes, such as underscores, signs and blanks.
- Lpt.PartitionLpt: does not model 64-bit overflow of the loads, because table sizes stay far below it.
- BranchProtocol.Do: assumes that every write to disk gives a file a time later than any earlier stat; clock granularity and rounding of times are not modelled. A backend that is still authenticating, and so not yet listed, when the lock is taken is not modelled either.
- Lock.Do: does not model a process killed between lock and unlock, which leaves connections refused.
- Ddl.Execute: DROP TABLE here fails while the table has indexes or constraints, where PostgreSQL drops them along; the proof shows the generated script never needs that. CREATE OR REPLACE VIEW is taken to accept any new text; CREATE OR REPLACE FUNCTION likewise, although it refuses another return type or other parameter names. A type change is taken to have a cast, also for the old default, which is replaced only afterwards. Statements never fail because of the rows in a table.
- Ddl.Emit: dependencies of views and functions on tables and on each other, and of foreign keys on unique keys, are not modelled, because the source orders these objects by name only; nor that tables, constraints and indexes are written before the functions their expressions call, that a default may name a sequence, and that DROP FUNCTION fails for a procedure. Primary keys are taken to carry the default constraint name, owner names to contain no dot, and the index behind a key or unique constraint to take no name.
- Ddl.EmitFunction: functions are listed under the identity arguments of the dump, which hold parameter names, so a renamed parameter is a new function here as in the source; that PostgreSQL has one signature for both is not modelled.
- Ddl.Load: a sequence that was not called yet is taken to stand at its start value.
- DdlProof.IdentitiesStay: a sequence owned by an identity column is taken to be the one that column brought.
- Setval.Read: a setval that addresses another sequence than its own counts as a failure, also where that other sequence exists.
- RowMerge.Execute: UNIQUE constraints and indexes are sets of columns that hold while the script runs, checked row by row, with NULLs distinct; partial, expression and deferrable ones are not modelled. Neither are foreign keys between tables, CHECK and EXCLUDE constraints, triggers, and identity or generated columns that refuse a given value, on all of which statements may fail too.
- NoPkAdded.AddedColumnsConvergeIff: is about where the script ends when its INSERTs run; whether they do under UNIQUE constraints is `NoPkMerge.InsertsFit`.
- RowMerge.MergeTable: does not cover column type changes, dropped columns and volatile defaults, which the source compares as opaque text.
- CrossDiff.CrossDiff3Way: which relations are compared, the warnings and the counts printed are not modelled; the rows of a new table are given.
- PostgreSQL internals: MVCC visibility, TOAST, HOT chains, WAL replay and unlogged tables; a slot shows a visible row or none.
- SQL execution, catalog queries, file I/O, mmap, reflink copying and subprocess calls: their results are parameters or abstract state.
- Relations rewritten or created after branching: the source skips the former and dumps the latter whole.
- The chunk_hashes and row_hashes tables and dirty marking: the replay path does not keep the natural invariants.
- partition_round_robin, cross_diff on unrelated databases, the legacy page diff, migrations, snapshot bookkeeping, printed totals and the command line: easy members or plumbing.
