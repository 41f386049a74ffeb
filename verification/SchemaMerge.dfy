/** Three-way merge of schema dumps: objects by name, tables column by column. */
module SchemaMerge {
  import opened Types
  import opened Catalog

  // ---------- one entry ----------

  /** MAIN's entry, unless only BRANCH changed it. */
  function Pick<V(==)>(b: Option<V>, m: Option<V>, r: Option<V>): Option<V> {
    if b != r && b == m then r else m
  }

  /** Both sides changed the entry, to different results. */
  predicate Clash<V(==)>(b: Option<V>, m: Option<V>, r: Option<V>) {
    b != r && b != m && r != m
  }

  /** Only MAIN changed the entry. */
  predicate Drift<V(==)>(b: Option<V>, m: Option<V>, r: Option<V>) {
    b != m && b == r
  }

  function PickAt<K, V(==)>(b: map<K, V>, m: map<K, V>, r: map<K, V>, k: K): Option<V> {
    Pick(Lookup(b, k), Lookup(m, k), Lookup(r, k))
  }

  function AllKeys<K, V>(b: map<K, V>, m: map<K, V>, r: map<K, V>): set<K> {
    b.Keys + m.Keys + r.Keys
  }

  function MergeMaps<K, V(==)>(b: map<K, V>, m: map<K, V>, r: map<K, V>): map<K, V> {
    map k | k in AllKeys(b, m, r) && PickAt(b, m, r, k).Some? :: PickAt(b, m, r, k).value
  }

  function Clashes<K, V(==)>(b: map<K, V>, m: map<K, V>, r: map<K, V>): set<K> {
    set k | k in AllKeys(b, m, r) && Clash(Lookup(b, k), Lookup(m, k), Lookup(r, k))
  }

  function Drifts<K, V(==)>(b: map<K, V>, m: map<K, V>, r: map<K, V>): set<K> {
    set k | k in AllKeys(b, m, r) && Drift(Lookup(b, k), Lookup(m, k), Lookup(r, k))
  }

  /** The keys in done are merged, the others still as on MAIN. */
  ghost predicate MergedIn<K(!new), V>(b: map<K, V>, m: map<K, V>, r: map<K, V>, merged: map<K, V>, done: set<K>) {
    forall k :: Lookup(merged, k) == if k in done then PickAt(b, m, r, k) else Lookup(m, k)
  }

  function Put<K, V>(merged: map<K, V>, k: K, v: Option<V>): map<K, V> {
    if v == None then merged - {k} else merged[k := v.value]
  }

  lemma MergedInOneMore<K(!new), V>(b: map<K, V>, m: map<K, V>, r: map<K, V>, merged: map<K, V>, done: set<K>, k: K)
    requires MergedIn(b, m, r, merged, done)
    ensures MergedIn(b, m, r, Put(merged, k, PickAt(b, m, r, k)), done + {k})
  {
    hide PickAt;
  }

  lemma MergedInAll<K(!new), V>(b: map<K, V>, m: map<K, V>, r: map<K, V>, merged: map<K, V>)
    requires MergedIn(b, m, r, merged, AllKeys(b, m, r))
    ensures merged == MergeMaps(b, m, r)
  {
    var keys := AllKeys(b, m, r);
    forall k | k in merged ensures k in keys {
      assert Lookup(merged, k).Some?;
    }
    hide PickAt;
    SameLookups(merged, MergeMaps(b, m, r), keys);
  }

  /** Object-level merge of one kind of object; starts from MAIN and edits it. */
  method ThreeWayDictMerge<K(!new, ==), V(==)>(base: map<K, V>, main: map<K, V>, branch: map<K, V>)
    returns (merged: map<K, V>, conflicts: set<K>)
    ensures merged == MergeMaps(base, main, branch)
    ensures conflicts == Clashes(base, main, branch)
  {
    hide MergeMaps;
    merged, conflicts := main, {};
    var keys := AllKeys(base, main, branch);
    var todo := keys;
    assert MergedIn(base, main, branch, merged, keys - todo);
    hide MergedIn;
    while todo != {}
      invariant todo <= keys
      invariant MergedIn(base, main, branch, merged, keys - todo)
      invariant conflicts == set k | k in keys - todo && Clash(Lookup(base, k), Lookup(main, k), Lookup(branch, k))
    {
      var k :| k in todo;
      var b, m, r := Lookup(base, k), Lookup(main, k), Lookup(branch, k);
      MergedInOneMore(base, main, branch, merged, keys - todo, k);
      if b != r && b != m {
        if r != m {
          conflicts := conflicts + {k};
        }
      } else if b != r {
        if r == None {
          merged := merged - {k};
        } else {
          merged := merged[k := r.value];
        }
      }
      assert keys - (todo - {k}) == keys - todo + {k};
      todo := todo - {k};
    }
    assert keys - todo == keys;
    MergedInAll(base, main, branch, merged);
  }

  /** What only MAIN changed, for the report; the merge keeps it. */
  method CollectDrifts<K(==), V(==)>(base: map<K, V>, main: map<K, V>, branch: map<K, V>) returns (drifts: set<K>)
    ensures drifts == Drifts(base, main, branch)
  {
    drifts := {};
    var keys := AllKeys(base, main, branch);
    var todo := keys;
    while todo != {}
      invariant todo <= keys
      invariant drifts == set k | k in keys - todo && Drift(Lookup(base, k), Lookup(main, k), Lookup(branch, k))
    {
      var k :| k in todo;
      if Lookup(base, k) != Lookup(main, k) && Lookup(base, k) == Lookup(branch, k) {
        drifts := drifts + {k};
      }
      todo := todo - {k};
    }
  }

  lemma SameLookups<K, V>(a: map<K, V>, b: map<K, V>, keys: set<K>)
    requires a.Keys <= keys && b.Keys <= keys
    requires forall k :: k in keys ==> Lookup(a, k) == Lookup(b, k)
    ensures a == b
  {
    forall k ensures k in a <==> k in b {
      if k in keys {
        assert Lookup(a, k) == Lookup(b, k);
      }
    }
    forall k | k in a ensures a[k] == b[k] {
      assert Lookup(a, k) == Lookup(b, k);
    }
  }

  // ---------- one table ----------

  function MergedByName(b: Table, m: Table, r: Table): map<string, Column> {
    MergeMaps(ByName(b.columns), ByName(m.columns), ByName(r.columns))
  }

  /** MAIN's surviving columns in MAIN's order. */
  function Kept(cols: seq<Column>, merged: map<string, Column>): seq<Column> {
    if cols == [] then []
    else Kept(cols[..|cols| - 1], merged) +
         if cols[|cols| - 1].name in merged then [merged[cols[|cols| - 1].name]] else []
  }

  /** BRANCH's columns that neither MAIN nor BASE has, in BRANCH's order. */
  function Appended(cols: seq<Column>, m: map<string, Column>, b: map<string, Column>): seq<Column> {
    if cols == [] then []
    else Appended(cols[..|cols| - 1], m, b) +
         if cols[|cols| - 1].name !in m && cols[|cols| - 1].name !in b then [cols[|cols| - 1]] else []
  }

  function MergedColumns(b: Table, m: Table, r: Table): seq<Column> {
    Kept(m.columns, MergedByName(b, m, r)) + Appended(r.columns, ByName(m.columns), ByName(b.columns))
  }

  function MergedPk(b: Option<seq<string>>, m: Option<seq<string>>, r: Option<seq<string>>): Option<seq<string>> {
    if b != r && b != m && r != m then m else if b != r then r else m
  }

  function MergeTables(b: Table, m: Table, r: Table): Table {
    Table(MergedColumns(b, m, r), MergedPk(b.pk, m.pk, r.pk))
  }

  /** Column-level merge of a table that exists on all three sides. */
  method MergeTable3Way(base: Table, main: Table, branch: Table)
    returns (merged: Table, columnConflicts: set<string>, pkConflict: bool, columnDrifts: set<string>)
    requires DistinctNames(main.columns) && DistinctNames(branch.columns)
    ensures merged == MergeTables(base, main, branch)
    ensures columnConflicts == Clashes(ByName(base.columns), ByName(main.columns), ByName(branch.columns))
    ensures pkConflict <==> base.pk != branch.pk && base.pk != main.pk && branch.pk != main.pk
    ensures columnDrifts == Drifts(ByName(base.columns), ByName(main.columns), ByName(branch.columns))
  {
    hide MergeMaps, Clashes, Drifts;
    var baseCols, mainCols, branchCols := ByName(base.columns), ByName(main.columns), ByName(branch.columns);
    var byName;
    byName, columnConflicts := ThreeWayDictMerge(baseCols, mainCols, branchCols);
    columnDrifts := CollectDrifts(baseCols, mainCols, branchCols);
    var kept: seq<Column> := [];
    for i := 0 to |main.columns|
      invariant kept == Kept(main.columns[..i], byName)
    {
      assert main.columns[..i + 1][..i] == main.columns[..i];
      if main.columns[i].name in byName {
        kept := kept + [byName[main.columns[i].name]];
      }
    }
    assert main.columns[..|main.columns|] == main.columns;
    var added: seq<Column> := [];
    for i := 0 to |branch.columns|
      invariant added == Appended(branch.columns[..i], mainCols, baseCols)
    {
      assert branch.columns[..i + 1][..i] == branch.columns[..i];
      var c := branch.columns[i];
      if c.name !in mainCols && c.name !in baseCols {
        added := added + [c];
      }
    }
    assert branch.columns[..|branch.columns|] == branch.columns;
    pkConflict := base.pk != branch.pk && base.pk != main.pk && branch.pk != main.pk;
    var pk := if pkConflict then main.pk else if base.pk != branch.pk then branch.pk else main.pk;
    merged := Table(kept + added, pk);
  }

  // ---------- the whole schema ----------

  datatype ObjectKey =
    | SchemaKey(schema: string)
    | TableKey(table: QName)
    | ColumnKey(table: QName, column: string)
    | PkKey(table: QName)
    | IndexKey(index: QName)
    | ConstraintKey(constraint: ConName)
    | ViewKey(view: QName)
    | MatviewKey(matview: QName)
    | FunctionKey(function_: FnName)
    | SequenceKey(sequence: QName)

  /** Merge base, the two changed sides. */
  datatype Three = Three(base: Schema, main: Schema, branch: Schema)

  function MergeTableEntry(b: Option<Table>, m: Option<Table>, r: Option<Table>): Option<Table> {
    if b != r && b == m then
      (if r == None || b == None then r else Some(MergeTables(b.value, m.value, r.value)))
    else if b != r && b != m && r != m && b.Some? && m.Some? && r.Some? then
      Some(MergeTables(b.value, m.value, r.value))
    else m
  }

  function TableConflicts(q: QName, b: Option<Table>, m: Option<Table>, r: Option<Table>): set<ObjectKey> {
    if b != r && b.Some? && m.Some? && r.Some? && (b == m || r != m) then
      (set c | c in Clashes(ByName(b.value.columns), ByName(m.value.columns), ByName(r.value.columns)) ::
        ColumnKey(q, c)) +
      (if Clash(Some(b.value.pk), Some(m.value.pk), Some(r.value.pk)) then {PkKey(q)} else {})
    else if Clash(b, m, r) then {TableKey(q)}
    else {}
  }

  /** Columns of a merged table one by one, any other table as a whole; keys are not looked at. */
  function TableDrifts(q: QName, b: Option<Table>, m: Option<Table>, r: Option<Table>): set<ObjectKey> {
    if Drift(b, m, r) then {TableKey(q)}
    else if b != r && b.Some? && m.Some? && r.Some? && (b == m || r != m) then
      set c | c in Drifts(ByName(b.value.columns), ByName(m.value.columns), ByName(r.value.columns)) :: ColumnKey(q, c)
    else {}
  }

  function EntryAt(t: Three, q: QName): Option<Table> {
    MergeTableEntry(Lookup(t.base.tables, q), Lookup(t.main.tables, q), Lookup(t.branch.tables, q))
  }

  function MergedTableMap(t: Three): map<QName, Table> {
    map q | q in AllKeys(t.base.tables, t.main.tables, t.branch.tables)
        && EntryAt(t, q).Some? :: EntryAt(t, q).value
  }

  function ConflictsAt(t: Three, q: QName): set<ObjectKey> {
    TableConflicts(q, Lookup(t.base.tables, q), Lookup(t.main.tables, q), Lookup(t.branch.tables, q))
  }

  function ConflictsAmong(t: Three, qs: set<QName>): set<ObjectKey> {
    set q, k | q in qs && k in ConflictsAt(t, q) :: k
  }

  function AllTableConflicts(t: Three): set<ObjectKey> {
    ConflictsAmong(t, AllKeys(t.base.tables, t.main.tables, t.branch.tables))
  }

  function DriftsAt(t: Three, q: QName): set<ObjectKey> {
    TableDrifts(q, Lookup(t.base.tables, q), Lookup(t.main.tables, q), Lookup(t.branch.tables, q))
  }

  function DriftsAmong(t: Three, qs: set<QName>): set<ObjectKey> {
    set q, k | q in qs && k in DriftsAt(t, q) :: k
  }

  function AllTableDrifts(t: Three): set<ObjectKey> {
    DriftsAmong(t, AllKeys(t.base.tables, t.main.tables, t.branch.tables))
  }

  /** Membership as an entry, so that namespaces merge like any other object. */
  function AsMap(s: set<string>): map<string, ()> {
    map n | n in s :: ()
  }

  function Merged(t: Three): Schema {
    Schema(
      MergeMaps(AsMap(t.base.schemas), AsMap(t.main.schemas), AsMap(t.branch.schemas)).Keys,
      MergedTableMap(t),
      MergeMaps(t.base.indexes, t.main.indexes, t.branch.indexes),
      MergeMaps(t.base.constraints, t.main.constraints, t.branch.constraints),
      MergeMaps(t.base.views, t.main.views, t.branch.views),
      MergeMaps(t.base.matviews, t.main.matviews, t.branch.matviews),
      MergeMaps(t.base.functions, t.main.functions, t.branch.functions),
      MergeMaps(t.base.sequences, t.main.sequences, t.branch.sequences))
  }

  /** The keys of all reported conflicts. */
  function Conflicts(t: Three): set<ObjectKey> {
    (set n | n in Clashes(AsMap(t.base.schemas), AsMap(t.main.schemas), AsMap(t.branch.schemas)) :: SchemaKey(n)) +
    AllTableConflicts(t) +
    (set k | k in Clashes(t.base.indexes, t.main.indexes, t.branch.indexes) :: IndexKey(k)) +
    (set k | k in Clashes(t.base.constraints, t.main.constraints, t.branch.constraints) :: ConstraintKey(k)) +
    (set k | k in Clashes(t.base.views, t.main.views, t.branch.views) :: ViewKey(k)) +
    (set k | k in Clashes(t.base.matviews, t.main.matviews, t.branch.matviews) :: MatviewKey(k)) +
    (set k | k in Clashes(t.base.functions, t.main.functions, t.branch.functions) :: FunctionKey(k)) +
    (set k | k in Clashes(t.base.sequences, t.main.sequences, t.branch.sequences) :: SequenceKey(k))
  }

  /** The keys of everything reported as changed by MAIN alone. */
  function AllDrifts(t: Three): set<ObjectKey> {
    (set n | n in Drifts(AsMap(t.base.schemas), AsMap(t.main.schemas), AsMap(t.branch.schemas)) :: SchemaKey(n)) +
    AllTableDrifts(t) +
    (set k | k in Drifts(t.base.indexes, t.main.indexes, t.branch.indexes) :: IndexKey(k)) +
    (set k | k in Drifts(t.base.constraints, t.main.constraints, t.branch.constraints) :: ConstraintKey(k)) +
    (set k | k in Drifts(t.base.views, t.main.views, t.branch.views) :: ViewKey(k)) +
    (set k | k in Drifts(t.base.matviews, t.main.matviews, t.branch.matviews) :: MatviewKey(k)) +
    (set k | k in Drifts(t.base.functions, t.main.functions, t.branch.functions) :: FunctionKey(k)) +
    (set k | k in Drifts(t.base.sequences, t.main.sequences, t.branch.sequences) :: SequenceKey(k))
  }

  /** merge_schemas_3way: the merged schema, the conflict keys and the drift keys. */
  method MergeSchemas3Way(t: Three)
    returns (merged: Schema, conflicts: set<ObjectKey>, drifts: set<ObjectKey>)
    requires TablesOk(t.main) && TablesOk(t.branch)
    ensures merged == Merged(t) && conflicts == Conflicts(t) && drifts == AllDrifts(t)
  {
    hide MergeMaps, Clashes, Drifts, MergedTableMap, AllTableConflicts, AllTableDrifts;
    var namespaces, nsc := ThreeWayDictMerge(AsMap(t.base.schemas), AsMap(t.main.schemas), AsMap(t.branch.schemas));
    var tables, tc, td := MergeAllTables(t);
    var indexes, ic := ThreeWayDictMerge(t.base.indexes, t.main.indexes, t.branch.indexes);
    var constraints, cc := ThreeWayDictMerge(t.base.constraints, t.main.constraints, t.branch.constraints);
    var views, vc := ThreeWayDictMerge(t.base.views, t.main.views, t.branch.views);
    var matviews, mc := ThreeWayDictMerge(t.base.matviews, t.main.matviews, t.branch.matviews);
    var functions, fc := ThreeWayDictMerge(t.base.functions, t.main.functions, t.branch.functions);
    var sequences, sc := ThreeWayDictMerge(t.base.sequences, t.main.sequences, t.branch.sequences);
    merged := Schema(namespaces.Keys, tables, indexes, constraints, views, matviews, functions, sequences);
    conflicts := (set n | n in nsc :: SchemaKey(n)) + tc +
      (set k | k in ic :: IndexKey(k)) + (set k | k in cc :: ConstraintKey(k)) +
      (set k | k in vc :: ViewKey(k)) + (set k | k in mc :: MatviewKey(k)) +
      (set k | k in fc :: FunctionKey(k)) + (set k | k in sc :: SequenceKey(k));
    drifts := CollectAllDrifts(t, td);
  }

  method CollectAllDrifts(t: Three, inTables: set<ObjectKey>) returns (drifts: set<ObjectKey>)
    requires inTables == AllTableDrifts(t)
    ensures drifts == AllDrifts(t)
  {
    hide Drifts, AllTableDrifts;
    var namespaces := CollectDrifts(AsMap(t.base.schemas), AsMap(t.main.schemas), AsMap(t.branch.schemas));
    var indexes := CollectDrifts(t.base.indexes, t.main.indexes, t.branch.indexes);
    var constraints := CollectDrifts(t.base.constraints, t.main.constraints, t.branch.constraints);
    var views := CollectDrifts(t.base.views, t.main.views, t.branch.views);
    var matviews := CollectDrifts(t.base.matviews, t.main.matviews, t.branch.matviews);
    var functions := CollectDrifts(t.base.functions, t.main.functions, t.branch.functions);
    var sequences := CollectDrifts(t.base.sequences, t.main.sequences, t.branch.sequences);
    drifts := (set n | n in namespaces :: SchemaKey(n)) + inTables +
      (set k | k in indexes :: IndexKey(k)) + (set k | k in constraints :: ConstraintKey(k)) +
      (set k | k in views :: ViewKey(k)) + (set k | k in matviews :: MatviewKey(k)) +
      (set k | k in functions :: FunctionKey(k)) + (set k | k in sequences :: SequenceKey(k));
  }

  lemma NothingAmongNone(t: Three)
    ensures ConflictsAmong(t, {}) == {} && DriftsAmong(t, {}) == {}
  {}

  lemma ReportsGrow(t: Three, qs: set<QName>, q: QName)
    ensures ConflictsAmong(t, qs + {q}) == ConflictsAmong(t, qs) + ConflictsAt(t, q)
    ensures DriftsAmong(t, qs + {q}) == DriftsAmong(t, qs) + DriftsAt(t, q)
  {
    hide ConflictsAt, DriftsAt;
  }

  /** The tables in done are merged, the others still as on MAIN. */
  ghost predicate MergedSoFar(t: Three, merged: map<QName, Table>, done: set<QName>) {
    forall q :: Lookup(merged, q) == if q in done then EntryAt(t, q) else Lookup(t.main.tables, q)
  }

  lemma AllMerged(t: Three, merged: map<QName, Table>)
    requires MergedSoFar(t, merged, AllKeys(t.base.tables, t.main.tables, t.branch.tables))
    ensures merged == MergedTableMap(t)
  {
    hide EntryAt;
    var keys := AllKeys(t.base.tables, t.main.tables, t.branch.tables);
    forall q | q in merged ensures q in keys {
      assert Lookup(merged, q).Some?;
    }
    SameLookups(merged, MergedTableMap(t), keys);
  }

  lemma MergedOneMore(t: Three, merged: map<QName, Table>, done: set<QName>, q: QName)
    requires MergedSoFar(t, merged, done)
    ensures MergedSoFar(t, Put(merged, q, EntryAt(t, q)), done + {q})
  {
    hide EntryAt;
  }

  method MergeAllTables(t: Three)
    returns (merged: map<QName, Table>, conflicts: set<ObjectKey>, drifts: set<ObjectKey>)
    requires TablesOk(t.main) && TablesOk(t.branch)
    ensures merged == MergedTableMap(t) && conflicts == AllTableConflicts(t) && drifts == AllTableDrifts(t)
  {
    hide MergeTableEntry, TableConflicts, TableDrifts, DistinctNames, ConflictsAmong, DriftsAmong, MergedTableMap;
    NothingAmongNone(t);
    merged, conflicts, drifts := t.main.tables, {}, {};
    var keys := AllKeys(t.base.tables, t.main.tables, t.branch.tables);
    var todo := keys;
    assert keys - todo == {};
    assert MergedSoFar(t, merged, {});
    hide MergedSoFar, AllKeys;
    while todo != {}
      invariant todo <= keys
      invariant MergedSoFar(t, merged, keys - todo)
      invariant conflicts == ConflictsAmong(t, keys - todo)
      invariant drifts == DriftsAmong(t, keys - todo)
    {
      var q :| q in todo;
      var b, m, r := Lookup(t.base.tables, q), Lookup(t.main.tables, q), Lookup(t.branch.tables, q);
      var entry, inConflict, inDrift := MergeOneTable(q, b, m, r);
      MergedOneMore(t, merged, keys - todo, q);
      ReportsGrow(t, keys - todo, q);
      if entry == None {
        merged := merged - {q};
      } else {
        merged := merged[q := entry.value];
      }
      conflicts := conflicts + inConflict;
      drifts := drifts + inDrift;
      assert keys - (todo - {q}) == keys - todo + {q};
      todo := todo - {q};
    }
    assert keys - todo == keys;
    AllMerged(t, merged);
  }

  method MergeOneTable(q: QName, b: Option<Table>, m: Option<Table>, r: Option<Table>)
    returns (entry: Option<Table>, conflicts: set<ObjectKey>, drifts: set<ObjectKey>)
    requires m.Some? ==> DistinctNames(m.value.columns)
    requires r.Some? ==> DistinctNames(r.value.columns)
    ensures entry == MergeTableEntry(b, m, r) && conflicts == TableConflicts(q, b, m, r)
    ensures drifts == TableDrifts(q, b, m, r)
  {
    hide MergeTables, Clashes, Drifts;
    entry, conflicts, drifts := m, {}, {};
    if b != r && b == m && (r == None || b == None) {
      entry := r;
    } else if b != r && b.Some? && m.Some? && r.Some? && (b == m || r != m) {
      var merged, columns, pk, drifting := MergeTable3Way(b.value, m.value, r.value);
      entry := Some(merged);
      conflicts := (set c | c in columns :: ColumnKey(q, c)) + if pk then {PkKey(q)} else {};
      drifts := set c | c in drifting :: ColumnKey(q, c);
    } else if b != m && b == r {
      drifts := {TableKey(q)};
    } else if b != r && b != m && r != m {
      conflicts := {TableKey(q)};
    }
  }
}
