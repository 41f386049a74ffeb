/** Laws of the three-way schema merge. */
module SchemaLaws {
  import opened Types
  import opened Catalog
  import opened SchemaMerge

  // ---------- maps of objects ----------

  lemma LookupMerged<K, V>(b: map<K, V>, m: map<K, V>, r: map<K, V>, k: K)
    ensures Lookup(MergeMaps(b, m, r), k) == PickAt(b, m, r, k)
    ensures k in Clashes(b, m, r) <==> Clash(Lookup(b, k), Lookup(m, k), Lookup(r, k))
  {}

  lemma MergeUnchangedMain<K(!new), V>(b: map<K, V>, r: map<K, V>)
    ensures MergeMaps(b, b, r) == r && Clashes(b, b, r) == {}
  {
    forall k ensures Lookup(MergeMaps(b, b, r), k) == Lookup(r, k) {
      LookupMerged(b, b, r, k);
    }
    SameMap(MergeMaps(b, b, r), r);
  }

  lemma MergeUnchangedBranch<K(!new), V>(b: map<K, V>, m: map<K, V>)
    ensures MergeMaps(b, m, b) == m && Clashes(b, m, b) == {}
  {
    forall k ensures Lookup(MergeMaps(b, m, b), k) == Lookup(m, k) {
      LookupMerged(b, m, b, k);
    }
    SameMap(MergeMaps(b, m, b), m);
  }

  lemma MergeSameChange<K(!new), V>(b: map<K, V>, x: map<K, V>)
    ensures MergeMaps(b, x, x) == x && Clashes(b, x, x) == {}
  {
    forall k ensures Lookup(MergeMaps(b, x, x), k) == Lookup(x, k) {
      LookupMerged(b, x, x, k);
    }
    SameMap(MergeMaps(b, x, x), x);
  }

  lemma MergeSwapped<K(!new), V>(b: map<K, V>, m: map<K, V>, r: map<K, V>)
    ensures Clashes(b, m, r) == Clashes(b, r, m)
    ensures forall k :: k !in Clashes(b, m, r) ==> Lookup(MergeMaps(b, m, r), k) == Lookup(MergeMaps(b, r, m), k)
  {
    forall k ensures k in Clashes(b, m, r) <==> k in Clashes(b, r, m) {
      LookupMerged(b, m, r, k);
      LookupMerged(b, r, m, k);
    }
    forall k | k !in Clashes(b, m, r) ensures Lookup(MergeMaps(b, m, r), k) == Lookup(MergeMaps(b, r, m), k) {
      LookupMerged(b, m, r, k);
      LookupMerged(b, r, m, k);
    }
  }

  lemma MergeAgain<K(!new), V>(b: map<K, V>, m: map<K, V>, r: map<K, V>)
    requires Clashes(b, m, r) == {}
    ensures MergeMaps(b, MergeMaps(b, m, r), r) == MergeMaps(b, m, r)
    ensures Clashes(b, MergeMaps(b, m, r), r) == {}
  {
    var x := MergeMaps(b, m, r);
    forall k ensures Lookup(MergeMaps(b, x, r), k) == Lookup(x, k) && k !in Clashes(b, x, r) {
      LookupMerged(b, m, r, k);
      LookupMerged(b, x, r, k);
    }
    SameMap(MergeMaps(b, x, r), x);
  }

  // ---------- columns of one table ----------

  ghost predicate WellNamed(cols: map<string, Column>) {
    forall n :: n in cols ==> cols[n].name == n
  }

  lemma {:induction false} ByNameWellNamed(cols: seq<Column>)
    ensures WellNamed(ByName(cols))
  {
    if cols != [] {
      ByNameWellNamed(cols[..|cols| - 1]);
    }
  }

  lemma {:induction false} ByNameConcat(a: seq<Column>, c: seq<Column>)
    ensures ByName(a + c) == ByName(a) + ByName(c)
  {
    if c == [] {
      assert a + c == a;
    } else {
      ByNameConcat(a, c[..|c| - 1]);
      assert (a + c)[..|a + c| - 1] == a + c[..|c| - 1];
    }
  }

  lemma {:induction false} KeptByName(cols: seq<Column>, merged: map<string, Column>, n: string)
    requires WellNamed(merged)
    ensures Lookup(ByName(Kept(cols, merged)), n) == if n in ByName(cols) then Lookup(merged, n) else None
  {
    if cols != [] {
      var front, c := cols[..|cols| - 1], cols[|cols| - 1];
      KeptByName(front, merged, n);
      if c.name in merged {
        ByNameConcat(Kept(front, merged), [merged[c.name]]);
        One(merged[c.name]);
      } else {
        assert Kept(front, merged) + [] == Kept(front, merged);
      }
    }
  }

  lemma One(c: Column)
    ensures ByName([c]) == map[c.name := c]
  {}

  lemma {:induction false} AppendedByName(cols: seq<Column>, m: map<string, Column>, b: map<string, Column>, n: string)
    ensures Lookup(ByName(Appended(cols, m, b)), n) == if n !in m && n !in b then Lookup(ByName(cols), n) else None
  {
    hide ByName;
    NoneByName(n);
    if cols != [] {
      var front, c := cols[..|cols| - 1], cols[|cols| - 1];
      AppendedByName(front, m, b, n);
      var kept := Appended(front, m, b);
      assert cols == front + [c];
      SnocByName(front, c, n);
      if c.name !in m && c.name !in b {
        SnocByName(kept, c, n);
      } else {
        assert kept + [] == kept;
      }
    }
  }

  lemma NoneByName(n: string)
    ensures Lookup(ByName([]), n) == None
  {}

  lemma SnocByName(front: seq<Column>, c: Column, n: string)
    ensures Lookup(ByName(front + [c]), n) == if n == c.name then Some(c) else Lookup(ByName(front), n)
  {
    assert (front + [c])[..|front|] == front;
  }

  /** The merged column list holds exactly the merged columns. */
  lemma MergedColumnsExact(b: Table, m: Table, r: Table)
    ensures ByName(MergedColumns(b, m, r)) == MergedByName(b, m, r)
  {
    var bc, mc, rc := ByName(b.columns), ByName(m.columns), ByName(r.columns);
    var merged := MergedByName(b, m, r);
    var kept, added := Kept(m.columns, merged), Appended(r.columns, mc, bc);
    ByNameWellNamed(b.columns);
    ByNameWellNamed(m.columns);
    ByNameWellNamed(r.columns);
    forall n ensures Lookup(ByName(kept + added), n) == Lookup(merged, n) {
      LookupMerged(bc, mc, rc, n);
      KeptByName(m.columns, merged, n);
      AppendedByName(r.columns, mc, bc, n);
      ByNameConcat(kept, added);
      LookupUnion(ByName(kept), ByName(added), n);
    }
    SameMap(ByName(kept + added), merged);
  }

  lemma LookupUnion<K, V>(a: map<K, V>, c: map<K, V>, k: K)
    ensures Lookup(a + c, k) == if k in c then Lookup(c, k) else Lookup(a, k)
  {}

  lemma {:induction false} KeptDistinct(cols: seq<Column>, merged: map<string, Column>)
    requires DistinctNames(cols) && WellNamed(merged)
    ensures DistinctNames(Kept(cols, merged))
    ensures forall i :: 0 <= i < |Kept(cols, merged)| ==> Kept(cols, merged)[i].name in ByName(cols)
  {
    if cols != [] {
      var front, c := cols[..|cols| - 1], cols[|cols| - 1];
      KeptDistinct(front, merged);
      NotAmong(front, c);
    }
  }

  lemma NotAmong(front: seq<Column>, c: Column)
    requires DistinctNames(front + [c])
    ensures c.name !in ByName(front)
  {
    var all := front + [c];
    forall i | 0 <= i < |front| ensures front[i].name != c.name {
      assert all[i].name != all[|front|].name;
    }
    if c.name in ByName(front) {
      var i := ByNameIsListed(front, c.name);
    }
  }

  lemma {:induction false} AppendedDistinct(cols: seq<Column>, m: map<string, Column>, b: map<string, Column>)
    requires DistinctNames(cols)
    ensures DistinctNames(Appended(cols, m, b))
    ensures forall i :: 0 <= i < |Appended(cols, m, b)| ==>
      Appended(cols, m, b)[i].name !in m && Appended(cols, m, b)[i].name in ByName(cols)
  {
    if cols != [] {
      var front, c := cols[..|cols| - 1], cols[|cols| - 1];
      AppendedDistinct(front, m, b);
      assert cols == front + [c];
      NotAmong(front, c);
    }
  }

  /** The merged column list has no duplicates. */
  lemma MergedColumnsDistinct(b: Table, m: Table, r: Table)
    requires DistinctNames(m.columns) && DistinctNames(r.columns)
    ensures DistinctNames(MergedColumns(b, m, r))
  {
    var merged := MergedByName(b, m, r);
    ByNameWellNamed(b.columns);
    ByNameWellNamed(m.columns);
    ByNameWellNamed(r.columns);
    assert WellNamed(merged);
    KeptDistinct(m.columns, merged);
    AppendedDistinct(r.columns, ByName(m.columns), ByName(b.columns));
  }

  /** Merging the merged columns again leaves the list itself unchanged. */
  lemma {:induction false} KeptAll(cols: seq<Column>, merged: map<string, Column>)
    requires DistinctNames(cols)
    requires forall i :: 0 <= i < |cols| ==> cols[i].name in merged && merged[cols[i].name] == cols[i]
    ensures Kept(cols, merged) == cols
  {
    if cols != [] {
      KeptAll(cols[..|cols| - 1], merged);
    }
  }

  lemma {:induction false} NothingAppended(cols: seq<Column>, m: map<string, Column>, b: map<string, Column>)
    requires forall i :: 0 <= i < |cols| ==> cols[i].name in m || cols[i].name in b
    ensures Appended(cols, m, b) == []
  {
    if cols != [] {
      NothingAppended(cols[..|cols| - 1], m, b);
    }
  }

  // ---------- tables ----------

  ghost predicate SameEntry(a: Option<Table>, b: Option<Table>) {
    match (a, b)
    case (None, None) => true
    case (Some(x), Some(y)) => SameTable(x, y)
    case _ => false
  }

  ghost predicate EntryOk(t: Option<Table>) {
    t.Some? ==> DistinctNames(t.value.columns)
  }

  function ColOf(t: Option<Table>, n: string): Option<Column> {
    match t case None => None case Some(x) => Lookup(ByName(x.columns), n)
  }

  lemma EntryUnchangedMain(q: QName, b: Option<Table>, r: Option<Table>)
    ensures SameEntry(MergeTableEntry(b, b, r), r) && TableConflicts(q, b, b, r) == {}
  {
    if b.Some? && r.Some? {
      MergedColumnsExact(b.value, b.value, r.value);
      MergeUnchangedMain(ByName(b.value.columns), ByName(r.value.columns));
    }
  }

  /** Swapping the sides gives the same conflict keys, and the same columns and primary key
      wherever there is no conflict. */
  lemma EntrySwapped(q: QName, b: Option<Table>, m: Option<Table>, r: Option<Table>)
    ensures TableConflicts(q, b, m, r) == TableConflicts(q, b, r, m)
    ensures TableKey(q) !in TableConflicts(q, b, m, r) ==>
      match (MergeTableEntry(b, m, r), MergeTableEntry(b, r, m))
      case (None, None) => true
      case (Some(x), Some(y)) =>
        && (PkKey(q) !in TableConflicts(q, b, m, r) ==> x.pk == y.pk)
        && (forall c :: ColumnKey(q, c) !in TableConflicts(q, b, m, r) ==>
             Lookup(ByName(x.columns), c) == Lookup(ByName(y.columns), c))
      case _ => false
  {
    if b == m {
      EntryUnchangedMain(q, b, r);
    } else if b == r {
      EntryUnchangedMain(q, b, m);
    } else if r != m && b.Some? && m.Some? && r.Some? {
      TablesSwapped(q, b.value, m.value, r.value);
    }
  }

  lemma TablesSwapped(q: QName, b: Table, m: Table, r: Table)
    requires b != m && b != r && m != r
    ensures TableConflicts(q, Some(b), Some(m), Some(r)) == TableConflicts(q, Some(b), Some(r), Some(m))
    ensures PkKey(q) !in TableConflicts(q, Some(b), Some(m), Some(r)) ==>
      MergeTables(b, m, r).pk == MergeTables(b, r, m).pk
    ensures forall c :: ColumnKey(q, c) !in TableConflicts(q, Some(b), Some(m), Some(r)) ==>
      Lookup(ByName(MergeTables(b, m, r).columns), c) == Lookup(ByName(MergeTables(b, r, m).columns), c)
  {
    MergeSwapped(ByName(b.columns), ByName(m.columns), ByName(r.columns));
    MergedColumnsExact(b, m, r);
    MergedColumnsExact(b, r, m);
  }

  /** Merging again after a conflict-free merge finds nothing more to do. */
  lemma EntryAgain(q: QName, b: Option<Table>, m: Option<Table>, r: Option<Table>)
    requires EntryOk(b) && EntryOk(m) && EntryOk(r) && TableConflicts(q, b, m, r) == {}
    ensures MergeTableEntry(b, MergeTableEntry(b, m, r), r) == MergeTableEntry(b, m, r)
    ensures TableConflicts(q, b, MergeTableEntry(b, m, r), r) == {}
  {
    hide MergeTables, DistinctNames;
    if b != r && b.Some? && m.Some? && r.Some? && (b == m || r != m) {
      TablesAgain(q, b.value, m.value, r.value);
    } else {
      WholeEntryAgain(q, b, m, r);
    }
  }

  /** An entry that is taken whole. */
  lemma WholeEntryAgain(q: QName, b: Option<Table>, m: Option<Table>, r: Option<Table>)
    requires TableConflicts(q, b, m, r) == {}
    requires !(b != r && b.Some? && m.Some? && r.Some? && (b == m || r != m))
    ensures MergeTableEntry(b, MergeTableEntry(b, m, r), r) == MergeTableEntry(b, m, r)
    ensures TableConflicts(q, b, MergeTableEntry(b, m, r), r) == {}
  {
    hide MergeTables, ByName, Clashes;
  }

  lemma TablesAgain(q: QName, b: Table, m: Table, r: Table)
    requires DistinctNames(m.columns) && DistinctNames(r.columns)
    requires TableConflicts(q, Some(b), Some(m), Some(r)) == {} && b != r && (b == m || r != m)
    ensures var x := MergeTables(b, m, r);
      MergeTables(b, x, r) == x && TableConflicts(q, Some(b), Some(x), Some(r)) == {}
  {
    var bc, mc, rc := ByName(b.columns), ByName(m.columns), ByName(r.columns);
    forall c ensures c !in Clashes(bc, mc, rc) {
      assert ColumnKey(q, c) !in TableConflicts(q, Some(b), Some(m), Some(r));
    }
    assert PkKey(q) !in TableConflicts(q, Some(b), Some(m), Some(r));
    MergeAgain(bc, mc, rc);
    MergedColumnsExact(b, m, r);
    var x := MergeTables(b, m, r);
    assert ByName(x.columns) == MergedByName(b, m, r);
    assert MergedByName(b, x, r) == ByName(x.columns);
    ColumnsAgain(b, m, r);
  }

  lemma ColumnsAgain(b: Table, m: Table, r: Table)
    requires DistinctNames(m.columns) && DistinctNames(r.columns)
    requires ByName(MergedColumns(b, m, r)) == MergedByName(b, m, r)
    requires var x := MergeTables(b, m, r); MergedByName(b, x, r) == ByName(x.columns)
    ensures MergedColumns(b, MergeTables(b, m, r), r) == MergedColumns(b, m, r)
  {
    var x := MergeTables(b, m, r);
    MergedColumnsDistinct(b, m, r);
    forall i | 0 <= i < |x.columns|
      ensures x.columns[i].name in ByName(x.columns) && ByName(x.columns)[x.columns[i].name] == x.columns[i]
    {
      ByNameFinds(x.columns, i);
    }
    KeptAll(x.columns, ByName(x.columns));
    forall i | 0 <= i < |r.columns|
      ensures r.columns[i].name in ByName(x.columns) || r.columns[i].name in ByName(b.columns)
    {
      ByNameFinds(r.columns, i);
      LookupMerged(ByName(b.columns), ByName(m.columns), ByName(r.columns), r.columns[i].name);
    }
    NothingAppended(r.columns, ByName(x.columns), ByName(b.columns));
  }

  lemma NoColumnClash(q: QName, b: Table, m: Table, r: Table, n: string)
    requires b != r && (b == m || r != m)
    ensures ColumnKey(q, n) in TableConflicts(q, Some(b), Some(m), Some(r)) <==>
      Clash(ColOf(Some(b), n), ColOf(Some(m), n), ColOf(Some(r), n))
    ensures PkKey(q) in TableConflicts(q, Some(b), Some(m), Some(r)) <==> Clash(Some(b.pk), Some(m.pk), Some(r.pk))
    ensures TableKey(q) !in TableConflicts(q, Some(b), Some(m), Some(r))
  {
    LookupMerged(ByName(b.columns), ByName(m.columns), ByName(r.columns), n);
    hide ByName;
  }

  lemma MergedColumn(b: Table, m: Table, r: Table, n: string)
    ensures ColOf(Some(MergeTables(b, m, r)), n) == Pick(ColOf(Some(b), n), ColOf(Some(m), n), ColOf(Some(r), n))
  {
    MergedColumnsExact(b, m, r);
    LookupMerged(ByName(b.columns), ByName(m.columns), ByName(r.columns), n);
    hide ByName, MergedColumns;
  }

  // ---------- whole schemas ----------

  lemma EntryIsMerged(t: Three, q: QName)
    ensures Lookup(MergedTableMap(t), q) == EntryAt(t, q)
  {}

  lemma NoTableConflicts(t: Three)
    requires forall q :: ConflictsAt(t, q) == {}
    ensures AllTableConflicts(t) == {}
  {}

  ghost predicate SchemaOk(t: Three) {
    TablesOk(t.base) && TablesOk(t.main) && TablesOk(t.branch)
  }

  /** An unchanged MAIN takes BRANCH's schema, up to the order of columns. */
  lemma UnchangedMainTakesBranch(b: Schema, r: Schema)
    ensures SameSchema(Merged(Three(b, b, r)), r) && Conflicts(Three(b, b, r)) == {}
  {
    var t := Three(b, b, r);
    MergeUnchangedMain(AsMap(b.schemas), AsMap(r.schemas));
    MergeUnchangedMain(b.indexes, r.indexes);
    MergeUnchangedMain(b.constraints, r.constraints);
    MergeUnchangedMain(b.views, r.views);
    MergeUnchangedMain(b.matviews, r.matviews);
    MergeUnchangedMain(b.functions, r.functions);
    MergeUnchangedMain(b.sequences, r.sequences);
    forall q ensures SameEntry(Lookup(MergedTableMap(t), q), Lookup(r.tables, q)) && ConflictsAt(t, q) == {} {
      EntryIsMerged(t, q);
      EntryUnchangedMain(q, Lookup(b.tables, q), Lookup(r.tables, q));
    }
    SameTables(MergedTableMap(t), r.tables);
    NoTableConflicts(t);
    assert AsMap(r.schemas).Keys == r.schemas;
  }

  lemma SameTables(a: map<QName, Table>, b: map<QName, Table>)
    requires forall q :: SameEntry(Lookup(a, q), Lookup(b, q))
    ensures a.Keys == b.Keys && forall q :: q in a ==> SameTable(a[q], b[q])
  {
    forall q ensures (q in a <==> q in b) && (q in a ==> SameTable(a[q], b[q])) {
      assert SameEntry(Lookup(a, q), Lookup(b, q));
    }
  }

  /** An unchanged BRANCH leaves MAIN exactly as it is. */
  lemma UnchangedBranchKeepsMain(b: Schema, m: Schema)
    ensures Merged(Three(b, m, b)) == m && Conflicts(Three(b, m, b)) == {}
  {
    var t := Three(b, m, b);
    MergeUnchangedBranch(AsMap(b.schemas), AsMap(m.schemas));
    MergeUnchangedBranch(b.indexes, m.indexes);
    MergeUnchangedBranch(b.constraints, m.constraints);
    MergeUnchangedBranch(b.views, m.views);
    MergeUnchangedBranch(b.matviews, m.matviews);
    MergeUnchangedBranch(b.functions, m.functions);
    MergeUnchangedBranch(b.sequences, m.sequences);
    forall q ensures Lookup(MergedTableMap(t), q) == Lookup(m.tables, q) && ConflictsAt(t, q) == {} {
      EntryIsMerged(t, q);
    }
    SameMap(MergedTableMap(t), m.tables);
    NoTableConflicts(t);
    assert AsMap(m.schemas).Keys == m.schemas;
  }

  /** The same change on both sides is kept, without conflict. */
  lemma SameChangeIsKept(b: Schema, x: Schema)
    ensures Merged(Three(b, x, x)) == x && Conflicts(Three(b, x, x)) == {}
  {
    var t := Three(b, x, x);
    MergeSameChange(AsMap(b.schemas), AsMap(x.schemas));
    MergeSameChange(b.indexes, x.indexes);
    MergeSameChange(b.constraints, x.constraints);
    MergeSameChange(b.views, x.views);
    MergeSameChange(b.matviews, x.matviews);
    MergeSameChange(b.functions, x.functions);
    MergeSameChange(b.sequences, x.sequences);
    forall q ensures Lookup(MergedTableMap(t), q) == Lookup(x.tables, q) && ConflictsAt(t, q) == {} {
      EntryIsMerged(t, q);
    }
    SameMap(MergedTableMap(t), x.tables);
    NoTableConflicts(t);
    assert AsMap(x.schemas).Keys == x.schemas;
  }

  function Swap(t: Three): Three {
    Three(t.base, t.branch, t.main)
  }

  /** Swapping MAIN and BRANCH reports the same conflict keys. */
  lemma SwapKeepsConflicts(t: Three)
    ensures Conflicts(Swap(t)) == Conflicts(t)
  {
    MergeSwapped(AsMap(t.base.schemas), AsMap(t.main.schemas), AsMap(t.branch.schemas));
    MergeSwapped(t.base.indexes, t.main.indexes, t.branch.indexes);
    MergeSwapped(t.base.constraints, t.main.constraints, t.branch.constraints);
    MergeSwapped(t.base.views, t.main.views, t.branch.views);
    MergeSwapped(t.base.matviews, t.main.matviews, t.branch.matviews);
    MergeSwapped(t.base.functions, t.main.functions, t.branch.functions);
    MergeSwapped(t.base.sequences, t.main.sequences, t.branch.sequences);
    forall q ensures ConflictsAt(t, q) == ConflictsAt(Swap(t), q) {
      EntrySwapped(q, Lookup(t.base.tables, q), Lookup(t.main.tables, q), Lookup(t.branch.tables, q));
    }
    assert AllTableConflicts(t) == AllTableConflicts(Swap(t));
  }

  /** What the merge holds under a key; tables are looked at column by column. */
  datatype Entry =
    | SchemaEntry(present: bool)
    | TableEntry(present: bool)
    | ColumnEntry(column: Option<Column>)
    | PkEntry(pk: Option<seq<string>>)
    | IndexEntry(index: Option<Index>)
    | ConstraintEntry(constraint: Option<Definition>)
    | TextEntry(text: Option<string>)
    | SequenceEntry(sequence: Option<Sequence>)

  function EntryOf(s: Schema, k: ObjectKey): Entry {
    match k
    case SchemaKey(n) => SchemaEntry(n in s.schemas)
    case TableKey(q) => TableEntry(q in s.tables)
    case ColumnKey(q, c) => ColumnEntry(if q in s.tables then Lookup(ByName(s.tables[q].columns), c) else None)
    case PkKey(q) => PkEntry(if q in s.tables then s.tables[q].pk else None)
    case IndexKey(i) => IndexEntry(Lookup(s.indexes, i))
    case ConstraintKey(c) => ConstraintEntry(Lookup(s.constraints, c))
    case ViewKey(v) => TextEntry(Lookup(s.views, v))
    case MatviewKey(v) => TextEntry(Lookup(s.matviews, v))
    case FunctionKey(f) => TextEntry(Lookup(s.functions, f))
    case SequenceKey(n) => SequenceEntry(Lookup(s.sequences, n))
  }

  /** A column or primary key also counts as conflicting when its whole table does. */
  ghost predicate InConflict(t: Three, k: ObjectKey) {
    || k in Conflicts(t)
    || (k.ColumnKey? && TableKey(k.table) in Conflicts(t))
    || (k.PkKey? && TableKey(k.table) in Conflicts(t))
  }

  /** Swapping MAIN and BRANCH gives the same merged entry at every key without conflict. */
  lemma SwapKeepsEntries(t: Three, k: ObjectKey)
    requires !InConflict(t, k)
    ensures EntryOf(Merged(t), k) == EntryOf(Merged(Swap(t)), k)
  {
    hide MergeMaps, Clashes, MergedTableMap, AllTableConflicts;
    match k
    case SchemaKey(n) =>
      MergeSwapped(AsMap(t.base.schemas), AsMap(t.main.schemas), AsMap(t.branch.schemas));
      SameLookupSameKey(MergeMaps(AsMap(t.base.schemas), AsMap(t.main.schemas), AsMap(t.branch.schemas)),
        MergeMaps(AsMap(t.base.schemas), AsMap(t.branch.schemas), AsMap(t.main.schemas)), n);
    case IndexKey(i) => MergeSwapped(t.base.indexes, t.main.indexes, t.branch.indexes);
    case ConstraintKey(c) => MergeSwapped(t.base.constraints, t.main.constraints, t.branch.constraints);
    case ViewKey(v) => MergeSwapped(t.base.views, t.main.views, t.branch.views);
    case MatviewKey(v) => MergeSwapped(t.base.matviews, t.main.matviews, t.branch.matviews);
    case FunctionKey(f) => MergeSwapped(t.base.functions, t.main.functions, t.branch.functions);
    case SequenceKey(n) => MergeSwapped(t.base.sequences, t.main.sequences, t.branch.sequences);
    case _ => TableKeySwapped(t, k);
  }

  lemma SameLookupSameKey(a: map<string, ()>, b: map<string, ()>, n: string)
    requires Lookup(a, n) == Lookup(b, n)
    ensures n in a <==> n in b
  {}

  lemma TableKeySwapped(t: Three, k: ObjectKey)
    requires !InConflict(t, k) && (k.TableKey? || k.ColumnKey? || k.PkKey?)
    ensures EntryOf(Merged(t), k) == EntryOf(Merged(Swap(t)), k)
  {
    hide Conflicts, MergedTableMap, MergeTableEntry, TableConflicts;
    var q := k.table;
    EntryIsMerged(t, q);
    EntryIsMerged(Swap(t), q);
    ConflictsAtCounted(t, q);
    EntrySwapped(q, Lookup(t.base.tables, q), Lookup(t.main.tables, q), Lookup(t.branch.tables, q));
  }

  lemma ConflictsAtCounted(t: Three, q: QName)
    ensures ConflictsAt(t, q) <= Conflicts(t)
  {
    forall k | k in ConflictsAt(t, q) ensures k in AllTableConflicts(t) {
      assert q in AllKeys(t.base.tables, t.main.tables, t.branch.tables);
    }
  }

  /** Merging again with the merge in MAIN's place: nothing in conflict, nothing to change. */
  lemma MergeAgainIsStable(t: Three)
    requires SchemaOk(t) && Conflicts(t) == {}
    ensures var again := Three(t.base, Merged(t), t.branch); Merged(again) == Merged(t) && Conflicts(again) == {}
  {
    var again := Three(t.base, Merged(t), t.branch);
    hide MergeMaps, Clashes, MergedTableMap, MergeTableEntry, TableConflicts, AllTableConflicts;
    PartsConflictFree(t);
    MergeAgain(AsMap(t.base.schemas), AsMap(t.main.schemas), AsMap(t.branch.schemas));
    MergeAgain(t.base.indexes, t.main.indexes, t.branch.indexes);
    MergeAgain(t.base.constraints, t.main.constraints, t.branch.constraints);
    MergeAgain(t.base.views, t.main.views, t.branch.views);
    MergeAgain(t.base.matviews, t.main.matviews, t.branch.matviews);
    MergeAgain(t.base.functions, t.main.functions, t.branch.functions);
    MergeAgain(t.base.sequences, t.main.sequences, t.branch.sequences);
    var ns := MergeMaps(AsMap(t.base.schemas), AsMap(t.main.schemas), AsMap(t.branch.schemas));
    UnitMap(ns);
    forall q ensures Lookup(MergedTableMap(again), q) == Lookup(MergedTableMap(t), q) && ConflictsAt(again, q) == {} {
      EntryIsMerged(t, q);
      EntryIsMerged(again, q);
      ConflictsAtCounted(t, q);
      EntryAgain(q, Lookup(t.base.tables, q), Lookup(t.main.tables, q), Lookup(t.branch.tables, q));
    }
    SameMap(MergedTableMap(again), MergedTableMap(t));
    NoTableConflicts(again);
  }

  lemma UnitMap(m: map<string, ()>)
    ensures AsMap(m.Keys) == m
  {
    forall k | k in m ensures m[k] == () {
      match m[k] case () =>
    }
  }

  lemma PartsConflictFree(t: Three)
    requires Conflicts(t) == {}
    ensures Clashes(AsMap(t.base.schemas), AsMap(t.main.schemas), AsMap(t.branch.schemas)) == {}
    ensures Clashes(t.base.indexes, t.main.indexes, t.branch.indexes) == {}
    ensures Clashes(t.base.constraints, t.main.constraints, t.branch.constraints) == {}
    ensures Clashes(t.base.views, t.main.views, t.branch.views) == {}
    ensures Clashes(t.base.matviews, t.main.matviews, t.branch.matviews) == {}
    ensures Clashes(t.base.functions, t.main.functions, t.branch.functions) == {}
    ensures Clashes(t.base.sequences, t.main.sequences, t.branch.sequences) == {}
  {
    assert forall n :: n in Clashes(AsMap(t.base.schemas), AsMap(t.main.schemas), AsMap(t.branch.schemas)) ==>
      SchemaKey(n) in Conflicts(t);
    assert forall k :: k in Clashes(t.base.indexes, t.main.indexes, t.branch.indexes) ==> IndexKey(k) in Conflicts(t);
    assert forall k :: k in Clashes(t.base.constraints, t.main.constraints, t.branch.constraints) ==>
      ConstraintKey(k) in Conflicts(t);
    assert forall k :: k in Clashes(t.base.views, t.main.views, t.branch.views) ==> ViewKey(k) in Conflicts(t);
    assert forall k :: k in Clashes(t.base.matviews, t.main.matviews, t.branch.matviews) ==>
      MatviewKey(k) in Conflicts(t);
    assert forall k :: k in Clashes(t.base.functions, t.main.functions, t.branch.functions) ==>
      FunctionKey(k) in Conflicts(t);
    assert forall k :: k in Clashes(t.base.sequences, t.main.sequences, t.branch.sequences) ==>
      SequenceKey(k) in Conflicts(t);
  }

  /** Drift stays: whatever BRANCH left as in BASE, the merge holds as MAIN has it. */
  lemma DriftIsKept(t: Three, k: ObjectKey)
    requires EntryOf(t.branch, k) == EntryOf(t.base, k)
    requires k.ColumnKey? || k.PkKey? ==>
      k.table in t.base.tables && k.table in t.main.tables && k.table in t.branch.tables
    ensures EntryOf(Merged(t), k) == EntryOf(t.main, k)
  {
    hide MergeMaps, Clashes, MergedTableMap, MergeTables;
    match k
    case SchemaKey(n) =>
      LookupMerged(AsMap(t.base.schemas), AsMap(t.main.schemas), AsMap(t.branch.schemas), n);
    case TableKey(q) => EntryIsMerged(t, q);
    case ColumnKey(q, c) =>
      EntryIsMerged(t, q);
      ColumnDriftKept(t.base.tables[q], t.main.tables[q], t.branch.tables[q], c);
    case PkKey(q) =>
      EntryIsMerged(t, q);
      PkDriftKept(t.base.tables[q], t.main.tables[q], t.branch.tables[q]);
    case IndexKey(i) => LookupMerged(t.base.indexes, t.main.indexes, t.branch.indexes, i);
    case ConstraintKey(c) => LookupMerged(t.base.constraints, t.main.constraints, t.branch.constraints, c);
    case ViewKey(v) => LookupMerged(t.base.views, t.main.views, t.branch.views, v);
    case MatviewKey(v) => LookupMerged(t.base.matviews, t.main.matviews, t.branch.matviews, v);
    case FunctionKey(f) => LookupMerged(t.base.functions, t.main.functions, t.branch.functions, f);
    case SequenceKey(n) => LookupMerged(t.base.sequences, t.main.sequences, t.branch.sequences, n);
  }

  lemma PkDriftKept(b: Table, m: Table, r: Table)
    requires r.pk == b.pk
    ensures MergeTables(b, m, r).pk == m.pk
  {}

  lemma ColumnDriftKept(b: Table, m: Table, r: Table, c: string)
    requires Lookup(ByName(r.columns), c) == Lookup(ByName(b.columns), c)
    ensures Lookup(ByName(MergeTables(b, m, r).columns), c) == Lookup(ByName(m.columns), c)
  {
    MergedColumnsExact(b, m, r);
    LookupMerged(ByName(b.columns), ByName(m.columns), ByName(r.columns), c);
  }
}
