/** The three-way schema merge key by key: what is in conflict and what the merge holds. */
module SchemaEntries {
  import opened Types
  import opened Catalog
  import opened SchemaMerge
  import opened SchemaLaws
  import opened SchemaDrift

  /** Both sides changed what the key names, to different results. */
  predicate BothMoved(t: Three, k: ObjectKey) {
    && EntryOf(t.main, k) != EntryOf(t.base, k) && EntryOf(t.branch, k) != EntryOf(t.base, k)
    && EntryOf(t.branch, k) != EntryOf(t.main, k)
  }

  predicate OnAllSides(t: Three, q: QName) {
    q in t.base.tables && q in t.main.tables && q in t.branch.tables
  }

  /** Both sides changed the table, to different results. */
  predicate TablesMoved(t: Three, q: QName) {
    && Lookup(t.main.tables, q) != Lookup(t.base.tables, q) && Lookup(t.branch.tables, q) != Lookup(t.base.tables, q)
    && Lookup(t.branch.tables, q) != Lookup(t.main.tables, q)
  }

  /** A column or key is in conflict where the table is on all three sides and both changed it
      differently, a table where both changed it differently and one of the three lacks it,
      anything else where both changed it differently. */
  lemma ConflictIff(t: Three, k: ObjectKey)
    ensures k in Conflicts(t) <==> match k
      case TableKey(q) => TablesMoved(t, q) && !OnAllSides(t, q)
      case ColumnKey(q, _) => OnAllSides(t, q) && BothMoved(t, k)
      case PkKey(q) => OnAllSides(t, q) && BothMoved(t, k)
      case _ => BothMoved(t, k)
  {
    hide Conflicts, EntryOf;
    if Whole(k) {
      InWholeConflicts(t, k);
      WholeMoved(t, k);
    } else {
      hide TableConflicts;
      InTableReports(t, k);
      TableMoved(t, k);
    }
  }

  lemma WholeMoved(t: Three, k: ObjectKey)
    requires Whole(k)
    ensures WholeClash(t, k) <==> BothMoved(t, k)
  {}

  lemma TableMoved(t: Three, k: ObjectKey)
    requires !Whole(k)
    ensures k in ConflictsAt(t, k.table) <==> match k
      case TableKey(q) => TablesMoved(t, q) && !OnAllSides(t, q)
      case _ => OnAllSides(t, k.table) && BothMoved(t, k)
  {
    hide TableConflicts, ByName;
    InTableConflicts(k, Lookup(t.base.tables, k.table), Lookup(t.main.tables, k.table),
      Lookup(t.branch.tables, k.table));
  }

  /** The table of the key, if it has one, is in conflict as a whole. */
  predicate WholeTableInConflict(t: Three, k: ObjectKey) {
    (k.TableKey? || k.ColumnKey? || k.PkKey?) && TableKey(k.table) in Conflicts(t)
  }

  /** At every key the merge holds what BRANCH has where MAIN left BASE's entry, and what MAIN has
      otherwise; where a whole table is in conflict it is MAIN's. */
  lemma MergeIsExact(t: Three, k: ObjectKey)
    ensures EntryOf(Merged(t), k) ==
      if EntryOf(t.main, k) == EntryOf(t.base, k) && !WholeTableInConflict(t, k) then EntryOf(t.branch, k)
      else EntryOf(t.main, k)
  {
    hide Conflicts, MergeMaps, MergedTableMap, ByName;
    match k
    case SchemaKey(n) =>
      LookupMerged(AsMap(t.base.schemas), AsMap(t.main.schemas), AsMap(t.branch.schemas), n);
    case IndexKey(i) => LookupMerged(t.base.indexes, t.main.indexes, t.branch.indexes, i);
    case ConstraintKey(c) => LookupMerged(t.base.constraints, t.main.constraints, t.branch.constraints, c);
    case ViewKey(v) => LookupMerged(t.base.views, t.main.views, t.branch.views, v);
    case MatviewKey(v) => LookupMerged(t.base.matviews, t.main.matviews, t.branch.matviews, v);
    case FunctionKey(f) => LookupMerged(t.base.functions, t.main.functions, t.branch.functions, f);
    case SequenceKey(n) => LookupMerged(t.base.sequences, t.main.sequences, t.branch.sequences, n);
    case _ => TableEntryIsExact(t, k);
  }

  lemma TableEntryIsExact(t: Three, k: ObjectKey)
    requires !Whole(k)
    ensures EntryOf(Merged(t), k) ==
      if EntryOf(t.main, k) == EntryOf(t.base, k) && !WholeTableInConflict(t, k) then EntryOf(t.branch, k)
      else EntryOf(t.main, k)
  {
    hide Conflicts, MergeMaps, MergedTableMap, MergeTables, ByName;
    var q := k.table;
    EntryIsMerged(t, q);
    ConflictIff(t, TableKey(q));
    if OnAllSides(t, q) {
      var b, m, r := t.base.tables[q], t.main.tables[q], t.branch.tables[q];
      MergedPkIs(b, m, r);
      if k.ColumnKey? {
        MergedColumnIs(b, m, r, k.column);
      }
    }
  }

  lemma MergedPkIs(b: Table, m: Table, r: Table)
    ensures MergeTables(b, m, r).pk == if m.pk == b.pk then r.pk else m.pk
  {}

  lemma MergedColumnIs(b: Table, m: Table, r: Table, n: string)
    ensures var (x, y, z) := (Lookup(ByName(b.columns), n), Lookup(ByName(m.columns), n), Lookup(ByName(r.columns), n));
      Lookup(ByName(MergeTables(b, m, r).columns), n) == if y == x then z else y
  {
    MergedColumnsExact(b, m, r);
    LookupMerged(ByName(b.columns), ByName(m.columns), ByName(r.columns), n);
  }

  /** What is in conflict, alone or with its table, stays as MAIN has it; a table in conflict
      stays as a whole. */
  lemma ConflictKeepsMain(t: Three, k: ObjectKey)
    requires InConflict(t, k)
    ensures EntryOf(Merged(t), k) == EntryOf(t.main, k)
    ensures WholeTableInConflict(t, k) ==> Lookup(Merged(t).tables, k.table) == Lookup(t.main.tables, k.table)
  {
    hide Conflicts, Merged, EntryOf;
    MergeIsExact(t, k);
    ConflictIff(t, k);
    if WholeTableInConflict(t, k) {
      TableInConflict(t, k.table);
    }
  }

  lemma TableInConflict(t: Three, q: QName)
    requires TableKey(q) in Conflicts(t)
    ensures Lookup(Merged(t).tables, q) == Lookup(t.main.tables, q)
  {
    hide Conflicts, MergeMaps, MergedTableMap, MergeTables;
    ConflictIff(t, TableKey(q));
    EntryIsMerged(t, q);
  }

  // ---------- the order of columns ----------

  /** A column named x stands before one named y. */
  ghost predicate Ahead(cols: seq<Column>, x: string, y: string) {
    exists i, j :: 0 <= i < j < |cols| && cols[i].name == x && cols[j].name == y
  }

  lemma AheadInFront(cols: seq<Column>, x: string, y: string)
    requires cols != [] && Ahead(cols[..|cols| - 1], x, y)
    ensures Ahead(cols, x, y)
  {
    var i, j :| 0 <= i < j < |cols| - 1 && cols[..|cols| - 1][i].name == x && cols[..|cols| - 1][j].name == y;
    assert cols[i].name == x && cols[j].name == y;
  }

  lemma AheadOfLast(cols: seq<Column>, x: string)
    requires cols != [] && x in ByName(cols[..|cols| - 1])
    ensures Ahead(cols, x, cols[|cols| - 1].name)
  {
    var i := ByNameIsListed(cols[..|cols| - 1], x);
    assert cols[i].name == x;
  }

  /** The columns of out stand in the order that cols gives their names. */
  ghost predicate Follows(out: seq<Column>, cols: seq<Column>) {
    && (forall i :: 0 <= i < |out| ==> out[i].name in ByName(cols))
    && forall i, j :: 0 <= i < j < |out| ==> Ahead(cols, out[i].name, out[j].name)
  }

  lemma FollowsMore(out: seq<Column>, cols: seq<Column>, c: Column)
    requires cols != [] && Follows(out, cols[..|cols| - 1]) && c.name == cols[|cols| - 1].name
    ensures Follows(out, cols) && Follows(out + [c], cols)
  {
    hide Ahead;
    var all := out + [c];
    forall i, j | 0 <= i < j < |all| ensures Ahead(cols, all[i].name, all[j].name) {
      if j < |out| {
        assert Ahead(cols[..|cols| - 1], out[i].name, out[j].name);
        AheadInFront(cols, out[i].name, out[j].name);
      } else {
        AheadOfLast(cols, out[i].name);
      }
    }
    forall i, j | 0 <= i < j < |out| ensures Ahead(cols, out[i].name, out[j].name) {
      assert all[i] == out[i] && all[j] == out[j];
    }
  }

  lemma {:induction false} KeptFollows(cols: seq<Column>, merged: map<string, Column>)
    requires WellNamed(merged)
    ensures Follows(Kept(cols, merged), cols)
  {
    if cols != [] {
      var front, c := cols[..|cols| - 1], cols[|cols| - 1];
      KeptFollows(front, merged);
      hide Follows;
      FollowsMore(Kept(front, merged), cols, if c.name in merged then merged[c.name] else c);
      assert Kept(front, merged) + [] == Kept(front, merged);
    }
  }

  lemma {:induction false} AppendedFollows(cols: seq<Column>, m: map<string, Column>, b: map<string, Column>)
    ensures Follows(Appended(cols, m, b), cols)
    ensures forall i :: 0 <= i < |Appended(cols, m, b)| ==> Appended(cols, m, b)[i].name !in m
  {
    if cols != [] {
      var front, c := cols[..|cols| - 1], cols[|cols| - 1];
      AppendedFollows(front, m, b);
      hide Follows;
      FollowsMore(Appended(front, m, b), cols, c);
      assert Appended(front, m, b) + [] == Appended(front, m, b);
    }
  }

  /** Columns that MAIN has keep MAIN's order and come first, the others keep BRANCH's. */
  lemma MergedColumnOrder(b: Table, m: Table, r: Table, i: nat, j: nat)
    requires i < j < |MergedColumns(b, m, r)|
    ensures var (x, y) := (MergedColumns(b, m, r)[i].name, MergedColumns(b, m, r)[j].name);
      if y in ByName(m.columns) then Ahead(m.columns, x, y)
      else x in ByName(m.columns) || Ahead(r.columns, x, y)
  {
    hide Ahead, ByName, MergeMaps, Kept, Appended;
    var merged := MergedByName(b, m, r);
    MergedWellNamed(b, m, r);
    KeptFollows(m.columns, merged);
    AppendedFollows(r.columns, ByName(m.columns), ByName(b.columns));
  }

  lemma MergedWellNamed(b: Table, m: Table, r: Table)
    ensures WellNamed(MergedByName(b, m, r))
  {
    ByNameWellNamed(b.columns);
    ByNameWellNamed(m.columns);
    ByNameWellNamed(r.columns);
  }
}
