/** Applying the three-way schema diff to MAIN and diffing again. */
module DdlAgain {
  import opened Types
  import opened Catalog
  import opened SchemaMerge
  import opened SchemaLaws
  import opened Ddl
  import opened DdlProof
  import opened DdlTables
  import opened DdlTheorem
  import opened DdlLimits
  import opened DdlDrift
  import opened SchemaClosed
  import opened DdlIff

  // ---------- MAIN after apply ----------

  function Kept(s: map<string, Column>, cols: seq<Column>): seq<Column> {
    seq(|cols|, i requires 0 <= i < |cols| => TargetColumn(s, cols[i]))
  }

  function AfterTable(s: Option<Table>, t: Table): Table {
    match s
    case None => t
    case Some(o) => Table(Kept(ByName(o.columns), t.columns), t.pk)
  }

  /** The schema that the script leaves: the target, except for what is never altered. */
  function After(c: Pair): Schema {
    c.tgt.(
      tables := map q | q in c.tgt.tables :: AfterTable(Lookup(c.src.tables, q), c.tgt.tables[q]),
      indexes := KeepOld(c.src.indexes, c.tgt.indexes),
      matviews := KeepOld(c.src.matviews, c.tgt.matviews),
      sequences := Target(c).sequences)
  }

  lemma {:induction false} KeptByName(s: map<string, Column>, cols: seq<Column>)
    ensures ByName(Kept(s, cols)) == map n | n in ByName(cols) :: TargetColumn(s, ByName(cols)[n])
  {
    if cols != [] {
      KeptByName(s, cols[..|cols| - 1]);
      assert Kept(s, cols)[..|cols| - 1] == Kept(s, cols[..|cols| - 1]);
    }
  }

  lemma AfterIsTarget(c: Pair)
    ensures Load(After(c)) == Target(c)
  {
    forall q | q in c.tgt.tables && q in c.src.tables
      ensures LoadTable(After(c).tables[q]) == TargetTable(c.src.tables[q], c.tgt.tables[q])
    {
      KeptByName(ByName(c.src.tables[q].columns), c.tgt.tables[q].columns);
    }
    hide ByName, Kept;
  }

  lemma KeptDistinct(s: map<string, Column>, cols: seq<Column>)
    requires DistinctNames(cols)
    ensures DistinctNames(Kept(s, cols))
  {}

  // ---------- maps ----------

  function OldIfBoth<V>(m: Option<V>, x: Option<V>): Option<V> {
    if m.Some? && x.Some? then m else x
  }

  /** Diffing an entry again whose content is never altered. */
  lemma EntryAgainFrozen<V>(b: Option<V>, m: Option<V>, r: Option<V>)
    requires !Clash(b, m, r)
    ensures var x := OldIfBoth(m, Pick(b, m, r));
      !Clash(b, x, r) && (Pick(b, x, r).Some? <==> x.Some?)
  {}

  /** f is MAIN's sequence once tables are altered. */
  function AfterSequence(f: Option<Sequence>, x: Option<Sequence>): Option<Sequence> {
    if f.Some? && x.Some? then Some(f.value.(lastValue := x.value.lastValue)) else x
  }

  function FollowedAt(c: Pair, k: QName): Option<Sequence> {
    if k in c.src.sequences then Some(Followed(c, k)) else None
  }

  function LastOf(s: Option<Sequence>): Option<Option<int>> {
    match s case None => None case Some(q) => Some(q.lastValue)
  }

  /** BRANCH changed a sequence of MAIN, and the script brings a part of the change without
      its parameters or owner. */
  predicate MixedSequence(b: Option<Sequence>, m: Option<Sequence>, r: Option<Sequence>, f: Option<Sequence>) {
    && r != b && r.Some? && f.Some? && (r.value.params != f.value.params || r.value.ownedBy != f.value.ownedBy)
    && Some(f.value.(lastValue := r.value.lastValue)) !in {m, b}
  }

  lemma SequenceAgain(b: Option<Sequence>, m: Option<Sequence>, r: Option<Sequence>, f: Option<Sequence>)
    requires !Clash(b, m, r) && (f.Some? <==> m.Some?)
    requires f.Some? ==> f.value.ownedBy == m.value.ownedBy && f.value.lastValue == m.value.lastValue
    ensures var x := AfterSequence(f, Pick(b, m, r));
      (Clash(b, x, r) <==> MixedSequence(b, m, r, f)) && LastOf(Pick(b, x, r)) == LastOf(x)
  {}

  function AfterColumn(m: Option<Column>, x: Option<Column>): Option<Column> {
    if m.Some? && x.Some? then Some(x.value.(identity := m.value.identity)) else x
  }

  predicate MixedColumn(s: Option<Column>, t: Option<Column>) {
    s.Some? && t.Some? && s.value.identity != t.value.identity
    && s.value.(identity := None) != t.value.(identity := None)
  }

  lemma ColumnAgain(b: Option<Column>, m: Option<Column>, r: Option<Column>)
    requires !Clash(b, m, r)
    ensures var x := AfterColumn(m, Pick(b, m, r));
      (Clash(b, x, r) <==> MixedColumn(m, Pick(b, m, r))) && Shown(Pick(b, x, r)) == Shown(x)
  {}

  // ---------- one table ----------

  function PkOf(t: Option<Table>): Option<seq<string>> {
    match t case None => None case Some(x) => KeyOrNone(x.pk)
  }

  function AfterEntry(m: Option<Table>, x: Option<Table>): Option<Table> {
    match x case None => None case Some(t) => Some(AfterTable(m, t))
  }

  lemma AfterColumns(m: Table, x: Table, n: string)
    ensures ColOf(AfterEntry(Some(m), Some(x)), n) == AfterColumn(ColOf(Some(m), n), ColOf(Some(x), n))
  {
    KeptByName(ByName(m.columns), x.columns);
    ByNameWellNamed(x.columns);
  }

  lemma AfterItself(m: Table)
    requires DistinctNames(m.columns)
    ensures AfterTable(Some(m), m) == m
  {
    forall i | 0 <= i < |m.columns| ensures TargetColumn(ByName(m.columns), m.columns[i]) == m.columns[i] {
      ByNameFinds(m.columns, i);
    }
  }

  ghost predicate MixedTable(m: Option<Table>, x: Option<Table>) {
    exists n :: MixedColumn(ColOf(m, n), ColOf(x, n))
  }

  /** The second diff of a table agrees with what is there in everything that is written. */
  ghost predicate Agrees(z: Option<Table>, x: Option<Table>) {
    && (z.Some? <==> x.Some?) && PkOf(z) == PkOf(x)
    && forall n :: Shown(ColOf(z, n)) == Shown(ColOf(x, n))
  }

  /** One column of a table that was merged column by column. */
  lemma MergedColumnAgain(q: QName, b: Table, m: Table, r: Table, n: string)
    requires b != r && (b == m || r != m) && TableConflicts(q, Some(b), Some(m), Some(r)) == {}
    ensures var x := MergeTables(b, m, r);
      var y := AfterTable(Some(m), x);
      && (Clash(ColOf(Some(b), n), ColOf(Some(y), n), ColOf(Some(r), n)) <==>
          MixedColumn(ColOf(Some(m), n), ColOf(Some(x), n)))
      && Shown(Pick(ColOf(Some(b), n), ColOf(Some(y), n), ColOf(Some(r), n))) == Shown(ColOf(Some(y), n))
  {
    hide TableConflicts, ColOf, MergeTables, AfterTable, Clash, Pick, Shown, MixedColumn, AfterColumn;
    NoColumnClash(q, b, m, r, n);
    MergedColumn(b, m, r, n);
    AfterColumns(m, MergeTables(b, m, r), n);
    ColumnAgain(ColOf(Some(b), n), ColOf(Some(m), n), ColOf(Some(r), n));
  }

  lemma PkAgain(q: QName, b: Table, m: Table, r: Table)
    requires b != r && (b == m || r != m) && TableConflicts(q, Some(b), Some(m), Some(r)) == {}
    ensures var x := MergedPk(b.pk, m.pk, r.pk); MergedPk(b.pk, x, r.pk) == x && !Clash(Some(b.pk), Some(x), Some(r.pk))
  {
    NoColumnClash(q, b, m, r, "");
    hide TableConflicts;
  }

  lemma MergedTableAgain(q: QName, b: Table, m: Table, r: Table)
    requires b != r && (b == m || r != m) && TableConflicts(q, Some(b), Some(m), Some(r)) == {}
    ensures var x := MergeTables(b, m, r);
      var y := AfterTable(Some(m), x);
      && Agrees(MergeTableEntry(Some(b), Some(y), Some(r)), Some(y))
      && (TableConflicts(q, Some(b), Some(y), Some(r)) == {} <==> !MixedTable(Some(m), Some(x)))
  {
    hide TableConflicts, ColOf, AfterTable, Clash, Pick, Shown, MixedColumn, AfterColumn, MergedColumns, MergeTables,
      Agrees, MergeTableEntry;
    var x := MergeTables(b, m, r);
    var y := AfterTable(Some(m), x);
    PkAgain(q, b, m, r);
    AfterPk(b, m, r);
    forall n
      ensures Clash(ColOf(Some(b), n), ColOf(Some(y), n), ColOf(Some(r), n)) <==>
        MixedColumn(ColOf(Some(m), n), ColOf(Some(x), n))
      ensures Shown(Pick(ColOf(Some(b), n), ColOf(Some(y), n), ColOf(Some(r), n))) == Shown(ColOf(Some(y), n))
    {
      MergedColumnAgain(q, b, m, r, n);
    }
    AgreesByColumn(b, y, r);
    if r == y {
      SameNoConflict(q, b, r);
    } else {
      ConflictsOfMerged(q, b, y, r);
    }
  }

  lemma AfterPk(b: Table, m: Table, r: Table)
    ensures AfterTable(Some(m), MergeTables(b, m, r)).pk == MergedPk(b.pk, m.pk, r.pk)
  {}

  lemma AgreesByColumn(b: Table, y: Table, r: Table)
    requires b != r && MergedPk(b.pk, y.pk, r.pk) == y.pk
    requires forall n ::
        Shown(Pick(ColOf(Some(b), n), ColOf(Some(y), n), ColOf(Some(r), n))) == Shown(ColOf(Some(y), n))
    ensures Agrees(MergeTableEntry(Some(b), Some(y), Some(r)), Some(y))
  {
    hide ColOf, Shown, MergeTables, Pick;
    forall n ensures Shown(ColOf(Some(MergeTables(b, y, r)), n)) == Shown(ColOf(Some(y), n)) {
      MergedColumn(b, y, r, n);
    }
    assert MergeTables(b, y, r).pk == y.pk by { MergedKey(b, y, r); }
  }

  lemma MergedKey(b: Table, y: Table, r: Table)
    ensures MergeTables(b, y, r).pk == MergedPk(b.pk, y.pk, r.pk)
  {}

  lemma SameNoConflict(q: QName, b: Table, r: Table)
    requires b != r
    ensures TableConflicts(q, Some(b), Some(r), Some(r)) == {}
    ensures forall n :: !Clash(ColOf(Some(b), n), ColOf(Some(r), n), ColOf(Some(r), n))
  {}

  lemma ConflictsOfMerged(q: QName, b: Table, y: Table, r: Table)
    requires b != r && (b == y || r != y) && !Clash(Some(b.pk), Some(y.pk), Some(r.pk))
    ensures TableConflicts(q, Some(b), Some(y), Some(r)) == {} <==>
      forall n :: !Clash(ColOf(Some(b), n), ColOf(Some(y), n), ColOf(Some(r), n))
  {
    var bc, yc, rc := ByName(b.columns), ByName(y.columns), ByName(r.columns);
    forall n ensures n in Clashes(bc, yc, rc) <==> Clash(ColOf(Some(b), n), ColOf(Some(y), n), ColOf(Some(r), n)) {
      LookupMerged(bc, yc, rc, n);
    }
    hide ByName, Clash, Clashes, ColOf;
    if n :| n in Clashes(bc, yc, rc) {
      assert ColumnKey(q, n) in TableConflicts(q, Some(b), Some(y), Some(r));
    }
  }

  lemma TableAgain(q: QName, b: Option<Table>, m: Option<Table>, r: Option<Table>)
    requires EntryOk(m) && TableConflicts(q, b, m, r) == {}
    ensures var x := MergeTableEntry(b, m, r);
      var y := AfterEntry(m, x);
      Agrees(MergeTableEntry(b, y, r), y) && (TableConflicts(q, b, y, r) == {} <==> !MixedTable(m, x))
  {
    var x := MergeTableEntry(b, m, r);
    var y := AfterEntry(m, x);
    if b.Some? && m.Some? && r.Some? && b != r && (b == m || r != m) {
      hide TableConflicts, MixedTable, Agrees, AfterTable, MergeTables;
      MergedTableAgain(q, b.value, m.value, r.value);
    } else {
      if x == m && m.Some? {
        AfterItself(m.value);
      }
      hide AfterTable, MergeTables;
      assert !MixedTable(m, x);
      assert MergeTableEntry(b, y, r) == y;
    }
  }

  // ---------- whole schemas ----------

  /** No common sequence or column differs both in what is never altered and in what is. */
  ghost predicate Unmixed(t: Three) {
    && (forall q :: !MixedAt(t, q))
    && (forall q :: !MixedTable(Lookup(t.main.tables, q), Lookup(Merged(t).tables, q)))
  }

  ghost predicate MixedAt(t: Three, k: QName) {
    MixedSequence(Lookup(t.base.sequences, k), Lookup(t.main.sequences, k), Lookup(t.branch.sequences, k),
      MainFollowed(t, k))
  }

  /** The second diff: BASE and BRANCH as before, MAIN as the script left it. */
  function Again(t: Three): Three {
    Three(t.base, After(Pair(t.main, Merged(t), [])), t.branch)
  }

  lemma AgainTable(t: Three, q: QName)
    requires SchemaOk(t) && Conflicts(t) == {}
    ensures ConflictsAt(Again(t), q) == {} <==> !MixedTable(Lookup(t.main.tables, q), Lookup(Merged(t).tables, q))
    ensures Agrees(Lookup(Merged(Again(t)).tables, q), Lookup(Again(t).main.tables, q))
  {
    var b, m, r := Lookup(t.base.tables, q), Lookup(t.main.tables, q), Lookup(t.branch.tables, q);
    hide MergeTableEntry, TableConflicts, AfterTable, Agrees, MixedTable, DistinctNames, Conflicts, MergeMaps;
    ConflictsAtCounted(t, q);
    EntryIsMerged(t, q);
    EntryIsMerged(Again(t), q);
    TableAgain(q, b, m, r);
    AgainTableEntry(t, q);
  }

  lemma AgainTableEntry(t: Three, q: QName)
    ensures Lookup(Again(t).main.tables, q) == AfterEntry(Lookup(t.main.tables, q), Lookup(Merged(t).tables, q))
  {
    hide Merged, AfterTable;
  }

  lemma NoClashAt<K, V>(b: map<K, V>, m: map<K, V>, r: map<K, V>, k: K)
    requires Clashes(b, m, r) == {}
    ensures !Clash(Lookup(b, k), Lookup(m, k), Lookup(r, k))
  {
    LookupMerged(b, m, r, k);
  }

  /** A kind of object that is merged as a whole and written as merged. */
  lemma AgainWhole<K(!new), V>(b: map<K, V>, m: map<K, V>, r: map<K, V>)
    requires Clashes(b, m, r) == {}
    ensures var x := MergeMaps(b, m, r); Clashes(b, x, r) == {} && MergeMaps(b, x, r) == x
  {
    MergeAgain(b, m, r);
  }

  lemma KeepOldLookup<K, V>(m: map<K, V>, x: map<K, V>, k: K)
    ensures Lookup(KeepOld(m, x), k) == OldIfBoth(Lookup(m, k), Lookup(x, k))
  {}

  /** A kind of object whose definition is never altered. */
  lemma AgainFrozen<K(!new), V>(b: map<K, V>, m: map<K, V>, r: map<K, V>)
    requires Clashes(b, m, r) == {}
    ensures var x := KeepOld(m, MergeMaps(b, m, r)); Clashes(b, x, r) == {} && MergeMaps(b, x, r).Keys == x.Keys
  {
    var x := KeepOld(m, MergeMaps(b, m, r));
    forall k ensures k !in Clashes(b, x, r) && (k in MergeMaps(b, x, r) <==> k in x) {
      NoClashAt(b, m, r, k);
      LookupMerged(b, m, r, k);
      KeepOldLookup(m, MergeMaps(b, m, r), k);
      LookupMerged(b, x, r, k);
      EntryAgainFrozen(Lookup(b, k), Lookup(m, k), Lookup(r, k));
      hide MergeMaps, Clashes, KeepOld;
    }
  }

  lemma AfterSequenceAt(c: Pair, k: QName)
    ensures Lookup(Target(c).sequences, k) == AfterSequence(FollowedAt(c, k), Lookup(c.tgt.sequences, k))
    ensures var (f, m) := (FollowedAt(c, k), Lookup(c.src.sequences, k));
      && (f.Some? <==> m.Some?)
      && (f.Some? ==> f.value.ownedBy == m.value.ownedBy && f.value.lastValue == m.value.lastValue)
  {
    if k in c.src.sequences {
      SameOwner(c, k);
    }
    hide Followed;
  }

  /** MAIN's sequence once the script of the first diff has altered tables. */
  function MainFollowed(t: Three, k: QName): Option<Sequence> {
    FollowedAt(Pair(t.main, Merged(t), []), k)
  }

  lemma AgainSequence(t: Three, k: QName)
    requires Clashes(t.base.sequences, t.main.sequences, t.branch.sequences) == {}
    ensures k in Clashes(t.base.sequences, Again(t).main.sequences, t.branch.sequences) <==>
      MixedAt(t, k)
    ensures LastOf(Lookup(Merged(Again(t)).sequences, k)) == LastOf(Lookup(Again(t).main.sequences, k))
  {
    var b, m, r := t.base.sequences, t.main.sequences, t.branch.sequences;
    var x := Again(t).main.sequences;
    AfterSequenceAt(Pair(t.main, Merged(t), []), k);
    NoClashAt(b, m, r, k);
    LookupMerged(b, m, r, k);
    LookupMerged(b, x, r, k);
    SequenceAgain(Lookup(b, k), Lookup(m, k), Lookup(r, k), MainFollowed(t, k));
    hide FollowedAt, MergeMaps, Clashes, Clash, Pick, AfterSequence, MixedSequence, MergedTableMap, KeepOld;
  }

  lemma ConflictFreeIff(t: Three)
    ensures Conflicts(t) == {} <==>
      && Clashes(AsMap(t.base.schemas), AsMap(t.main.schemas), AsMap(t.branch.schemas)) == {}
      && AllTableConflicts(t) == {}
      && Clashes(t.base.indexes, t.main.indexes, t.branch.indexes) == {}
      && Clashes(t.base.constraints, t.main.constraints, t.branch.constraints) == {}
      && Clashes(t.base.views, t.main.views, t.branch.views) == {}
      && Clashes(t.base.matviews, t.main.matviews, t.branch.matviews) == {}
      && Clashes(t.base.functions, t.main.functions, t.branch.functions) == {}
      && Clashes(t.base.sequences, t.main.sequences, t.branch.sequences) == {}
  {
    hide Clashes, AllTableConflicts;
    if Conflicts(t) == {} {
      PartsConflictFree(t);
      assert AllTableConflicts(t) <= Conflicts(t);
    }
  }

  lemma TablesConflictFreeIff(t: Three)
    ensures AllTableConflicts(t) == {} <==> forall q :: ConflictsAt(t, q) == {}
  {
    if AllTableConflicts(t) == {} {
      forall q ensures ConflictsAt(t, q) == {} { TableCounted(t, q); }
    } else {
      hide ConflictsAt;
    }
  }

  lemma TableCounted(t: Three, q: QName)
    ensures ConflictsAt(t, q) <= AllTableConflicts(t)
  {
    if q !in AllKeys(t.base.tables, t.main.tables, t.branch.tables) {
      assert ConflictsAt(t, q) == {};
    }
    hide ConflictsAt;
  }

  /** What the second diff merges to, kind by kind. */
  lemma AgainParts(t: Three)
    requires Conflicts(t) == {}
    ensures var (b, x, r) := (t.base, Again(t).main, t.branch);
      && Clashes(AsMap(b.schemas), AsMap(x.schemas), AsMap(r.schemas)) == {} && Merged(Again(t)).schemas == x.schemas
      && Clashes(b.indexes, x.indexes, r.indexes) == {} && Merged(Again(t)).indexes.Keys == x.indexes.Keys
      && Clashes(b.constraints, x.constraints, r.constraints) == {} && Merged(Again(t)).constraints == x.constraints
      && Clashes(b.views, x.views, r.views) == {} && Merged(Again(t)).views == x.views
      && Clashes(b.matviews, x.matviews, r.matviews) == {} && Merged(Again(t)).matviews.Keys == x.matviews.Keys
      && Clashes(b.functions, x.functions, r.functions) == {} && Merged(Again(t)).functions == x.functions
  {
    PartsConflictFree(t);
    hide MergeMaps, Clashes, MergedTableMap, KeepOld, Target;
    AgainWhole(AsMap(t.base.schemas), AsMap(t.main.schemas), AsMap(t.branch.schemas));
    UnitMap(MergeMaps(AsMap(t.base.schemas), AsMap(t.main.schemas), AsMap(t.branch.schemas)));
    AgainFrozen(t.base.indexes, t.main.indexes, t.branch.indexes);
    AgainWhole(t.base.constraints, t.main.constraints, t.branch.constraints);
    AgainWhole(t.base.views, t.main.views, t.branch.views);
    AgainFrozen(t.base.matviews, t.main.matviews, t.branch.matviews);
    AgainWhole(t.base.functions, t.main.functions, t.branch.functions);
  }

  lemma SequencesFree(t: Three)
    requires Conflicts(t) == {}
    ensures Clashes(t.base.sequences, t.main.sequences, t.branch.sequences) == {}
  {
    PartsConflictFree(t);
  }

  /** The second diff finds a conflict exactly where something mixed was changed. */
  lemma AgainConflictsIff(t: Three)
    requires SchemaOk(t) && Conflicts(t) == {}
    ensures Conflicts(Again(t)) == {} <==> Unmixed(t)
  {
    hide SchemaOk, Conflicts, Clashes, AllTableConflicts, ConflictsAt, Merged, MixedAt, MixedTable;
    AgainParts(t);
    SequencesFree(t);
    ConflictFreeIff(Again(t));
    TablesConflictFreeIff(Again(t));
    forall q ensures ConflictsAt(Again(t), q) == {} <==>
          !MixedTable(Lookup(t.main.tables, q), Lookup(Merged(t).tables, q)) {
      AgainTable(t, q);
    }
    forall k ensures k in Clashes(t.base.sequences, Again(t).main.sequences, t.branch.sequences) <==>
      MixedAt(t, k) {
      AgainSequence(t, k);
    }
  }

  /** And differs from what is there in nothing that is written. */
  lemma AgainDiffersNowhere(t: Three, k: ObjectKey)
    requires SchemaOk(t) && Conflicts(t) == {}
    ensures !Differs(Again(t).main, Merged(Again(t)), k)
  {
    hide SchemaOk, Conflicts, Clashes, Merged, Again, Shown, ByName;
    match k
    case SchemaKey(_) => AgainParts(t);
    case TableKey(q) => AgainTable(t, q);
    case ColumnKey(q, n) =>
      AgainTable(t, q);
      assert Shown(ColOf(Lookup(Merged(Again(t)).tables, q), n)) == Shown(ColOf(Lookup(Again(t).main.tables, q), n));
    case PkKey(q) => AgainTable(t, q);
    case IndexKey(_) => AgainParts(t);
    case ConstraintKey(_) => AgainParts(t);
    case ViewKey(_) => AgainParts(t);
    case MatviewKey(_) => AgainParts(t);
    case FunctionKey(_) => AgainParts(t);
    case SequenceKey(q) =>
      SequencesFree(t);
      AgainSequence(t, q);
  }

  lemma AgainOk(t: Three)
    requires SchemaOk(t)
    ensures SchemaOk(Again(t)) && TablesOk(Merged(Again(t)))
  {
    MergedTablesOk(t);
    hide Merged, DistinctNames;
    forall q | q in Again(t).main.tables ensures DistinctNames(Again(t).main.tables[q].columns) {
      if q in t.main.tables {
        KeptDistinct(ByName(t.main.tables[q].columns), Merged(t).tables[q].columns);
      }
    }
    MergedTablesOk(Again(t));
  }

  /** For closed schemas that merge without conflict to a closed one: applying the diff to
      MAIN reaches the merge, but for what is never altered, if and only if the script meets
      its condition. Diffing the result again writes nothing, and finds a conflict if and only
      if BRANCH changed a common column or sequence both in what is altered and in what is not. */
  lemma ApplyThenRediff(t: Three, order: seq<ObjectKey>, order': seq<ObjectKey>)
    requires ClosedSides(t) && Compatible(t) && Listed(AgainstMain(t, order))
    ensures var c := AgainstMain(t, order);
      ExecuteAll(Load(t.main), Everything(c)) == Some(Load(Again(t).main)) <==> Executable(c)
    ensures Everything(AgainstMain(Again(t), order')) == []
    ensures Conflicts(Again(t)) == {} <==> Unmixed(t)
  {
    SidesOk(t);
    MergedClosedIff(t);
    hide Executable, Merged, Conflicts, ExecuteAll, Load, Target, Script, SchemaOk, Everything, After, Differs, Unmixed,
      Closed, Listed, Compatible;
    var c := AgainstMain(t, order);
    EverythingIs(c);
    ScriptConvergesIff(c);
    AfterIsTarget(c);
    OrderIsNothing(c);
    AgainConflictsIff(t);
    AgainOk(t);
    forall k ensures !Differs(Again(t).main, Merged(Again(t)), k) { AgainDiffersNowhere(t, k); }
    NothingToDo(AgainstMain(Again(t), order'));
  }

  lemma OrderIsNothing(c: Pair)
    ensures After(c) == After(Pair(c.src, c.tgt, []))
  {}

  lemma EverythingIs(c: Pair)
    ensures Everything(c) == Script(c, 0, PRE) + Script(c, PRE, |PHASES|)
  {
    hide Script;
  }
}
