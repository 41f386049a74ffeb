/** The three-way schema diff: what it leaves alone, what it reaches, and diffing again. */
module DdlDrift {
  import opened Types
  import opened Catalog
  import opened SchemaMerge
  import opened SchemaLaws
  import SchemaEntries
  import opened Ddl
  import opened DdlProof
  import opened DdlTheorem
  import opened DdlLimits

  /** The object, column or key a statement is about. */
  function Subject(e: Stmt): ObjectKey {
    match e
    case CreateSchema(n) => SchemaKey(n)
    case CreateSequence(q, _) => SequenceKey(q)
    case CreateTable(q, _) => TableKey(q)
    case AlterTable(q, a) => if a.DropPk? || a.AddPk? then PkKey(q) else ColumnKey(q, ColumnOf(a))
    case CreateIndex(q, _) => IndexKey(q)
    case AddConstraint(k, _) => ConstraintKey(k)
    case CreateView(q, _) => ViewKey(q)
    case ReplaceView(q, _) => ViewKey(q)
    case CreateMatview(q, _) => MatviewKey(q)
    case ReplaceFunction(f, _) => FunctionKey(f)
    case OwnSequence(q, _) => SequenceKey(q)
    case DropIndex(q) => IndexKey(q)
    case DropConstraint(k) => ConstraintKey(k)
    case DropView(q) => ViewKey(q)
    case DropMatview(q) => MatviewKey(q)
    case DropFunction(f) => FunctionKey(f)
    case DropTable(q) => TableKey(q)
    case SetVal(q, _, _) => SequenceKey(q)
    case DropSequenceIfExists(q) => SequenceKey(q)
    case DropSchema(n) => SchemaKey(n)
  }

  function ColumnOf(a: Alteration): string
    requires !a.DropPk? && !a.AddPk?
  {
    match a
    case AddColumn(c) => c.name
    case SetType(n, _) => n
    case SetDefault(n, _) => n
    case DropDefault(n) => n
    case SetNotNull(n) => n
    case DropNotNull(n) => n
    case DropColumn(n) => n
  }

  // ---------- a statement is only written where the two schemas differ ----------

  /** A column without what is never altered. */
  function Shown(c: Option<Column>): Option<Column> {
    match c
    case None => None
    case Some(k) => Some(k.(identity := None, default := OrNone(k.default)))
  }

  function ColumnAt(s: Schema, q: QName, n: string): Option<Column> {
    if q in s.tables then Lookup(ByName(s.tables[q].columns), n) else None
  }

  function PkAt(s: Schema, q: QName): Option<seq<string>> {
    if q in s.tables then KeyOrNone(s.tables[q].pk) else None
  }

  function LastAt(s: Schema, q: QName): Option<Option<int>> {
    if q in s.sequences then Some(s.sequences[q].lastValue) else None
  }

  /** The two schemas differ at the key in something that the generator writes. */
  ghost predicate Differs(s: Schema, t: Schema, k: ObjectKey) {
    match k
    case SchemaKey(n) => !(n in s.schemas <==> n in t.schemas)
    case TableKey(q) => !(q in s.tables <==> q in t.tables)
    case ColumnKey(q, n) => Shown(ColumnAt(s, q, n)) != Shown(ColumnAt(t, q, n))
    case PkKey(q) => PkAt(s, q) != PkAt(t, q)
    case IndexKey(i) => !(i in s.indexes <==> i in t.indexes)
    case ConstraintKey(c) => Lookup(s.constraints, c) != Lookup(t.constraints, c)
    case ViewKey(v) => Lookup(s.views, v) != Lookup(t.views, v)
    case MatviewKey(v) => !(v in s.matviews <==> v in t.matviews)
    case FunctionKey(f) => Lookup(s.functions, f) != Lookup(t.functions, f)
    case SequenceKey(q) => LastAt(s, q) != LastAt(t, q)
  }

  lemma DiffersInEntry(s: Schema, t: Schema, k: ObjectKey)
    requires Differs(s, t, k)
    ensures EntryOf(s, k) != EntryOf(t, k)
  {}

  /** The action is about something that differs between the two tables. */
  ghost predicate Warranted(a: Alteration, s: Table, t: Table) {
    if a.DropPk? || a.AddPk? then KeyOrNone(s.pk) != KeyOrNone(t.pk)
    else Shown(Lookup(ByName(s.columns), ColumnOf(a))) != Shown(Lookup(ByName(t.columns), ColumnOf(a)))
  }

  lemma {:induction false} AddsWarranted(cols: seq<Column>, s: Table, t: Table, i: nat)
    requires i < |AddColumns(cols, ByName(s.columns))| && forall n :: n in ByName(cols) ==> n in ByName(t.columns)
    ensures Warranted(AddColumns(cols, ByName(s.columns))[i], s, t)
  {
    var front := cols[..|cols| - 1];
    if i < |AddColumns(front, ByName(s.columns))| {
      assert forall n :: n in ByName(front) ==> n in ByName(cols);
      AddsWarranted(front, s, t, i);
    } else {
      assert cols[|cols| - 1].name in ByName(cols);
    }
  }

  lemma AlterWarranted(s: Column, t: Column, i: nat)
    requires i < |AlterColumn(s, t)|
    ensures var a := AlterColumn(s, t)[i]; !a.DropPk? && !a.AddPk? && ColumnOf(a) == t.name
    ensures Shown(Some(s)) != Shown(Some(t))
  {}

  lemma {:induction false} AltersWarranted(cols: seq<Column>, s: Table, t: Table, i: nat)
    requires i < |AlterColumns(cols, ByName(s.columns))| && DistinctNames(cols)
    requires forall n :: n in ByName(cols) ==> n in ByName(t.columns) && ByName(t.columns)[n] == ByName(cols)[n]
    ensures Warranted(AlterColumns(cols, ByName(s.columns))[i], s, t)
  {
    hide AlterColumn;
    var front, c := cols[..|cols| - 1], cols[|cols| - 1];
    SnocNew(cols);
    if i < |AlterColumns(front, ByName(s.columns))| {
      assert forall n :: n in ByName(front) ==> n in ByName(cols) && ByName(cols)[n] == ByName(front)[n];
      AltersWarranted(front, s, t, i);
    } else {
      assert c.name in ByName(cols) && ByName(cols)[c.name] == c;
      AlterWarranted(ByName(s.columns)[c.name], c, i - |AlterColumns(front, ByName(s.columns))|);
    }
  }

  lemma {:induction false} DropsWarranted(cols: seq<Column>, s: Table, t: Table, i: nat)
    requires i < |DropColumns(cols, ByName(t.columns))| && forall n :: n in ByName(cols) ==> n in ByName(s.columns)
    ensures Warranted(DropColumns(cols, ByName(t.columns))[i], s, t)
  {
    var front := cols[..|cols| - 1];
    if i < |DropColumns(front, ByName(t.columns))| {
      assert forall n :: n in ByName(front) ==> n in ByName(cols);
      DropsWarranted(front, s, t, i);
    } else {
      assert cols[|cols| - 1].name in ByName(cols);
    }
  }

  lemma AlterationsWarranted(s: Table, t: Table, a: Alteration)
    requires a in Alterations(s, t) && DistinctNames(t.columns)
    ensures Warranted(a, s, t)
  {
    hide AddColumns, AlterColumns, DropColumns, Warranted, ChangePk;
    if a in AddColumns(t.columns, ByName(s.columns)) {
      var i :| 0 <= i < |AddColumns(t.columns, ByName(s.columns))| && AddColumns(t.columns, ByName(s.columns))[i] == a;
      AddsWarranted(t.columns, s, t, i);
    } else if a in AlterColumns(t.columns, ByName(s.columns)) {
      var i :| 0 <= i < |AlterColumns(t.columns, ByName(s.columns))| &&
        AlterColumns(t.columns, ByName(s.columns))[i] == a;
      AltersWarranted(t.columns, s, t, i);
    } else if a in DropColumns(s.columns, ByName(t.columns)) {
      var i :| 0 <= i < |DropColumns(s.columns, ByName(t.columns))| &&
        DropColumns(s.columns, ByName(t.columns))[i] == a;
      DropsWarranted(s.columns, s, t, i);
    } else {
      ChangePkWarranted(s, t, a);
    }
  }

  lemma ChangePkWarranted(s: Table, t: Table, a: Alteration)
    requires a in ChangePk(s.pk, t.pk)
    ensures Warranted(a, s, t)
  {}

  /** New columns are added in the target's order. */
  lemma {:induction false} AddsFollow(cols: seq<Column>, s: map<string, Column>, i: nat, j: nat)
    requires i < j < |AddColumns(cols, s)|
    ensures var (x, y) := (AddColumns(cols, s)[i], AddColumns(cols, s)[j]);
      x.AddColumn? && y.AddColumn? && exists a, b :: 0 <= a < b < |cols| && cols[a] == x.column && cols[b] == y.column
  {
    var front := cols[..|cols| - 1];
    var adds := AddColumns(front, s);
    if j < |adds| {
      AddsFollow(front, s, i, j);
      var a, b :| 0 <= a < b < |front| && front[a] == adds[i].column && front[b] == adds[j].column;
      assert cols[a] == adds[i].column && cols[b] == adds[j].column;
    } else {
      var a := AddIsListed(front, s, i);
      assert cols[a] == adds[i].column;
    }
  }

  lemma {:induction false} AddIsListed(cols: seq<Column>, s: map<string, Column>, i: nat) returns (a: nat)
    requires i < |AddColumns(cols, s)|
    ensures a < |cols| && AddColumns(cols, s)[i] == AddColumn(cols[a])
  {
    var front := cols[..|cols| - 1];
    if i < |AddColumns(front, s)| {
      a := AddIsListed(front, s, i);
    } else {
      a := |cols| - 1;
    }
  }

  lemma EmitChanges(c: Pair, p: Phase, k: ObjectKey, e: Stmt)
    requires e in Emit(c, p, k) && !(p == AlterTables && k.TableKey?)
    ensures Differs(c.src, c.tgt, Subject(e)) && !e.AlterTable?
  {
    hide EmitSchema, EmitTable, EmitIndex, EmitConstraint, EmitView, EmitMatview, EmitFunction, EmitSequence,
      Differs, Subject;
    match k {
      case SchemaKey(n) => SchemaChanges(c, p, n, e);
      case TableKey(q) => TableChanges(c, p, q, e);
      case IndexKey(q) => IndexChanges(c, p, q, e);
      case ConstraintKey(n) => ConstraintChanges(c, p, n, e);
      case ViewKey(q) => ViewChanges(c, p, q, e);
      case MatviewKey(q) => MatviewChanges(c, p, q, e);
      case FunctionKey(f) => FunctionChanges(c, p, f, e);
      case SequenceKey(q) => SequenceChanges(c, p, q, e);
      case _ =>
    }
  }

  ghost predicate Changes(c: Pair, e: Stmt) {
    Differs(c.src, c.tgt, Subject(e)) && !e.AlterTable?
  }

  lemma SchemaChanges(c: Pair, p: Phase, n: string, e: Stmt)
    requires e in EmitSchema(c, p, n)
    ensures Changes(c, e)
  {}

  lemma TableChanges(c: Pair, p: Phase, q: QName, e: Stmt)
    requires e in EmitTable(c, p, q) && p != AlterTables
    ensures Changes(c, e)
  {}

  lemma IndexChanges(c: Pair, p: Phase, q: QName, e: Stmt)
    requires e in EmitIndex(c, p, q)
    ensures Changes(c, e)
  {}

  lemma ConstraintChanges(c: Pair, p: Phase, k: ConName, e: Stmt)
    requires e in EmitConstraint(c, p, k)
    ensures Changes(c, e)
  {}

  lemma ViewChanges(c: Pair, p: Phase, q: QName, e: Stmt)
    requires e in EmitView(c, p, q)
    ensures Changes(c, e)
  {}

  lemma MatviewChanges(c: Pair, p: Phase, q: QName, e: Stmt)
    requires e in EmitMatview(c, p, q)
    ensures Changes(c, e)
  {}

  lemma FunctionChanges(c: Pair, p: Phase, f: FnName, e: Stmt)
    requires e in EmitFunction(c, p, f)
    ensures Changes(c, e)
  {}

  lemma SequenceChanges(c: Pair, p: Phase, q: QName, e: Stmt)
    requires e in EmitSequence(c, p, q)
    ensures Changes(c, e)
  {}

  lemma OnlyAlters(c: Pair, q: QName, e: Stmt)
    requires e in EmitTable(c, AlterTables, q)
    ensures e.AlterTable? && e.table == q && q in c.src.tables && q in c.tgt.tables
    ensures e.alteration in Alterations(c.src.tables[q], c.tgt.tables[q])
  {
    hide Alterations;
    InOnTable(q, Alterations(c.src.tables[q], c.tgt.tables[q]), e.alteration);
  }

  /** Every statement is about an object, column or key at which the schemas differ in
      something that is written. */
  lemma StatementWarranted(c: Pair, e: Stmt)
    requires TablesOk(c.tgt) && e in Everything(c)
    ensures Differs(c.src, c.tgt, Subject(e))
    ensures e.AlterTable? ==> e.table in c.src.tables && e.table in c.tgt.tables
  {
    hide Script, Emit, Alterations, DistinctNames;
    var p, i := FromEverything(c, e);
    var k := c.order[i];
    if p == AlterTables && k.TableKey? {
      EmitOfTable(c, k.table);
      OnlyAlters(c, k.table, e);
      AlterationsWarranted(c.src.tables[k.table], c.tgt.tables[k.table], e.alteration);
    } else {
      EmitChanges(c, p, k, e);
    }
  }

  lemma EmitOfTable(c: Pair, q: QName)
    ensures Emit(c, AlterTables, TableKey(q)) == EmitTable(c, AlterTables, q)
  {}

  lemma FromEverything(c: Pair, e: Stmt) returns (p: Phase, i: nat)
    requires e in Everything(c)
    ensures i < |c.order| && e in Emit(c, p, c.order[i])
  {
    hide Script, Emit;
    if e in Script(c, 0, PRE) {
      p, i := InScript(c, 0, PRE, e);
    } else {
      p, i := InScript(c, PRE, |PHASES|, e);
    }
  }

  // ---------- the three-way diff ----------

  /** MAIN against the merge, with a listing of their keys. */
  function AgainstMain(t: Three, order: seq<ObjectKey>): Pair {
    Pair(t.main, Merged(t), order)
  }

  /** diff_schemas_3way: the statements that bring MAIN to the merge, and the two reports. */
  method DiffSchemas3Way(t: Three, order: seq<ObjectKey>)
    returns (pre: seq<Stmt>, post: seq<Stmt>, conflicts: set<ObjectKey>, drifts: set<ObjectKey>)
    requires TablesOk(t.main) && TablesOk(t.branch)
    ensures pre + post == Everything(AgainstMain(t, order)) && conflicts == Conflicts(t) && drifts == AllDrifts(t)
    ensures forall e :: e in pre ==> BeforeData(AgainstMain(t, order), e)
    ensures forall e :: e in post ==> AfterData(AgainstMain(t, order), e)
  {
    hide Script, Merged, Conflicts, AllDrifts, BeforeData, AfterData;
    var merged;
    merged, conflicts, drifts := MergeSchemas3Way(t);
    pre, post := DiffSchemas(Pair(t.main, merged, order));
  }

  lemma MergedTablesOk(t: Three)
    requires SchemaOk(t)
    ensures TablesOk(Merged(t))
  {
    hide SchemaOk, Merged, DistinctNames;
    forall q | q in Merged(t).tables ensures DistinctNames(Merged(t).tables[q].columns) {
      MergedTableOk(t, q);
    }
  }

  lemma MergedTableOk(t: Three, q: QName)
    requires SchemaOk(t) && q in Merged(t).tables
    ensures DistinctNames(Merged(t).tables[q].columns)
  {
    hide DistinctNames, MergedColumns, MergedPk;
    EntryIsMerged(t, q);
    if q in t.base.tables && q in t.main.tables && q in t.branch.tables {
      MergedColumnsDistinct(t.base.tables[q], t.main.tables[q], t.branch.tables[q]);
    }
  }

  lemma AlteredOnAllSides(t: Three, q: QName)
    requires q in t.main.tables && q in Merged(t).tables && Merged(t).tables[q] != t.main.tables[q]
    ensures q in t.base.tables && q in t.branch.tables
  {
    EntryIsMerged(t, q);
    hide MergeTables;
  }

  lemma EntryDiffers(t: Three, k: ObjectKey)
    requires (k.ColumnKey? || k.PkKey?) && k.table in t.main.tables && k.table in Merged(t).tables
    requires EntryOf(t.main, k) != EntryOf(Merged(t), k)
    ensures Merged(t).tables[k.table] != t.main.tables[k.table]
  {
    hide Merged;
  }

  /** Drift is never touched: a statement is only about what BRANCH changed. */
  lemma DriftIsNeverTouched(t: Three, order: seq<ObjectKey>, e: Stmt)
    requires SchemaOk(t) && e in Everything(AgainstMain(t, order))
    ensures EntryOf(t.branch, Subject(e)) != EntryOf(t.base, Subject(e))
  {
    hide Merged, EntryOf, Everything, TablesOk, SchemaOk;
    MergedTablesOk(t);
    var k := Subject(e);
    StatementWarranted(AgainstMain(t, order), e);
    DiffersInEntry(t.main, Merged(t), k);
    if k.ColumnKey? || k.PkKey? {
      SubjectTable(e);
      EntryDiffers(t, k);
      AlteredOnAllSides(t, k.table);
    }
    if EntryOf(t.branch, k) == EntryOf(t.base, k) {
      DriftIsKept(t, k);
    }
  }

  /** Neither is a conflict: no statement is about a key in conflict, or about a column or key
      of a table in conflict. */
  lemma ConflictIsNeverTouched(t: Three, order: seq<ObjectKey>, e: Stmt)
    requires SchemaOk(t) && e in Everything(AgainstMain(t, order))
    ensures !InConflict(t, Subject(e))
  {
    hide Merged, EntryOf, Everything, TablesOk, SchemaOk, InConflict, Differs;
    MergedTablesOk(t);
    StatementWarranted(AgainstMain(t, order), e);
    DiffersInEntry(t.main, Merged(t), Subject(e));
    if InConflict(t, Subject(e)) {
      SchemaEntries.ConflictKeepsMain(t, Subject(e));
    }
  }

  lemma SubjectTable(e: Stmt)
    requires Subject(e).ColumnKey? || Subject(e).PkKey?
    ensures e.AlterTable? && e.table == Subject(e).table
  {}

  /** Schemas that differ in nothing that is written: nothing to do. */
  lemma NothingToDo(c: Pair)
    requires TablesOk(c.tgt) && forall k :: !Differs(c.src, c.tgt, k)
    ensures Everything(c) == []
  {
    hide Differs, Everything, TablesOk;
    if Everything(c) != [] {
      StatementWarranted(c, Everything(c)[0]);
    }
  }
}
