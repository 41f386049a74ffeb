/** The DDL generator, and a catalog that runs its statements. */
module Ddl {
  import opened Types
  import opened Catalog
  import opened SchemaMerge
  import Setval

  // ---------- statements ----------

  datatype Alteration =
    | AddColumn(column: Column)
    | SetType(name: string, typ: string)
    | SetDefault(name: string, default: string)
    | DropDefault(name: string)
    | SetNotNull(name: string)
    | DropNotNull(name: string)
    | DropColumn(name: string)
    | DropPk
    | AddPk(pk: seq<string>)

  datatype Stmt =
    | CreateSchema(schema: string)
    | CreateSequence(sequence: QName, params: Params)
    | CreateTable(table: QName, definition: Table)
    | AlterTable(table: QName, alteration: Alteration)
    | CreateIndex(index: QName, body: Index)
    | AddConstraint(constraint: ConName, rule: Definition)
    | CreateView(view: QName, text: string)
    | ReplaceView(view: QName, text: string)
    | CreateMatview(matview: QName, text: string)
    | ReplaceFunction(function_: FnName, text: string)
    | OwnSequence(sequence: QName, owner: ColumnRef)
    | DropIndex(index: QName)
    | DropConstraint(constraint: ConName)
    | DropView(view: QName)
    | DropMatview(matview: QName)
    | DropFunction(function_: FnName)
    | DropTable(table: QName)
    | SetVal(sequence: QName, lastValue: Option<int>, start: int)
    | DropSequenceIfExists(sequence: QName)
    | DropSchema(schema: string)

  // ---------- the generator ----------

  /** The loops of the generator, in the order they run. */
  datatype Phase =
    | NewSchemas | NewSequences | NewTables | AlterTables | NewIndexes
    | NewConstraints | ChangedConstraints | NewViews | ChangedViews | NewMatviews
    | NewFunctions | ChangedFunctions | OwnSequences
    | DropIndexes | DropConstraints | DropViews | DropMatviews | DropFunctions
    | DropTables | SetVals | DropSequences | DropSchemas
  {
    function Rank(): nat {
      match this
      case NewSchemas => 0 case NewSequences => 1 case NewTables => 2 case AlterTables => 3
      case NewIndexes => 4 case NewConstraints => 5 case ChangedConstraints => 6 case NewViews => 7
      case ChangedViews => 8 case NewMatviews => 9 case NewFunctions => 10 case ChangedFunctions => 11
      case OwnSequences => 12 case DropIndexes => 13 case DropConstraints => 14 case DropViews => 15
      case DropMatviews => 16 case DropFunctions => 17 case DropTables => 18 case SetVals => 19
      case DropSequences => 20 case DropSchemas => 21
    }
  }

  const PHASES: seq<Phase> := [
    NewSchemas, NewSequences, NewTables, AlterTables, NewIndexes,
    NewConstraints, ChangedConstraints, NewViews, ChangedViews, NewMatviews,
    NewFunctions, ChangedFunctions, OwnSequences,
    DropIndexes, DropConstraints, DropViews, DropMatviews, DropFunctions,
    DropTables, SetVals, DropSequences, DropSchemas]

  /** The number of phases whose statements run before the DML. */
  const PRE: nat := 13

  /** An empty default reads as none. */
  function OrNone(d: Option<string>): Option<string> {
    if d == Some("") then None else d
  }

  function AddColumns(cols: seq<Column>, s: map<string, Column>): seq<Alteration> {
    if cols == [] then []
    else AddColumns(cols[..|cols| - 1], s) +
         if cols[|cols| - 1].name !in s then [AddColumn(cols[|cols| - 1])] else []
  }

  /** Type, then default, then NOT NULL of one column. */
  function AlterColumn(s: Column, t: Column): seq<Alteration> {
    (if s.typ != t.typ then [SetType(t.name, t.typ)] else []) +
    (if OrNone(s.default) == OrNone(t.default) then []
     else if t.default == None then [DropDefault(t.name)] else [SetDefault(t.name, t.default.value)]) +
    (if s.notNull == t.notNull then [] else if t.notNull then [SetNotNull(t.name)] else [DropNotNull(t.name)])
  }

  function AlterColumns(cols: seq<Column>, s: map<string, Column>): seq<Alteration> {
    if cols == [] then []
    else AlterColumns(cols[..|cols| - 1], s) +
         if cols[|cols| - 1].name in s then AlterColumn(s[cols[|cols| - 1].name], cols[|cols| - 1]) else []
  }

  function DropColumns(cols: seq<Column>, t: map<string, Column>): seq<Alteration> {
    if cols == [] then []
    else DropColumns(cols[..|cols| - 1], t) +
         if cols[|cols| - 1].name !in t then [DropColumn(cols[|cols| - 1].name)] else []
  }

  /** An empty key reads as none. */
  function KeyOrNone(pk: Option<seq<string>>): Option<seq<string>> {
    if pk == Some([]) then None else pk
  }

  function ChangePk(s: Option<seq<string>>, t: Option<seq<string>>): seq<Alteration> {
    var (s', t') := (KeyOrNone(s), KeyOrNone(t));
    if s' == t' then []
    else (if s'.Some? then [DropPk] else []) + (if t'.Some? then [AddPk(t'.value)] else [])
  }

  /** All ALTER TABLE actions of a common table. */
  function Alterations(s: Table, t: Table): seq<Alteration> {
    AddColumns(t.columns, ByName(s.columns)) + AlterColumns(t.columns, ByName(s.columns)) +
    DropColumns(s.columns, ByName(t.columns)) + ChangePk(s.pk, t.pk)
  }

  function OnTable(q: QName, actions: seq<Alteration>): seq<Stmt> {
    seq(|actions|, i requires 0 <= i < |actions| => AlterTable(q, actions[i]))
  }

  /** Two schemas, and a listing of all their object keys; sorted() picks one such listing. */
  datatype Pair = Pair(src: Schema, tgt: Schema, order: seq<ObjectKey>)

  // What each loop writes for one key, kind by kind.

  function EmitSchema(c: Pair, p: Phase, n: string): seq<Stmt> {
    match p
    case NewSchemas => if n in c.tgt.schemas && n !in c.src.schemas then [CreateSchema(n)] else []
    case DropSchemas => if n in c.src.schemas && n !in c.tgt.schemas then [DropSchema(n)] else []
    case _ => []
  }

  function EmitTable(c: Pair, p: Phase, q: QName): seq<Stmt> {
    var (s, t) := (c.src.tables, c.tgt.tables);
    match p
    case NewTables => if q in t && q !in s then [CreateTable(q, t[q])] else []
    case AlterTables => if q in t && q in s then OnTable(q, Alterations(s[q], t[q])) else []
    case DropTables => if q in s && q !in t then [DropTable(q)] else []
    case _ => []
  }

  function EmitIndex(c: Pair, p: Phase, q: QName): seq<Stmt> {
    var (s, t) := (c.src.indexes, c.tgt.indexes);
    match p
    case NewIndexes => if q in t && q !in s then [CreateIndex(q, t[q])] else []
    case DropIndexes => if q in s && q !in t then [DropIndex(q)] else []
    case _ => []
  }

  function EmitConstraint(c: Pair, p: Phase, k: ConName): seq<Stmt> {
    var (s, t) := (c.src.constraints, c.tgt.constraints);
    match p
    case NewConstraints => if k in t && k !in s then [AddConstraint(k, t[k])] else []
    case ChangedConstraints =>
      if k in t && k in s && s[k] != t[k] then [DropConstraint(k), AddConstraint(k, t[k])] else []
    case DropConstraints => if k in s && k !in t then [DropConstraint(k)] else []
    case _ => []
  }

  function EmitView(c: Pair, p: Phase, q: QName): seq<Stmt> {
    var (s, t) := (c.src.views, c.tgt.views);
    match p
    case NewViews => if q in t && q !in s then [CreateView(q, t[q])] else []
    case ChangedViews => if q in t && q in s && s[q] != t[q] then [ReplaceView(q, t[q])] else []
    case DropViews => if q in s && q !in t then [DropView(q)] else []
    case _ => []
  }

  function EmitMatview(c: Pair, p: Phase, q: QName): seq<Stmt> {
    var (s, t) := (c.src.matviews, c.tgt.matviews);
    match p
    case NewMatviews => if q in t && q !in s then [CreateMatview(q, t[q])] else []
    case DropMatviews => if q in s && q !in t then [DropMatview(q)] else []
    case _ => []
  }

  function EmitFunction(c: Pair, p: Phase, f: FnName): seq<Stmt> {
    var (s, t) := (c.src.functions, c.tgt.functions);
    match p
    case NewFunctions => if f in t && f !in s then [ReplaceFunction(f, t[f])] else []
    case ChangedFunctions => if f in t && f in s && s[f] != t[f] then [ReplaceFunction(f, t[f])] else []
    case DropFunctions => if f in s && f !in t then [DropFunction(f)] else []
    case _ => []
  }

  function EmitSequence(c: Pair, p: Phase, q: QName): seq<Stmt> {
    var (s, t) := (c.src.sequences, c.tgt.sequences);
    match p
    case NewSequences => if q in t && q !in s then [CreateSequence(q, t[q].params)] else []
    case OwnSequences =>
      if q in t && q !in s && t[q].ownedBy.Some? then [OwnSequence(q, t[q].ownedBy.value)] else []
    case SetVals =>
      if q in t && !(q in s && s[q].lastValue == t[q].lastValue)
      then [SetVal(q, t[q].lastValue, t[q].params.start)] else []
    case DropSequences => if q in s && q !in t then [DropSequenceIfExists(q)] else []
    case _ => []
  }

  /** What one loop writes for one key. */
  function Emit(c: Pair, p: Phase, k: ObjectKey): seq<Stmt> {
    match k
    case SchemaKey(n) => EmitSchema(c, p, n)
    case TableKey(q) => EmitTable(c, p, q)
    case IndexKey(q) => EmitIndex(c, p, q)
    case ConstraintKey(n) => EmitConstraint(c, p, n)
    case ViewKey(q) => EmitView(c, p, q)
    case MatviewKey(q) => EmitMatview(c, p, q)
    case FunctionKey(f) => EmitFunction(c, p, f)
    case SequenceKey(q) => EmitSequence(c, p, q)
    case _ => []
  }

  /** One loop over the first n keys. */
  function Loop(c: Pair, p: Phase, n: nat): seq<Stmt>
    requires n <= |c.order|
  {
    if n == 0 then [] else Loop(c, p, n - 1) + Emit(c, p, c.order[n - 1])
  }

  /** The loops from one phase up to another. */
  function Script(c: Pair, from: nat, to: nat): seq<Stmt>
    requires from <= to <= |PHASES|
  {
    if from == to then [] else Script(c, from, to - 1) + Loop(c, PHASES[to - 1], |c.order|)
  }

  /** What runs before the DML: everything that makes, changes or replaces something, each with
      the target's definition, and the drop of a constraint that is put back with another. */
  predicate BeforeData(c: Pair, e: Stmt) {
    var (s, t) := (c.src, c.tgt);
    match e
    case CreateSchema(n) => n in t.schemas && n !in s.schemas
    case CreateSequence(q, p) => q in t.sequences && q !in s.sequences && p == t.sequences[q].params
    case CreateTable(q, d) => q in t.tables && q !in s.tables && d == t.tables[q]
    case AlterTable(q, _) => q in t.tables && q in s.tables
    case CreateIndex(q, i) => q in t.indexes && q !in s.indexes && i == t.indexes[q]
    case AddConstraint(k, d) => Lookup(t.constraints, k) == Some(d) && Lookup(s.constraints, k) != Some(d)
    case DropConstraint(k) => k in s.constraints && k in t.constraints && s.constraints[k] != t.constraints[k]
    case CreateView(q, text) => Lookup(t.views, q) == Some(text) && q !in s.views
    case ReplaceView(q, text) => Lookup(t.views, q) == Some(text) && q in s.views && s.views[q] != text
    case CreateMatview(q, text) => Lookup(t.matviews, q) == Some(text) && q !in s.matviews
    case ReplaceFunction(f, text) => Lookup(t.functions, f) == Some(text) && Lookup(s.functions, f) != Some(text)
    case OwnSequence(q, r) => q in t.sequences && q !in s.sequences && t.sequences[q].ownedBy == Some(r)
    case _ => false
  }

  /** What runs after it: the drops of what the target lacks, and the positions of sequences. */
  predicate AfterData(c: Pair, e: Stmt) {
    var (s, t) := (c.src, c.tgt);
    match e
    case DropIndex(q) => q in s.indexes && q !in t.indexes
    case DropConstraint(k) => k in s.constraints && k !in t.constraints
    case DropView(q) => q in s.views && q !in t.views
    case DropMatview(q) => q in s.matviews && q !in t.matviews
    case DropFunction(f) => f in s.functions && f !in t.functions
    case DropTable(q) => q in s.tables && q !in t.tables
    case SetVal(q, v, start) =>
      && q in t.sequences && v == t.sequences[q].lastValue && start == t.sequences[q].params.start
      && (q in s.sequences ==> s.sequences[q].lastValue != v)
    case DropSequenceIfExists(q) => q in s.sequences && q !in t.sequences
    case DropSchema(n) => n in s.schemas && n !in t.schemas
    case _ => false
  }

  /** When a statement has its turn, counted in loops. */
  function Turn(c: Pair, e: Stmt): nat {
    match e
    case CreateSchema(_) => 0
    case CreateSequence(_, _) => 1
    case CreateTable(_, _) => 2
    case AlterTable(_, _) => 3
    case CreateIndex(_, _) => 4
    case AddConstraint(k, _) => if k in c.src.constraints then 6 else 5
    case DropConstraint(k) => if k in c.tgt.constraints then 6 else 14
    case CreateView(_, _) => 7
    case ReplaceView(_, _) => 8
    case CreateMatview(_, _) => 9
    case ReplaceFunction(f, _) => if f in c.src.functions then 11 else 10
    case OwnSequence(_, _) => 12
    case DropIndex(_) => 13
    case DropView(_) => 15
    case DropMatview(_) => 16
    case DropFunction(_) => 17
    case DropTable(_) => 18
    case SetVal(_, _, _) => 19
    case DropSequenceIfExists(_) => 20
    case DropSchema(_) => 21
  }

  /** Statements of later loops come later. */
  ghost predicate InTurn(c: Pair, es: seq<Stmt>) {
    forall i, j :: 0 <= i < j < |es| ==> Turn(c, es[i]) <= Turn(c, es[j])
  }

  lemma OnTableAlters(q: QName, actions: seq<Alteration>, e: Stmt)
    requires e in OnTable(q, actions)
    ensures e.AlterTable? && e.table == q
  {}

  /** The statement is of the loop for its kind and case, and on its side of the DML. */
  predicate InItsTurn(c: Pair, p: Phase, e: Stmt) {
    Turn(c, e) == p.Rank() && if p.Rank() < 13 then BeforeData(c, e) else AfterData(c, e)
  }

  lemma TableInTurn(c: Pair, p: Phase, q: QName, e: Stmt)
    requires e in EmitTable(c, p, q)
    ensures InItsTurn(c, p, e)
  {
    hide OnTable, Alterations;
    if p == AlterTables {
      OnTableAlters(q, Alterations(c.src.tables[q], c.tgt.tables[q]), e);
    }
  }

  lemma SchemaInTurn(c: Pair, p: Phase, n: string, e: Stmt)
    requires e in EmitSchema(c, p, n)
    ensures InItsTurn(c, p, e)
  {}

  lemma IndexInTurn(c: Pair, p: Phase, q: QName, e: Stmt)
    requires e in EmitIndex(c, p, q)
    ensures InItsTurn(c, p, e)
  {}

  lemma ConstraintInTurn(c: Pair, p: Phase, n: ConName, e: Stmt)
    requires e in EmitConstraint(c, p, n)
    ensures InItsTurn(c, p, e)
  {}

  lemma ViewInTurn(c: Pair, p: Phase, q: QName, e: Stmt)
    requires e in EmitView(c, p, q)
    ensures InItsTurn(c, p, e)
  {}

  lemma MatviewInTurn(c: Pair, p: Phase, q: QName, e: Stmt)
    requires e in EmitMatview(c, p, q)
    ensures InItsTurn(c, p, e)
  {}

  lemma FunctionInTurn(c: Pair, p: Phase, f: FnName, e: Stmt)
    requires e in EmitFunction(c, p, f)
    ensures InItsTurn(c, p, e)
  {}

  lemma SequenceInTurn(c: Pair, p: Phase, q: QName, e: Stmt)
    requires e in EmitSequence(c, p, q)
    ensures InItsTurn(c, p, e)
  {}

  /** A loop writes the statements whose turn it is. */
  lemma EmitsInTurn(c: Pair, p: Phase, k: ObjectKey, e: Stmt)
    requires e in Emit(c, p, k)
    ensures InItsTurn(c, p, e)
  {
    hide InItsTurn, EmitSchema, EmitTable, EmitIndex, EmitConstraint, EmitView, EmitMatview, EmitFunction, EmitSequence;
    match k {
      case TableKey(q) => TableInTurn(c, p, q, e);
      case SchemaKey(n) => SchemaInTurn(c, p, n, e);
      case IndexKey(q) => IndexInTurn(c, p, q, e);
      case ConstraintKey(n) => ConstraintInTurn(c, p, n, e);
      case ViewKey(q) => ViewInTurn(c, p, q, e);
      case MatviewKey(q) => MatviewInTurn(c, p, q, e);
      case FunctionKey(f) => FunctionInTurn(c, p, f, e);
      case SequenceKey(q) => SequenceInTurn(c, p, q, e);
      case _ =>
    }
  }

  lemma {:induction false} LoopInTurn(c: Pair, p: Phase, n: nat, e: Stmt)
    requires n <= |c.order| && e in Loop(c, p, n)
    ensures InItsTurn(c, p, e)
  {
    hide Emit, InItsTurn;
    if e in Emit(c, p, c.order[n - 1]) {
      EmitsInTurn(c, p, c.order[n - 1], e);
    } else {
      LoopInTurn(c, p, n - 1, e);
    }
  }

  lemma RankOfPhase(i: nat)
    requires i < |PHASES|
    ensures PHASES[i].Rank() == i
  {}

  lemma {:induction false} ScriptInTurn(c: Pair, from: nat, to: nat)
    requires from <= to <= |PHASES|
    ensures InTurn(c, Script(c, from, to))
    ensures forall e :: e in Script(c, from, to) ==>
      from <= Turn(c, e) < to && if Turn(c, e) < 13 then BeforeData(c, e) else AfterData(c, e)
  {
    hide Loop, Turn, BeforeData, AfterData, PHASES;
    if from < to {
      ScriptInTurn(c, from, to - 1);
      RankOfPhase(to - 1);
      var p := PHASES[to - 1];
      forall e | e in Loop(c, p, |c.order|)
        ensures Turn(c, e) == to - 1 && if Turn(c, e) < 13 then BeforeData(c, e) else AfterData(c, e)
      {
        LoopInTurn(c, p, |c.order|, e);
      }
      TurnsJoin(c, Script(c, from, to - 1), Loop(c, p, |c.order|), to - 1);
    }
  }

  lemma TurnsJoin(c: Pair, a: seq<Stmt>, b: seq<Stmt>, turn: nat)
    requires InTurn(c, a) && (forall e :: e in a ==> Turn(c, e) < turn) && forall e :: e in b ==> Turn(c, e) == turn
    ensures InTurn(c, a + b)
  {
    hide Turn;
    var es := a + b;
    forall i, j | 0 <= i < j < |es| ensures Turn(c, es[i]) <= Turn(c, es[j]) {
      assert if i < |a| then es[i] in a else es[i] in b;
      assert if j < |a| then es[j] in a else es[j] in b;
      if i < |a| && j < |a| {
        assert Turn(c, a[i]) <= Turn(c, a[j]);
      }
    }
  }

  /** diff_schemas: the statements before and after the DML. */
  method DiffSchemas(c: Pair) returns (pre: seq<Stmt>, post: seq<Stmt>)
    ensures pre == Script(c, 0, PRE) && post == Script(c, PRE, |PHASES|)
    ensures forall e :: e in pre ==> BeforeData(c, e)
    ensures forall e :: e in post ==> AfterData(c, e)
    ensures InTurn(c, pre) && InTurn(c, post)
  {
    hide Emit, Turn, BeforeData, AfterData;
    ScriptInTurn(c, 0, PRE);
    ScriptInTurn(c, PRE, |PHASES|);
    pre, post := [], [];
    for i := 0 to PRE
      invariant pre == Script(c, 0, i)
    {
      var part := EmitLoop(c, PHASES[i]);
      pre := pre + part;
    }
    for i := PRE to |PHASES|
      invariant post == Script(c, PRE, i)
    {
      var part := EmitLoop(c, PHASES[i]);
      post := post + part;
    }
  }

  method EmitLoop(c: Pair, p: Phase) returns (out: seq<Stmt>)
    ensures out == Loop(c, p, |c.order|)
  {
    hide Emit;
    out := [];
    for i := 0 to |c.order|
      invariant out == Loop(c, p, i)
    {
      out := out + Emit(c, p, c.order[i]);
    }
  }

  // ---------- the catalog ----------

  /** A table without its column order. */
  datatype TableState = TableState(cols: map<string, Column>, pk: Option<seq<string>>)

  datatype Db = Db(
    schemas: set<string>,
    tables: map<QName, TableState>,
    indexes: map<QName, Index>,
    constraints: map<ConName, Definition>,
    views: map<QName, string>,
    matviews: map<QName, string>,
    functions: map<FnName, string>,
    sequences: map<QName, Sequence>)

  function LoadTable(t: Table): TableState {
    TableState(ByName(t.columns), t.pk)
  }

  function Load(s: Schema): Db {
    Db(s.schemas, map q | q in s.tables :: LoadTable(s.tables[q]),
       s.indexes, s.constraints, s.views, s.matviews, s.functions, s.sequences)
  }

  /** The rendered column: an identity column is written without its default. */
  function Rendered(c: Column): Column {
    if c.identity.Some? then c.(default := None) else c
  }

  /** The table as CREATE TABLE makes it. */
  function Created(t: Table): TableState {
    TableState(map n | n in ByName(t.columns) :: Rendered(ByName(t.columns)[n]), t.pk)
  }

  predicate InPk(pk: Option<seq<string>>, n: string) {
    pk.Some? && n in pk.value
  }

  /** The types of identity columns. */
  const INTEGERS: set<string> := {"smallint", "integer", "bigint"}

  predicate IsIdentity(t: TableState, n: string)
    requires n in t.cols
  {
    t.cols[n].identity.Some?
  }

  /** Running an ALTER TABLE action; None is an error. Dropping a column of the primary key
      drops the key with it; a key column cannot lose NOT NULL. An identity column cannot
      either, nor take a default or another than an integer type. */
  function ExecuteAlteration(t: TableState, a: Alteration): Option<TableState> {
    match a
    case AddColumn(c) =>
      if c.name in t.cols then None else Some(t.(cols := t.cols[c.name := Rendered(c)]))
    case SetType(n, typ) =>
      if n !in t.cols || (IsIdentity(t, n) && typ !in INTEGERS) then None
      else Some(t.(cols := t.cols[n := t.cols[n].(typ := typ)]))
    case SetDefault(n, d) =>
      if n !in t.cols || IsIdentity(t, n) then None
      else Some(t.(cols := t.cols[n := t.cols[n].(default := Some(d))]))
    case DropDefault(n) =>
      if n !in t.cols || IsIdentity(t, n) then None
      else Some(t.(cols := t.cols[n := t.cols[n].(default := None)]))
    case SetNotNull(n) =>
      if n !in t.cols then None else Some(t.(cols := t.cols[n := t.cols[n].(notNull := true)]))
    case DropNotNull(n) =>
      if n !in t.cols || InPk(t.pk, n) || IsIdentity(t, n) then None
      else Some(t.(cols := t.cols[n := t.cols[n].(notNull := false)]))
    case DropColumn(n) =>
      if n !in t.cols then None
      else Some(TableState(t.cols - {n}, if InPk(t.pk, n) then None else t.pk))
    case DropPk => if t.pk.None? then None else Some(t.(pk := None))
    case AddPk(pk) =>
      if t.pk.Some? || exists n :: n in pk && n !in t.cols then None
      else Some(TableState(map n | n in t.cols :: if n in pk then t.cols[n].(notNull := true) else t.cols[n], Some(pk)))
  }

  function ExecuteAlterations(t: TableState, actions: seq<Alteration>): Option<TableState> {
    if actions == [] then Some(t)
    else match ExecuteAlterations(t, actions[..|actions| - 1])
      case None => None
      case Some(u) => ExecuteAlteration(u, actions[|actions| - 1])
  }

  /** The table or materialized view an index is on. */
  function TableOfIndex(q: QName, i: Index): QName {
    QName(q.schema, i.table)
  }

  /** Relations share one name space within a schema. */
  predicate NameTaken(db: Db, q: QName) {
    q in db.tables || q in db.indexes || q in db.views || q in db.matviews || q in db.sequences
  }

  /** The name belongs to a relation that is not a sequence. */
  predicate OtherKind(db: Db, q: QName) {
    q in db.tables || q in db.indexes || q in db.views || q in db.matviews
  }

  predicate HasColumns(db: Db, q: QName, cols: set<string>) {
    q in db.tables && cols <= db.tables[q].cols.Keys
  }

  /** An index can be built on a table with its columns, or on a materialized view. */
  predicate CanIndex(db: Db, q: QName, cols: set<string>) {
    HasColumns(db, q, cols) || q in db.matviews
  }

  /** What goes away with a dropped column: indexes and constraints of the table that
      mention it, and sequences it owns. */
  function WithoutColumn(db: Db, q: QName, n: string): Db {
    db.(
      indexes := map i | i in db.indexes &&
        !(TableOfIndex(i, db.indexes[i]) == q && n in db.indexes[i].definition.cols) :: db.indexes[i],
      constraints := map k | k in db.constraints && !(k.table == q && n in db.constraints[k].cols) :: db.constraints[k],
      sequences := map k | k in db.sequences && db.sequences[k].ownedBy != Some(ColumnRef(q, n)) :: db.sequences[k])
  }

  /** A materialized view goes with its indexes. */
  function WithoutMatview(db: Db, q: QName): Db {
    db.(matviews := db.matviews - {q},
      indexes := map i | i in db.indexes && TableOfIndex(i, db.indexes[i]) != q :: db.indexes[i])
  }

  /** Some index or constraint still hangs on the table, or a foreign key refers to it. */
  predicate TableInUse(db: Db, q: QName) {
    || (exists i :: i in db.indexes && TableOfIndex(i, db.indexes[i]) == q)
    || (exists k :: k in db.constraints && (k.table == q || db.constraints[k].refs == Some(q)))
  }

  predicate SchemaInUse(db: Db, n: string) {
    || (exists q :: q in db.tables && q.schema == n) || (exists q :: q in db.indexes && q.schema == n)
    || (exists k :: k in db.constraints && k.table.schema == n)
    || (exists q :: q in db.views && q.schema == n) || (exists q :: q in db.matviews && q.schema == n)
    || (exists f :: f in db.functions && f.schema == n) || (exists q :: q in db.sequences && q.schema == n)
  }

  // ---------- bounds of sequences ----------

  function TypeMax(typ: string): int {
    if typ == "smallint" then 32767 else if typ == "integer" then 2147483647 else 9223372036854775807
  }

  function TypeMin(typ: string): int {
    -TypeMax(typ) - 1
  }

  predicate InBounds(p: Params, v: int) {
    p.min <= v <= p.max
  }

  /** What the server keeps true of a sequence. */
  predicate SequenceOk(s: Sequence) {
    && TypeMin(s.params.dataType) <= s.params.min < s.params.max <= TypeMax(s.params.dataType)
    && InBounds(s.params, s.params.start) && (s.lastValue.Some? ==> InBounds(s.params, s.lastValue.value))
  }

  /** The value that setval writes; a sequence not called yet is set to its start. */
  function SetTo(lastValue: Option<int>, start: int): int {
    if lastValue.Some? then lastValue.value else start
  }

  /** A change of type moves a bound that was the end of the old type to the end of the new. */
  function Retype(p: Params, typ: string): Params {
    p.(dataType := typ,
       min := if p.min == TypeMin(p.dataType) then TypeMin(typ) else p.min,
       max := if p.max == TypeMax(p.dataType) then TypeMax(typ) else p.max)
  }

  function RetypedBy(s: Sequence, o: ColumnRef, typ: string): Sequence {
    if s.ownedBy == Some(o) then s.(params := Retype(s.params, typ)) else s
  }

  /** An identity column that takes another type takes its sequence along. */
  function Retyped(x: map<QName, Sequence>, o: ColumnRef, typ: string): map<QName, Sequence> {
    map k | k in x :: RetypedBy(x[k], o, typ)
  }

  predicate CanRetype(x: map<QName, Sequence>, o: ColumnRef, typ: string) {
    forall k :: k in x && x[k].ownedBy == Some(o) ==> SequenceOk(RetypedBy(x[k], o, typ))
  }

  // ---------- identity columns ----------

  ghost function Longest(names: set<QName>): (n: nat)
    ensures forall q :: q in names ==> |q.name| <= n
  {
    if names == {} then 0
    else
      var q :| q in names;
      var rest := Longest(names - {q});
      if |q.name| > rest then |q.name| else rest
  }

  lemma SomeNameIsFree(db: Db, schema: string)
    ensures exists n: string :: !NameTaken(db, QName(schema, n))
  {
    var names := db.tables.Keys + db.indexes.Keys + db.views.Keys + db.matviews.Keys + db.sequences.Keys;
    var n: string := seq(Longest(names) + 1, _ => 'x');
    assert QName(schema, n).name == n;
    assert QName(schema, n) !in names;
  }

  /** A relation name of the server's choice that nothing has yet. */
  ghost function FreeName(db: Db, schema: string): (q: QName)
    ensures q.schema == schema && !NameTaken(db, q)
  {
    SomeNameIsFree(db, schema);
    var n: string :| !NameTaken(db, QName(schema, n));
    QName(schema, n)
  }

  function IdentityParams(typ: string): Params {
    Params(typ, 1, 1, 1, TypeMax(typ), 1, false)
  }

  /** A new identity column brings a sequence of its own. */
  ghost function WithIdentity(db: Db, q: QName, c: Column): (r: Db)
    ensures r == db.(sequences := r.sequences)
  {
    if c.identity == None then db
    else db.(sequences := db.sequences[FreeName(db, q.schema) :=
               Sequence(IdentityParams(c.typ), None, Some(ColumnRef(q, c.name)))])
  }

  ghost function WithIdentities(db: Db, q: QName, cols: seq<Column>): (r: Db)
    ensures r == db.(sequences := r.sequences)
  {
    if cols == [] then db
    else WithIdentity(WithIdentities(db, q, cols[..|cols| - 1]), q, cols[|cols| - 1])
  }

  /** The sequence belongs to an identity column, which cannot be without it. */
  predicate Internal(db: Db, q: QName) {
    && q in db.sequences && db.sequences[q].ownedBy.Some?
    && var o := db.sequences[q].ownedBy.value;
       o.table in db.tables && o.column in db.tables[o.table].cols && db.tables[o.table].cols[o.column].identity.Some?
  }

  /** The sequence that setval('schema.name', ...) addresses. */
  function Addressed(q: QName): Option<QName> {
    match Setval.Read(Setval.Call(q.schema, q.name))
    case Some((s, n)) => Some(QName(s, n))
    case None => None
  }

  /** What an ALTER TABLE action does beyond its table, once the table is altered. */
  ghost function Follow(db: Db, q: QName, a: Alteration): Option<Db>
    requires q in db.tables
  {
    match a
    case DropColumn(n) => Some(WithoutColumn(db, q, n))
    case AddColumn(c) => Some(WithIdentity(db, q, c))
    case SetType(n, typ) =>
      if n !in db.tables[q].cols || !IsIdentity(db.tables[q], n) then Some(db)
      else if CanRetype(db.sequences, ColumnRef(q, n), typ)
      then Some(db.(sequences := Retyped(db.sequences, ColumnRef(q, n), typ)))
      else None
    case _ => Some(db)
  }

  /** Running a statement; None is an error. DROP TABLE is stricter than PostgreSQL in
      that the table's own indexes and constraints must be gone already, and a setval that
      addresses another sequence than its own counts as an error. */
  ghost function Execute(db: Db, e: Stmt): Option<Db> {
    match e
    case CreateSchema(n) =>
      if n in db.schemas then None else Some(db.(schemas := db.schemas + {n}))
    case CreateSequence(q, p) =>
      if q.schema !in db.schemas || NameTaken(db, q) || !SequenceOk(Sequence(p, None, None)) then None
      else Some(db.(sequences := db.sequences[q := Sequence(p, None, None)]))
    case CreateTable(q, t) =>
      if q.schema !in db.schemas || NameTaken(db, q) then None
      else Some(WithIdentities(db.(tables := db.tables[q := Created(t)]), q, t.columns))
    case AlterTable(q, a) =>
      if q !in db.tables then None
      else (match ExecuteAlteration(db.tables[q], a)
            case None => None
            case Some(t) => Follow(db.(tables := db.tables[q := t]), q, a))
    case CreateIndex(q, i) =>
      if q.schema !in db.schemas || NameTaken(db, q) || !CanIndex(db, TableOfIndex(q, i), i.definition.cols) then None
      else Some(db.(indexes := db.indexes[q := i]))
    case AddConstraint(k, d) =>
      if k in db.constraints || !HasColumns(db, k.table, d.cols) ||
        (d.refs.Some? && d.refs.value !in db.tables) then None
      else Some(db.(constraints := db.constraints[k := d]))
    case CreateView(q, text) =>
      if q.schema !in db.schemas || NameTaken(db, q) then None else Some(db.(views := db.views[q := text]))
    case ReplaceView(q, text) => if q !in db.views then None else Some(db.(views := db.views[q := text]))
    case CreateMatview(q, text) =>
      if q.schema !in db.schemas || NameTaken(db, q) then None else Some(db.(matviews := db.matviews[q := text]))
    case ReplaceFunction(f, text) =>
      if f.schema !in db.schemas then None else Some(db.(functions := db.functions[f := text]))
    case OwnSequence(q, r) =>
      if q !in db.sequences || !HasColumns(db, r.table, {r.column}) then None
      else Some(db.(sequences := db.sequences[q := db.sequences[q].(ownedBy := Some(r))]))
    case DropIndex(q) => if q !in db.indexes then None else Some(db.(indexes := db.indexes - {q}))
    case DropConstraint(k) => if k !in db.constraints then None else Some(db.(constraints := db.constraints - {k}))
    case DropView(q) => if q !in db.views then None else Some(db.(views := db.views - {q}))
    case DropMatview(q) => if q !in db.matviews then None else Some(WithoutMatview(db, q))
    case DropFunction(f) => if f !in db.functions then None else Some(db.(functions := db.functions - {f}))
    case DropTable(q) =>
      if q !in db.tables || TableInUse(db, q) then None
      else Some(db.(tables := db.tables - {q}, sequences := map k | k in db.sequences &&
        !(db.sequences[k].ownedBy.Some? && db.sequences[k].ownedBy.value.table == q) :: db.sequences[k]))
    case SetVal(q, v, start) =>
      if q !in db.sequences || Addressed(q) != Some(q) || !InBounds(db.sequences[q].params, SetTo(v, start)) then None
      else Some(db.(sequences := db.sequences[q := db.sequences[q].(lastValue := v)]))
    case DropSequenceIfExists(q) =>
      if OtherKind(db, q) || Internal(db, q) then None else Some(db.(sequences := db.sequences - {q}))
    case DropSchema(n) =>
      if n !in db.schemas || SchemaInUse(db, n) then None else Some(db.(schemas := db.schemas - {n}))
  }

  ghost function ExecuteAll(db: Db, es: seq<Stmt>): Option<Db> {
    if es == [] then Some(db)
    else match ExecuteAll(db, es[..|es| - 1])
      case None => None
      case Some(u) => Execute(u, es[|es| - 1])
  }
}
