/** Steps of the DDL script on tables and schemas. */
module DdlTables {
  import opened Types
  import opened Catalog
  import opened SchemaMerge
  import opened Ddl
  import opened DdlProof
  import opened DdlRun

  // ---------- altering one table inside the catalog ----------

  /** No index or constraint of the table mentions a column that goes. */
  ghost predicate NothingHangs(db: Db, q: QName, gone: set<string>) {
    && (forall i :: i in db.indexes && TableOfIndex(i, db.indexes[i]) == q ==> db.indexes[i].definition.cols !! gone)
    && (forall k :: k in db.constraints && k.table == q ==> db.constraints[k].cols !! gone)
  }

  ghost predicate OwnedByGone(s: Sequence, q: QName, gone: set<string>) {
    s.ownedBy.Some? && s.ownedBy.value.table == q && s.ownedBy.value.column in gone
  }

  /** The type that the actions give a column. */
  function TypeSet(actions: seq<Alteration>, n: string): Option<string> {
    if actions == [] then None
    else if actions[|actions| - 1].SetType? && actions[|actions| - 1].name == n then Some(actions[|actions| - 1].typ)
    else TypeSet(actions[..|actions| - 1], n)
  }

  /** No column is given a type twice, and columns are added under new names, without identity. */
  ghost predicate Tame(t: TableState, actions: seq<Alteration>) {
    forall i :: 0 <= i < |actions| ==>
      && (actions[i].SetType? ==> TypeSet(actions[..i], actions[i].name) == None)
      && (actions[i].AddColumn? ==> actions[i].column.identity == None && actions[i].column.name !in t.cols)
  }

  ghost predicate HasIdentity(u: TableState, n: string) {
    n in u.cols && IsIdentity(u, n)
  }

  /** The sequence follows a column of the table that is given a type. */
  ghost predicate Follows(s: Sequence, q: QName, t: TableState, actions: seq<Alteration>) {
    && s.ownedBy.Some? && s.ownedBy.value.table == q && HasIdentity(t, s.ownedBy.value.column)
    && TypeSet(actions, s.ownedBy.value.column).Some?
  }

  ghost function Carried(s: Sequence, q: QName, t: TableState, actions: seq<Alteration>): Sequence {
    if Follows(s, q, t, actions) then s.(params := Retype(s.params, TypeSet(actions, s.ownedBy.value.column).value))
    else s
  }

  /** Only sequences owned by a column that goes are missing; the others are carried along. */
  ghost predicate Shed(x: map<QName, Sequence>, y: map<QName, Sequence>, q: QName, t: TableState,
                       actions: seq<Alteration>, gone: set<string>) {
    && (forall k :: k in y ==> k in x && y[k] == Carried(x[k], q, t, actions))
    && (forall k :: k in x && !OwnedByGone(x[k], q, gone) ==> k in y)
  }

  /** Every sequence can take the type that its column is given. */
  ghost predicate CanCarry(x: map<QName, Sequence>, q: QName, t: TableState, actions: seq<Alteration>) {
    forall k :: k in x && Follows(x[k], q, t, actions) ==> SequenceOk(Carried(x[k], q, t, actions))
  }

  /** The table is now as the actions leave it, and nothing else changed but sequences. */
  ghost predicate Becomes(db: Db, u: Option<Db>, q: QName, actions: seq<Alteration>, gone: set<string>)
    requires q in db.tables
  {
    && u.Some? && ExecuteAlterations(db.tables[q], actions).Some?
    && Shed(db.sequences, u.value.sequences, q, db.tables[q], actions, gone)
    && u.value == db.(tables := db.tables[q := ExecuteAlterations(db.tables[q], actions).value],
                      sequences := u.value.sequences)
  }

  lemma StillNothing(db: Db, u: Db, q: QName, gone: set<string>)
    requires NothingHangs(db, q, gone) && u.indexes == db.indexes && u.constraints == db.constraints
    ensures NothingHangs(u, q, gone)
  {}

  /** Identity is where it was: actions neither give nor take it. */
  ghost predicate SameIdentity(t: TableState, u: TableState) {
    forall n :: n in u.cols ==> (IsIdentity(u, n) <==> HasIdentity(t, n))
  }

  lemma IdentityStep(t: TableState, u: TableState, a: Alteration)
    requires SameIdentity(t, u) && ExecuteAlteration(u, a).Some?
    requires a.AddColumn? ==> a.column.identity == None && a.column.name !in t.cols
    ensures SameIdentity(t, ExecuteAlteration(u, a).value)
  {}

  lemma {:induction false} IdentityRun(t: TableState, actions: seq<Alteration>)
    requires Tame(t, actions) && ExecuteAlterations(t, actions).Some?
    ensures SameIdentity(t, ExecuteAlterations(t, actions).value)
  {
    if actions != [] {
      TameFront(t, actions);
      IdentityRun(t, actions[..|actions| - 1]);
      hide Tame, SameIdentity, ExecuteAlteration;
      IdentityStep(t, ExecuteAlterations(t, actions[..|actions| - 1]).value, actions[|actions| - 1]);
    }
  }

  lemma TameFront(t: TableState, actions: seq<Alteration>)
    requires Tame(t, actions) && actions != []
    ensures var front, a := actions[..|actions| - 1], actions[|actions| - 1];
      && Tame(t, front) && (a.SetType? ==> TypeSet(front, a.name) == None)
      && (a.AddColumn? ==> a.column.identity == None && a.column.name !in t.cols)
  {
    var front := actions[..|actions| - 1];
    hide TypeSet;
    forall i | 0 <= i < |front| ensures actions[..i] == front[..i] && front[i] == actions[i] {}
    assert actions[|actions| - 1] == actions[|front|] && actions[..|front|] == front;
  }

  lemma CanCarryFront(x: map<QName, Sequence>, q: QName, t: TableState, actions: seq<Alteration>)
    requires CanCarry(x, q, t, actions) && Tame(t, actions) && actions != []
    ensures CanCarry(x, q, t, actions[..|actions| - 1])
  {
    TameFront(t, actions);
    hide Tame, HasIdentity, SequenceOk;
  }

  lemma LastExecuted(t: TableState, actions: seq<Alteration>)
    requires actions != [] && ExecuteAlterations(t, actions).Some?
    ensures ExecuteAlterations(t, actions[..|actions| - 1]).Some?
    ensures ExecuteAlteration(ExecuteAlterations(t, actions[..|actions| - 1]).value, actions[|actions| - 1]) ==
      ExecuteAlterations(t, actions)
  {
    hide ExecuteAlteration;
  }

  /** What the last action does to a sequence that the others have carried along. */
  lemma CarriedLast(s: Sequence, q: QName, t: TableState, actions: seq<Alteration>)
    requires actions != [] && Tame(t, actions) && actions[|actions| - 1].SetType?
    ensures var a := actions[|actions| - 1];
      var w := Carried(s, q, t, actions[..|actions| - 1]);
      && w.ownedBy == s.ownedBy
      && Carried(s, q, t, actions) == (if HasIdentity(t, a.name) then RetypedBy(w, ColumnRef(q, a.name), a.typ) else w)
      && (HasIdentity(t, a.name) && s.ownedBy == Some(ColumnRef(q, a.name)) ==> Follows(s, q, t, actions))
  {
    TameFront(t, actions);
    hide Tame, HasIdentity;
  }

  /** The last action takes along what it gives a type. */
  lemma LastFollows(db: Db, u: Db, q: QName, actions: seq<Alteration>, gone: set<string>, v: TableState)
    requires actions != [] && q in db.tables && Tame(db.tables[q], actions)
    requires Becomes(db, Some(u), q, actions[..|actions| - 1], gone)
    requires CanCarry(db.sequences, q, db.tables[q], actions) && actions[|actions| - 1].SetType?
    requires ExecuteAlteration(u.tables[q], actions[|actions| - 1]) == Some(v)
    ensures var w := Follow(u.(tables := u.tables[q := v]), q, actions[|actions| - 1]);
      && w.Some? && w.value == u.(tables := u.tables[q := v], sequences := w.value.sequences)
      && Shed(db.sequences, w.value.sequences, q, db.tables[q], actions, gone)
  {
    hide Tame, SequenceOk, OwnedByGone, ExecuteAlterations, ExecuteAlteration, SameIdentity, HasIdentity, Carried,
      Follows, RetypedBy;
    var t, a := db.tables[q], actions[|actions| - 1];
    LastIdentity(t, actions, v);
    forall k | k in u.sequences
      ensures Carried(db.sequences[k], q, t, actions) ==
        if HasIdentity(t, a.name) then RetypedBy(u.sequences[k], ColumnRef(q, a.name), a.typ) else u.sequences[k]
      ensures HasIdentity(t, a.name) && u.sequences[k].ownedBy == Some(ColumnRef(q, a.name)) ==>
        Follows(db.sequences[k], q, t, actions)
    {
      CarriedLast(db.sequences[k], q, t, actions);
    }
  }

  lemma LastIdentity(t: TableState, actions: seq<Alteration>, v: TableState)
    requires actions != [] && Tame(t, actions) && actions[|actions| - 1].SetType?
    requires var u := ExecuteAlterations(t, actions[..|actions| - 1]);
      u.Some? && ExecuteAlteration(u.value, actions[|actions| - 1]) == Some(v)
    ensures var n := actions[|actions| - 1].name; n in v.cols && (IsIdentity(v, n) <==> HasIdentity(t, n))
  {
    hide Tame, SameIdentity, HasIdentity, ExecuteAlterations, ExecuteAlteration, IsIdentity;
    var a, u := actions[|actions| - 1], ExecuteAlterations(t, actions[..|actions| - 1]).value;
    TameFront(t, actions);
    IdentityRun(t, actions[..|actions| - 1]);
    IdentityStep(t, u, a);
    NamedThere(u, a);
    SameIdentityAt(t, v, a.name);
  }

  lemma NamedThere(u: TableState, a: Alteration)
    requires a.SetType? && ExecuteAlteration(u, a).Some?
    ensures a.name in ExecuteAlteration(u, a).value.cols
  {}

  lemma SameIdentityAt(t: TableState, u: TableState, n: string)
    requires SameIdentity(t, u) && n in u.cols
    ensures IsIdentity(u, n) <==> HasIdentity(t, n)
  {}

  lemma DropFollows(db: Db, q: QName, n: string, gone: set<string>)
    requires NothingHangs(db, q, gone) && n in gone
    ensures var u := WithoutColumn(db, q, n);
      && u == db.(sequences := u.sequences)
      && (forall k :: k in u.sequences ==> k in db.sequences && u.sequences[k] == db.sequences[k])
      && (forall k :: k in db.sequences && !OwnedByGone(db.sequences[k], q, gone) ==> k in u.sequences)
  {
    assert WithoutColumn(db, q, n).indexes == db.indexes;
    assert WithoutColumn(db, q, n).constraints == db.constraints;
  }

  lemma ExecuteAlter(u: Db, q: QName, a: Alteration, v: TableState)
    requires q in u.tables && ExecuteAlteration(u.tables[q], a) == Some(v)
    ensures Execute(u, AlterTable(q, a)) == Follow(u.(tables := u.tables[q := v]), q, a)
  {
    hide ExecuteAlteration, Follow;
  }

  lemma OneAlteration(db: Db, u: Db, q: QName, actions: seq<Alteration>, gone: set<string>)
    requires actions != [] && q in db.tables && NothingHangs(db, q, gone) && Tame(db.tables[q], actions)
    requires Becomes(db, Some(u), q, actions[..|actions| - 1], gone)
    requires actions[|actions| - 1].DropColumn? ==> actions[|actions| - 1].name in gone
    requires CanCarry(db.sequences, q, db.tables[q], actions) && ExecuteAlterations(db.tables[q], actions).Some?
    ensures Becomes(db, Execute(u, AlterTable(q, actions[|actions| - 1])), q, actions, gone)
  {
    hide Execute, ExecuteAlteration, ExecuteAlterations, NothingHangs, Tame, CanCarry, Shed, Follow;
    var a := actions[|actions| - 1];
    var v := ExecuteAlterations(db.tables[q], actions).value;
    LastExecuted(db.tables[q], actions);
    ExecuteAlter(u, q, a, v);
    assert db.tables[q := u.tables[q]][q := v] == db.tables[q := v];
    if a.SetType? {
      LastFollows(db, u, q, actions, gone, v);
    } else {
      OtherFollows(db, u, q, actions, gone, v);
    }
  }

  lemma OtherFollows(db: Db, u: Db, q: QName, actions: seq<Alteration>, gone: set<string>, v: TableState)
    requires actions != [] && q in db.tables && NothingHangs(db, q, gone) && Tame(db.tables[q], actions)
    requires Becomes(db, Some(u), q, actions[..|actions| - 1], gone)
    requires var a := actions[|actions| - 1]; !a.SetType? && (a.DropColumn? ==> a.name in gone)
    ensures var w := Follow(u.(tables := u.tables[q := v]), q, actions[|actions| - 1]);
      && w.Some? && w.value == u.(tables := u.tables[q := v], sequences := w.value.sequences)
      && Shed(db.sequences, w.value.sequences, q, db.tables[q], actions, gone)
  {
    var a := actions[|actions| - 1];
    var u' := u.(tables := u.tables[q := v]);
    TameFront(db.tables[q], actions);
    SameTypes(actions, a);
    hide TypeSet, ExecuteAlterations, NothingHangs, Tame, HasIdentity, WithoutColumn, OwnedByGone;
    if a.DropColumn? {
      StillNothing(db, u', q, gone);
      DropFollows(u', q, a.name, gone);
      CarriedOwner(db, u, q, actions, gone);
    }
  }

  lemma SameTypes(actions: seq<Alteration>, a: Alteration)
    requires actions != [] && a == actions[|actions| - 1] && !a.SetType?
    ensures forall n :: TypeSet(actions, n) == TypeSet(actions[..|actions| - 1], n)
  {}

  /** Being carried along does not change the owner. */
  lemma CarriedOwner(db: Db, u: Db, q: QName, actions: seq<Alteration>, gone: set<string>)
    requires actions != [] && q in db.tables && Becomes(db, Some(u), q, actions[..|actions| - 1], gone)
    ensures forall k :: k in u.sequences ==>
      k in db.sequences && (OwnedByGone(u.sequences[k], q, gone) <==> OwnedByGone(db.sequences[k], q, gone))
  {
    hide TypeSet, HasIdentity, ExecuteAlterations;
  }

  lemma {:induction false} RunTable(db: Db, q: QName, actions: seq<Alteration>, gone: set<string>)
    requires q in db.tables && NothingHangs(db, q, gone) && Tame(db.tables[q], actions)
    requires forall i :: 0 <= i < |actions| && actions[i].DropColumn? ==> actions[i].name in gone
    requires CanCarry(db.sequences, q, db.tables[q], actions) && ExecuteAlterations(db.tables[q], actions).Some?
    ensures Becomes(db, ExecuteAll(db, OnTable(q, actions)), q, actions, gone)
  {
    hide Execute, ExecuteAlteration, NothingHangs, Tame, CanCarry, HasIdentity;
    if actions == [] {
      assert db.tables[q := db.tables[q]] == db.tables;
    } else {
      var front := actions[..|actions| - 1];
      TameFront(db.tables[q], actions);
      CanCarryFront(db.sequences, q, db.tables[q], actions);
      RunTable(db, q, front, gone);
      OneAlteration(db, ExecuteAll(db, OnTable(q, front)).value, q, actions, gone);
      assert OnTable(q, actions)[..|actions| - 1] == OnTable(q, front);
      hide Becomes;
    }
  }

  // ---------- tables ----------

  lemma TableEnds(c: Pair, q: QName)
    ensures var (s, t) := (c.src.tables, c.tgt.tables);
      && Lookup(Load(c.src).tables, q) == (if q in s then Some(LoadTable(s[q])) else None)
      && Lookup(Target(c).tables, q) ==
         (if q !in t then None else if q in s then Some(TargetTable(s[q], t[q])) else Some(LoadTable(t[q])))
  {
    hide LoadTable, TargetTable;
  }

  lemma TableEmits(c: Pair, p: Phase, n: nat, q: QName)
    requires Listed(c) && n < |c.order| && c.order[n] == TableKey(q)
    ensures var r := p.Rank();
      var es, was, next := EmitTable(c, p, q), TableNow(c, r, n, q), TableNow(c, r, n + 1, q);
      || (es == [] && next == was && !(r == 3 && q in c.tgt.tables && q in c.src.tables))
      || (r == 2 && q in c.tgt.tables && q !in c.src.tables && was == None &&
           next == Some(LoadTable(c.tgt.tables[q])) && es == [CreateTable(q, c.tgt.tables[q])])
      || (r == 3 && q in c.tgt.tables && q in c.src.tables && was == Some(LoadTable(c.src.tables[q])) &&
           next == Some(TargetTable(c.src.tables[q], c.tgt.tables[q])) &&
           es == OnTable(q, Alterations(c.src.tables[q], c.tgt.tables[q])))
      || (r == 18 && q !in c.tgt.tables && q in c.src.tables && was.Some? && next == None && es == [DropTable(q)])
  {
    hide LoadTable, TargetTable, Alterations, Did, Listed, Load, Target, Phase.Rank;
    var r := p.Rank();
    TableEnds(c, q);
    RankIs(p);
    DidNext(c, r, n, NewTables, TableKey(q));
    DidNext(c, r, n, AlterTables, TableKey(q));
    DidNext(c, r, n, DropTables, TableKey(q));
    NotYet(c, r, n, p);
  }

  lemma TableThere(c: Pair, db: Db, r: nat, n: nat, q: QName)
    requires n <= |c.order| && St(c, db, r, n)
    ensures Lookup(db.tables, q) == TableNow(c, r, n, q)
  {}

  /** No target sequence is lost, and those that ride with the table are as the next point
      wants them. */
  ghost predicate SequencesKept(c: Pair, r: nat, n: nat, x: map<QName, Sequence>, y: map<QName, Sequence>)
    requires n < |c.order|
  {
    && (forall k :: k in y && k !in c.tgt.sequences ==> k in x && y[k] == x[k])
    && (forall k :: k in c.tgt.sequences ==>
         Lookup(y, k) == if Rides(c, r, n, k) then SequenceNow(c, r, n + 1, k) else Lookup(x, k))
  }

  lemma NothingRides(c: Pair, r: nat, n: nat, x: map<QName, Sequence>, y: map<QName, Sequence>)
    requires n < |c.order| && r != 3 && forall k :: k in y ==> k in x && y[k] == x[k]
    requires forall k :: k in c.tgt.sequences && k in x ==> k in y
    ensures SequencesKept(c, r, n, x, y)
  {}

  lemma TableGoes(c: Pair, db: Db, r: nat, n: nat, q: QName, es: seq<Stmt>, u: Db)
    requires n < |c.order| && c.order[n] == TableKey(q) && Others(c, db, r, n) && ExecuteAll(db, es) == Some(u)
    requires u == db.(tables := u.tables, sequences := u.sequences)
    requires forall k :: k != q ==> Lookup(u.tables, k) == Lookup(db.tables, k)
    requires Lookup(u.tables, q) == TableNow(c, r, n + 1, q) && SequencesKept(c, r, n, db.sequences, u.sequences)
    ensures Goes(c, db, r, n, es)
  {
    hide ExecuteAll, St, SchemaNow, TableNow, IndexNow, ConstraintNow, ViewNow, MatviewNow, FunctionNow, SequenceNow,
      Did, Rides;
    assert Others(c, u, r, n);
    assert OwnOk(c, u, r, n);
    hide Others, OwnOk;
    Assemble(c, u, r, n);
  }

  // ---------- a new table ----------

  lemma RenderedSame(t: Table)
    requires TableOk(t)
    ensures Created(t) == LoadTable(t)
  {}

  ghost predicate NoIdentity(cols: seq<Column>) {
    forall i :: 0 <= i < |cols| ==> cols[i].identity == None
  }

  lemma {:induction false} NoSequenceOfItsOwn(db: Db, q: QName, cols: seq<Column>)
    requires NoIdentity(cols)
    ensures WithIdentities(db, q, cols) == db
  {
    if cols != [] {
      NoSequenceOfItsOwn(db, q, cols[..|cols| - 1]);
    }
  }

  lemma NewTable(c: Pair, db: Db, r: nat, n: nat, q: QName, t: Table)
    requires n < |c.order| && c.order[n] == TableKey(q) && Others(c, db, r, n) && TableOk(t) && NoIdentity(t.columns)
    requires TableNow(c, r, n + 1, q) == Some(LoadTable(t)) && q.schema in db.schemas && !NameTaken(db, q) && r != 3
    ensures Goes(c, db, r, n, [CreateTable(q, t)])
  {
    hide Goes, St, Others, TableNow, TableOk, NameTaken, LoadTable, Created, WithIdentities, NoIdentity;
    RenderedSame(t);
    var e, u := CreateTable(q, t), db.(tables := db.tables[q := LoadTable(t)]);
    NoSequenceOfItsOwn(u, q, t.columns);
    assert Execute(db, e) == Some(u);
    hide Execute;
    ExecuteOne(db, e);
    NothingRides(c, r, n, db.sequences, u.sequences);
    TableGoes(c, db, r, n, q, [e], u);
  }

  lemma FreeTableName(c: Pair, db: Db, r: nat, n: nat, q: QName)
    requires n <= |c.order| && St(c, db, r, n) && Disjoint(c.tgt) && !Named(c.src, q)
    requires q in c.tgt.tables && q !in db.tables
    ensures !NameTaken(db, q)
  {
    StillFree(c, db, r, n, q);
    OnlyOneKind(c.tgt, q);
    hide St, Disjoint, Named;
  }

  // ---------- a common table ----------

  function Names(t: Table): set<string> {
    ByName(t.columns).Keys
  }

  lemma {:induction false} AddsDropNothing(cols: seq<Column>, s: map<string, Column>)
    ensures forall i :: 0 <= i < |AddColumns(cols, s)| ==> !AddColumns(cols, s)[i].DropColumn?
  {
    if cols != [] {
      AddsDropNothing(cols[..|cols| - 1], s);
    }
  }

  lemma {:induction false} AltersDropNothing(cols: seq<Column>, s: map<string, Column>)
    ensures forall i :: 0 <= i < |AlterColumns(cols, s)| ==> !AlterColumns(cols, s)[i].DropColumn?
  {
    if cols != [] {
      AltersDropNothing(cols[..|cols| - 1], s);
    }
  }

  lemma {:induction false} DropsDropGone(cols: seq<Column>, t: map<string, Column>)
    ensures forall i :: 0 <= i < |DropColumns(cols, t)| ==>
      DropColumns(cols, t)[i].DropColumn? && DropColumns(cols, t)[i].name in ByName(cols).Keys - t.Keys
  {
    if cols != [] {
      DropsDropGone(cols[..|cols| - 1], t);
    }
  }

  lemma {:induction false} AddsAreNew(cols: seq<Column>, s: map<string, Column>)
    ensures forall i :: 0 <= i < |AddColumns(cols, s)| ==>
      AddColumns(cols, s)[i].AddColumn? &&
      AddColumns(cols, s)[i].column in cols && AddColumns(cols, s)[i].column.name !in s
  {
    if cols != [] {
      AddsAreNew(cols[..|cols| - 1], s);
    }
  }

  lemma {:induction false} AltersAddNothing(cols: seq<Column>, s: map<string, Column>)
    ensures forall i :: 0 <= i < |AlterColumns(cols, s)| ==> !AlterColumns(cols, s)[i].AddColumn?
  {
    if cols != [] {
      AltersAddNothing(cols[..|cols| - 1], s);
    }
  }

  /** Only columns that are new to the table are added. */
  lemma AlterationsAddNew(s: Table, t: Table)
    ensures forall i :: 0 <= i < |Alterations(s, t)| && Alterations(s, t)[i].AddColumn? ==>
      Alterations(s, t)[i].column in t.columns && Alterations(s, t)[i].column.name !in ByName(s.columns)
  {
    AddsAreNew(t.columns, ByName(s.columns));
    AltersAddNothing(t.columns, ByName(s.columns));
    DropsDropGone(s.columns, ByName(t.columns));
    hide AddColumns, AlterColumns, DropColumns;
  }

  lemma AddsPlain(s: Table, t: Table)
    requires DistinctNames(t.columns) && NewPlain(ByName(s.columns), t)
    ensures forall i :: 0 <= i < |Alterations(s, t)| && Alterations(s, t)[i].AddColumn? ==>
      Alterations(s, t)[i].column.identity == None
  {
    AlterationsAddNew(s, t);
    hide Alterations, DistinctNames;
    forall i | 0 <= i < |Alterations(s, t)| && Alterations(s, t)[i].AddColumn?
      ensures Alterations(s, t)[i].column.identity == None
    {
      var j :| 0 <= j < |t.columns| && t.columns[j] == Alterations(s, t)[i].column;
      ByNameFinds(t.columns, j);
    }
  }

  lemma AllPlain(t: Table)
    requires DistinctNames(t.columns) && NewPlain(map[], t)
    ensures NoIdentity(t.columns)
  {
    hide DistinctNames;
    forall j | 0 <= j < |t.columns| ensures t.columns[j].identity == None {
      ByNameFinds(t.columns, j);
    }
  }

  lemma AlterationsDropGone(s: Table, t: Table)
    ensures forall i :: 0 <= i < |Alterations(s, t)| && Alterations(s, t)[i].DropColumn? ==>
      Alterations(s, t)[i].name in Names(s) - Names(t)
  {
    AddsDropNothing(t.columns, ByName(s.columns));
    AltersDropNothing(t.columns, ByName(s.columns));
    DropsDropGone(s.columns, ByName(t.columns));
    hide AddColumns, AlterColumns, DropColumns;
  }

  /** At the time tables are altered, only old indexes and constraints exist. */
  lemma OldHooks(c: Pair, db: Db, n: nat)
    requires n <= |c.order| && St(c, db, 3, n)
    ensures forall i :: i in db.indexes ==> i in c.src.indexes && db.indexes[i] == c.src.indexes[i]
    ensures forall k :: k in db.constraints ==> k in c.src.constraints && db.constraints[k] == c.src.constraints[k]
  {
    forall i | i in db.indexes ensures i in c.src.indexes && db.indexes[i] == c.src.indexes[i] {
      assert Lookup(db.indexes, i) == IndexNow(c, 3, n, i);
    }
    forall k | k in db.constraints ensures k in c.src.constraints && db.constraints[k] == c.src.constraints[k] {
      assert Lookup(db.constraints, k) == ConstraintNow(c, 3, n, k);
    }
  }

  lemma OldHooksStay(c: Pair, db: Db, n: nat, q: QName)
    requires n <= |c.order| && St(c, db, 3, n) && q in c.src.tables && q in c.tgt.tables
    requires IndexesStay(c) && ConstraintsStay(c)
    ensures NothingHangs(db, q, Names(c.src.tables[q]) - Names(c.tgt.tables[q]))
  {
    OldHooks(c, db, n);
    hide St;
  }

  lemma OldOwners(c: Pair, db: Db, n: nat, k: QName)
    requires n <= |c.order| && St(c, db, 3, n) && k in c.tgt.sequences && k in db.sequences
    ensures db.sequences[k].ownedBy == if k in c.src.sequences then c.src.sequences[k].ownedBy else None
  {
    assert Lookup(db.sequences, k) == SequenceNow(c, 3, n, k);
  }

  lemma OwnedStay(c: Pair, db: Db, n: nat, q: QName)
    requires n <= |c.order| && St(c, db, 3, n) && q in c.src.tables && q in c.tgt.tables && OwnersStay(c)
    ensures forall k :: k in c.tgt.sequences && k in db.sequences ==>
      !OwnedByGone(db.sequences[k], q, Names(c.src.tables[q]) - Names(c.tgt.tables[q]))
  {
    hide St;
    forall k | k in c.tgt.sequences && k in db.sequences
      ensures !OwnedByGone(db.sequences[k], q, Names(c.src.tables[q]) - Names(c.tgt.tables[q])) {
      OldOwners(c, db, n, k);
      if k in c.src.sequences {
        assert OwnerOk(c.tgt, c.src.sequences[k]);
      }
    }
  }

  lemma OkDistinct(t: Table)
    requires TableOk(t)
    ensures DistinctNames(t.columns)
  {}

  // ---------- the types that a common table is given ----------

  lemma {:induction false} TypeSetConcat(a: seq<Alteration>, b: seq<Alteration>, n: string)
    ensures TypeSet(a + b, n) == if TypeSet(b, n).Some? then TypeSet(b, n) else TypeSet(a, n)
  {
    if b == [] {
      assert a + b == a;
    } else {
      assert (a + b)[..|a + b| - 1] == a + b[..|b| - 1];
      TypeSetConcat(a, b[..|b| - 1], n);
    }
  }

  lemma {:induction false} NoTypeSet(actions: seq<Alteration>, n: string)
    requires forall i :: 0 <= i < |actions| && actions[i].SetType? ==> actions[i].name != n
    ensures TypeSet(actions, n) == None
  {
    if actions != [] {
      NoTypeSet(actions[..|actions| - 1], n);
    }
  }

  lemma OneTypeSet(s: Column, t: Column, n: string)
    ensures TypeSet(AlterColumn(s, t), n) == if n == t.name && s.typ != t.typ then Some(t.typ) else None
    ensures forall i :: 0 <= i < |AlterColumn(s, t)| && AlterColumn(s, t)[i].SetType? ==> i == 0
  {
    var rest := AfterType(s, t);
    hide AlterColumn;
    NoTypeSet(rest, n);
    if s.typ != t.typ {
      TypeSetConcat([SetType(t.name, t.typ)], rest, n);
      OnlyType(t.name, t.typ, n);
    }
  }

  lemma OnlyType(name: string, typ: string, n: string)
    ensures TypeSet([SetType(name, typ)], n) == if n == name then Some(typ) else None
  {
    assert [SetType(name, typ)][..0] == [];
  }

  /** The actions on a column after its type. */
  lemma AfterType(s: Column, t: Column) returns (rest: seq<Alteration>)
    ensures AlterColumn(s, t) == (if s.typ != t.typ then [SetType(t.name, t.typ)] else []) + rest
    ensures s.typ == t.typ ==> AlterColumn(s, t) == rest
    ensures forall i :: 0 <= i < |rest| ==> !rest[i].SetType?
  {
    var b := if OrNone(s.default) == OrNone(t.default) then []
      else if t.default == None then [DropDefault(t.name)] else [SetDefault(t.name, t.default.value)];
    var d := if s.notNull == t.notNull then [] else if t.notNull then [SetNotNull(t.name)] else [DropNotNull(t.name)];
    hide OrNone;
    rest := b + d;
  }

  lemma {:induction false} AltersTypeSet(cols: seq<Column>, s: map<string, Column>, n: string)
    requires DistinctNames(cols)
    ensures TypeSet(AlterColumns(cols, s), n) == if n in ByName(cols) && n in s && s[n].typ != ByName(cols)[n].typ
      then Some(ByName(cols)[n].typ) else None
  {
    hide AlterColumn;
    if cols != [] {
      var front, c := cols[..|cols| - 1], cols[|cols| - 1];
      SnocNew(cols);
      AltersTypeSet(front, s, n);
      if c.name in s {
        TypeSetConcat(AlterColumns(front, s), AlterColumn(s[c.name], c), n);
        OneTypeSet(s[c.name], c, n);
      } else {
        assert AlterColumns(front, s) + [] == AlterColumns(front, s);
      }
    }
  }

  /** No column is given a type twice. */
  ghost predicate OneType(actions: seq<Alteration>) {
    forall i :: 0 <= i < |actions| && actions[i].SetType? ==> TypeSet(actions[..i], actions[i].name) == None
  }

  lemma OneTypeConcat(a: seq<Alteration>, b: seq<Alteration>)
    requires OneType(a)
    requires forall i :: 0 <= i < |b| && b[i].SetType? ==>
      TypeSet(a, b[i].name) == None && TypeSet(b[..i], b[i].name) == None
    ensures OneType(a + b)
  {
    hide TypeSet;
    forall i | 0 <= i < |a + b| && (a + b)[i].SetType? ensures TypeSet((a + b)[..i], (a + b)[i].name) == None {
      if i < |a| {
        assert (a + b)[..i] == a[..i];
      } else {
        assert (a + b)[..i] == a + b[..i - |a|];
        TypeSetConcat(a, b[..i - |a|], (a + b)[i].name);
      }
    }
  }

  lemma {:induction false} AltersOneType(cols: seq<Column>, s: map<string, Column>)
    requires DistinctNames(cols)
    ensures OneType(AlterColumns(cols, s))
  {
    hide AlterColumn, OneType;
    if cols == [] {
      assert OneType([]) by { NoneTwice([]); }
    } else {
      var front, c := cols[..|cols| - 1], cols[|cols| - 1];
      SnocNew(cols);
      AltersOneType(front, s);
      if c.name in s {
        var b := AlterColumn(s[c.name], c);
        forall i | 0 <= i < |b| && b[i].SetType?
          ensures TypeSet(AlterColumns(front, s), b[i].name) == None && TypeSet(b[..i], b[i].name) == None {
          OneTypeSet(s[c.name], c, c.name);
          AlterNames(s[c.name], c, i);
          AltersTypeSet(front, s, c.name);
        }
        OneTypeConcat(AlterColumns(front, s), b);
      } else {
        assert AlterColumns(front, s) + [] == AlterColumns(front, s);
      }
    }
  }

  lemma AlterNames(s: Column, t: Column, i: nat)
    requires i < |AlterColumn(s, t)| && AlterColumn(s, t)[i].SetType?
    ensures AlterColumn(s, t)[i].name == t.name
  {}

  lemma NoneTwice(actions: seq<Alteration>)
    requires forall i :: 0 <= i < |actions| ==> !actions[i].SetType?
    ensures OneType(actions) && forall n :: TypeSet(actions, n) == None
  {
    forall n ensures TypeSet(actions, n) == None { NoTypeSet(actions, n); }
  }

  /** Exactly the common columns of different type are given a type, once. */
  lemma TypesOfAlterations(s: Table, t: Table)
    requires DistinctNames(t.columns)
    ensures OneType(Alterations(s, t))
    ensures forall n :: TypeSet(Alterations(s, t), n) == TypeChange(s, t, n)
  {
    var a, b := AddColumns(t.columns, ByName(s.columns)), AlterColumns(t.columns, ByName(s.columns));
    var d := DropColumns(s.columns, ByName(t.columns)) + ChangePk(s.pk, t.pk);
    AddsAreNew(t.columns, ByName(s.columns));
    DropsDropGone(s.columns, ByName(t.columns));
    NoneTwice(a);
    NoneTwice(d);
    AltersOneType(t.columns, ByName(s.columns));
    assert Alterations(s, t) == a + b + d;
    hide AddColumns, AlterColumns, DropColumns, ChangePk, OneType, DistinctNames, Alterations;
    forall n ensures TypeSet(a + b, n) == TypeSet(a + b + d, n) == TypeChange(s, t, n) {
      AltersTypeSet(t.columns, ByName(s.columns), n);
      TypeSetConcat(a, b, n);
      TypeSetConcat(a + b, d, n);
    }
    OneTypeAfter(a, b);
    OneTypeConcat(a + b, d);
  }

  /** Actions that set no type change nothing of it before or after others. */
  lemma OneTypeAfter(a: seq<Alteration>, b: seq<Alteration>)
    requires forall i :: 0 <= i < |a| ==> !a[i].SetType?
    requires OneType(b)
    ensures OneType(a + b)
  {
    NoneTwice(a);
    hide TypeSet;
    OneTypeConcat(a, b);
  }

  ghost function TypeChange(s: Table, t: Table, n: string): Option<string> {
    if n in ByName(s.columns) && n in ByName(t.columns) && ByName(s.columns)[n].typ != ByName(t.columns)[n].typ
    then Some(ByName(t.columns)[n].typ) else None
  }

  lemma AlterationsTame(s: Table, t: Table)
    requires DistinctNames(t.columns) && NewPlain(ByName(s.columns), t)
    ensures Tame(LoadTable(s), Alterations(s, t))
  {
    AddsPlain(s, t);
    AlterationsAddNew(s, t);
    TypesOfAlterations(s, t);
    hide Alterations, TypeSet, NewPlain;
  }

  // ---------- the sequences that a common table takes along ----------

  /** At the time tables are altered, only old sequences have an owner. */
  lemma OldSequence(c: Pair, db: Db, n: nat, k: QName)
    requires n <= |c.order| && St(c, db, 3, n) && k in db.sequences && db.sequences[k].ownedBy.Some?
    ensures k in c.src.sequences
    ensures db.sequences[k] == if k in c.tgt.sequences && DidFollow(c, 3, n, k) then Followed(c, k)
      else c.src.sequences[k]
  {
    if k in c.tgt.sequences {
      assert Lookup(db.sequences, k) == SequenceNow(c, 3, n, k);
    }
    hide DidFollow, Followed;
  }

  lemma FollowsIff(c: Pair, q: QName, k: QName)
    requires q in c.src.tables && q in c.tgt.tables && DistinctNames(c.tgt.tables[q].columns) && k in c.src.sequences
    ensures var (s, x, acts) := (LoadTable(c.src.tables[q]), c.src.sequences[k],
        Alterations(c.src.tables[q], c.tgt.tables[q]));
      && (Follows(x, q, s, acts) <==> Retypes(c, k) && x.ownedBy.value.table == q)
      && (Follows(x, q, s, acts) ==> Carried(x, q, s, acts) == Followed(c, k))
  {
    TypesOfAlterations(c.src.tables[q], c.tgt.tables[q]);
    hide Alterations, TypeSet, OneType;
  }

  /** Before its turn a sequence of the table in hand is as in the source. */
  lemma NotFollowedYet(c: Pair, n: nat, q: QName, k: QName)
    requires Listed(c) && n < |c.order| && c.order[n] == TableKey(q) && k in c.src.sequences
    requires c.src.sequences[k].ownedBy.Some? && c.src.sequences[k].ownedBy.value.table == q
    ensures !DidFollow(c, 3, n, k)
  {
    NotYet(c, 3, n, AlterTables);
    hide Did, Retypes;
  }

  /** What a sequence becomes when the table in hand is altered. */
  lemma CarriedNow(c: Pair, db: Db, n: nat, q: QName, k: QName)
    requires Listed(c) && n < |c.order| && c.order[n] == TableKey(q) && St(c, db, 3, n) && k in db.sequences
    requires q in c.src.tables && q in c.tgt.tables && DistinctNames(c.tgt.tables[q].columns) && IdentitiesStay(c)
    ensures var (s, x, acts) := (LoadTable(c.src.tables[q]), db.sequences[k],
        Alterations(c.src.tables[q], c.tgt.tables[q]));
      && (Follows(x, q, s, acts) <==> Rides(c, 3, n, k) && k in c.tgt.sequences && x == c.src.sequences[k])
      && (Follows(x, q, s, acts) ==> Carried(x, q, s, acts) == Followed(c, k))
  {
    hide St, Listed, Alterations, LoadTable, Retypes, Followed, DistinctNames;
    if db.sequences[k].ownedBy.Some? {
      OldSequence(c, db, n, k);
      SameOwner(c, k);
      if db.sequences[k].ownedBy.value.table == q {
        NotFollowedYet(c, n, q, k);
        FollowsIff(c, q, k);
        if Retypes(c, k) {
          RetypesStay(c, k);
        }
      } else if Rides(c, 3, n, k) {
        assert false;
      }
    } else if Rides(c, 3, n, k) {
      OwnedRide(c, k);
    }
  }

  lemma OwnedRide(c: Pair, k: QName)
    requires Retypes(c, k)
    ensures c.src.sequences[k].ownedBy.Some?
  {}

  lemma SameOwner(c: Pair, k: QName)
    requires k in c.src.sequences
    ensures Followed(c, k).ownedBy == c.src.sequences[k].ownedBy
    ensures Followed(c, k).lastValue == c.src.sequences[k].lastValue
  {}

  lemma RetypesStay(c: Pair, k: QName)
    requires Retypes(c, k) && IdentitiesStay(c)
    ensures k in c.tgt.sequences
  {}

  lemma AllCarried(c: Pair, db: Db, n: nat, q: QName)
    requires Listed(c) && n < |c.order| && c.order[n] == TableKey(q) && St(c, db, 3, n)
    requires q in c.src.tables && q in c.tgt.tables && DistinctNames(c.tgt.tables[q].columns)
    requires IdentitiesStay(c) && RetypesFit(c)
    ensures CanCarry(db.sequences, q, LoadTable(c.src.tables[q]), Alterations(c.src.tables[q], c.tgt.tables[q]))
  {
    hide St, Listed, Alterations, LoadTable, Retypes, Followed, DistinctNames, Follows, Carried, IdentitiesStay,
      SequenceOk;
    forall k | k in db.sequences &&
        Follows(db.sequences[k], q, LoadTable(c.src.tables[q]), Alterations(c.src.tables[q], c.tgt.tables[q]))
      ensures SequenceOk(Carried(db.sequences[k], q, LoadTable(c.src.tables[q]),
        Alterations(c.src.tables[q], c.tgt.tables[q])))
    {
      CarriedNow(c, db, n, q, k);
      assert Retypes(c, k);
    }
  }

  lemma RidesNext(c: Pair, n: nat, k: QName)
    requires n < |c.order| && Rides(c, 3, n, k) && k in c.tgt.sequences
    ensures SequenceNow(c, 3, n + 1, k) == Some(Followed(c, k))
    ensures SequenceNow(c, 3, n, k).Some?
  {
    FollowNext(c, 3, n, k);
    SameOwner(c, k);
    hide DidFollow, Followed;
  }

  lemma CarriedAreKept(c: Pair, db: Db, n: nat, q: QName, y: map<QName, Sequence>)
    requires Listed(c) && n < |c.order| && c.order[n] == TableKey(q) && St(c, db, 3, n)
    requires q in c.src.tables && q in c.tgt.tables && DistinctNames(c.tgt.tables[q].columns) && IdentitiesStay(c)
    requires Shed(db.sequences, y, q, LoadTable(c.src.tables[q]), Alterations(c.src.tables[q], c.tgt.tables[q]),
               Names(c.src.tables[q]) - Names(c.tgt.tables[q]))
    requires OwnersStay(c)
    ensures SequencesKept(c, 3, n, db.sequences, y)
  {
    OwnedStay(c, db, n, q);
    hide St, Listed, Alterations, LoadTable, Retypes, Followed, DistinctNames, Follows, Carried, IdentitiesStay,
      OwnersStay, OwnedByGone, Names, SequenceNow, Rides;
    forall k | k in y && k !in c.tgt.sequences ensures k in db.sequences && y[k] == db.sequences[k] {
      CarriedNow(c, db, n, q, k);
      NotCarried(db.sequences[k], q, LoadTable(c.src.tables[q]), Alterations(c.src.tables[q], c.tgt.tables[q]));
    }
    forall k | k in c.tgt.sequences
      ensures Lookup(y, k) == if Rides(c, 3, n, k) then SequenceNow(c, 3, n + 1, k) else Lookup(db.sequences, k)
    {
      if Rides(c, 3, n, k) {
        RidingThere(c, db, n, q, k);
      }
      if k in db.sequences {
        CarriedToNext(c, db, n, q, k);
      }
    }
    hide Shed;
  }

  lemma NotCarried(s: Sequence, q: QName, t: TableState, actions: seq<Alteration>)
    ensures !Follows(s, q, t, actions) ==> Carried(s, q, t, actions) == s
  {
    hide Follows;
  }

  lemma RidingThere(c: Pair, db: Db, n: nat, q: QName, k: QName)
    requires Listed(c) && n < |c.order| && c.order[n] == TableKey(q) && St(c, db, 3, n) && k in c.tgt.sequences
    requires Rides(c, 3, n, k)
    ensures k in db.sequences && db.sequences[k] == c.src.sequences[k]
  {
    SequenceThere(c, db, 3, n, k);
    RidingNow(c, n, q, k);
    hide St, Listed, SequenceNow, Retypes;
  }

  /** A sequence of the target is carried to where the next point wants it. */
  lemma CarriedToNext(c: Pair, db: Db, n: nat, q: QName, k: QName)
    requires Listed(c) && n < |c.order| && c.order[n] == TableKey(q) && St(c, db, 3, n)
    requires q in c.src.tables && q in c.tgt.tables && DistinctNames(c.tgt.tables[q].columns) && IdentitiesStay(c)
    requires k in c.tgt.sequences && k in db.sequences
    ensures Some(Carried(db.sequences[k], q, LoadTable(c.src.tables[q]),
        Alterations(c.src.tables[q], c.tgt.tables[q]))) ==
      if Rides(c, 3, n, k) then SequenceNow(c, 3, n + 1, k) else Some(db.sequences[k])
  {
    hide St, Listed, Alterations, LoadTable, Retypes, Followed, DistinctNames, Follows, Carried, IdentitiesStay,
      SequenceNow, Rides;
    CarriedNow(c, db, n, q, k);
    NotCarried(db.sequences[k], q, LoadTable(c.src.tables[q]), Alterations(c.src.tables[q], c.tgt.tables[q]));
    if Rides(c, 3, n, k) {
      RidesNext(c, n, k);
      RidingThere(c, db, n, q, k);
    }
  }

  lemma RidingNow(c: Pair, n: nat, q: QName, k: QName)
    requires Listed(c) && n < |c.order| && c.order[n] == TableKey(q) && Rides(c, 3, n, k) && k in c.tgt.sequences
    ensures SequenceNow(c, 3, n, k) == Some(c.src.sequences[k])
  {
    NotFollowedYet(c, n, q, k);
    hide DidFollow, Listed;
  }

  /** Altering a common table reaches its target and takes along what follows its columns. */
  lemma CommonTable(c: Pair, db: Db, n: nat, q: QName)
    requires Listed(c) && n < |c.order| && c.order[n] == TableKey(q) && Others(c, db, 3, n) && St(c, db, 3, n)
    requires q in c.src.tables && q in c.tgt.tables && q in db.tables && db.tables[q] == LoadTable(c.src.tables[q])
    requires TableNow(c, 3, n + 1, q) == Some(TargetTable(c.src.tables[q], c.tgt.tables[q]))
    requires TableOk(c.src.tables[q]) && TableOk(c.tgt.tables[q]) && Alterable(c.src.tables[q], c.tgt.tables[q])
    requires IndexesStay(c) && ConstraintsStay(c) && OwnersStay(c) && IdentitiesStay(c) && RetypesFit(c)
    requires NewPlain(ByName(c.src.tables[q].columns), c.tgt.tables[q])
    ensures Goes(c, db, 3, n, OnTable(q, Alterations(c.src.tables[q], c.tgt.tables[q])))
  {
    hide Goes, St, Others, Listed, TableNow, TableOk, Alterable, IndexesStay, ConstraintsStay, OwnersStay, NothingHangs,
      OwnedByGone, LoadTable, TargetTable, Alterations, ExecuteAlterations, ExecuteAll, Names, OnTable, NewPlain,
      IdentitiesStay, RetypesFit, Shed, CanCarry, Tame, SequencesKept, DistinctNames;
    var s, t := c.src.tables[q], c.tgt.tables[q];
    OkDistinct(t);
    AlterationsTame(s, t);
    var gone := Names(s) - Names(t);
    TableConverges(s, t);
    AlterationsDropGone(s, t);
    OldHooksStay(c, db, n, q);
    AllCarried(c, db, n, q);
    RunTable(db, q, Alterations(s, t), gone);
    var u := ExecuteAll(db, OnTable(q, Alterations(s, t))).value;
    CarriedAreKept(c, db, n, q, u.sequences);
    TableGoes(c, db, 3, n, q, OnTable(q, Alterations(s, t)), u);
  }

  // ---------- a dropped table ----------

  /** What is there once the drops of its kind are over is the target's. */
  lemma LateIndex(c: Pair, db: Db, r: nat, n: nat, i: QName)
    requires Listed(c) && n <= |c.order| && St(c, db, r, n) && r > 13 && i in db.indexes
    ensures i in c.tgt.indexes && db.indexes[i] == (if i in c.src.indexes then c.src.indexes[i] else c.tgt.indexes[i])
  {
    assert Lookup(db.indexes, i) == IndexNow(c, r, n, i);
    if KeyOfSchema(c.src, IndexKey(i)) {
      Past(c, r, n, DropIndexes, IndexKey(i));
    }
  }

  lemma LateConstraint(c: Pair, db: Db, r: nat, n: nat, k: ConName)
    requires Listed(c) && n <= |c.order| && St(c, db, r, n) && r > 14 && k in db.constraints
    ensures k in c.tgt.constraints && db.constraints[k] == c.tgt.constraints[k]
  {
    assert Lookup(db.constraints, k) == ConstraintNow(c, r, n, k);
    if KeyOfSchema(c.src, ConstraintKey(k)) {
      Past(c, r, n, DropConstraints, ConstraintKey(k));
      Past(c, r, n, ChangedConstraints, ConstraintKey(k));
    }
  }

  lemma LateOwner(c: Pair, db: Db, r: nat, n: nat, k: QName)
    requires Listed(c) && n <= |c.order| && St(c, db, r, n) && r > 12 && k in c.tgt.sequences && k in db.sequences
    ensures db.sequences[k].ownedBy == (if k in c.src.sequences then c.src.sequences[k] else c.tgt.sequences[k]).ownedBy
  {
    hide St, Listed, Did, SequenceNow;
    SequenceThere(c, db, r, n, k);
    Past(c, r, n, OwnSequences, SequenceKey(k));
    OwnerNow(c, r, n, k);
  }

  lemma OwnerNow(c: Pair, r: nat, n: nat, k: QName)
    requires n <= |c.order| && k in c.tgt.sequences && SequenceNow(c, r, n, k).Some?
    requires Did(c, r, n, OwnSequences, SequenceKey(k))
    ensures SequenceNow(c, r, n, k).value.ownedBy
      == (if k in c.src.sequences then c.src.sequences[k] else c.tgt.sequences[k]).ownedBy
  {
    hide Did;
  }

  lemma NotInUse(c: Pair, db: Db, r: nat, n: nat, q: QName)
    requires Listed(c) && n <= |c.order| && St(c, db, r, n) && r > 14 && q !in c.tgt.tables && q in c.src.tables
    requires forall i :: i in c.tgt.indexes ==> IndexOk(c.tgt, i)
    requires forall k :: k in c.tgt.constraints ==> ConstraintOk(c.tgt, k)
    requires IndexesStay(c) && IndexHostsStand(c) && Disjoint(c.src)
    ensures !TableInUse(db, q)
  {
    OnlyOneKind(c.src, q);
    hide St, Listed, Disjoint;
    forall i | i in db.indexes ensures TableOfIndex(i, db.indexes[i]) != q {
      LateIndex(c, db, r, n, i);
      assert IndexOk(c.tgt, i);
    }
    forall k | k in db.constraints ensures k.table != q && db.constraints[k].refs != Some(q) {
      LateConstraint(c, db, r, n, k);
      assert ConstraintOk(c.tgt, k);
    }
  }

  function WithoutOwned(x: map<QName, Sequence>, q: QName): map<QName, Sequence> {
    map k | k in x && !(x[k].ownedBy.Some? && x[k].ownedBy.value.table == q) :: x[k]
  }

  lemma OwnedGo(c: Pair, db: Db, r: nat, n: nat, q: QName)
    requires Listed(c) && n <= |c.order| && St(c, db, r, n) && r > 14 && q !in c.tgt.tables && OwnersStay(c)
    requires forall k :: k in c.tgt.sequences ==> OwnerOk(c.tgt, c.tgt.sequences[k])
    ensures forall k :: k in c.tgt.sequences && k in db.sequences ==> k in WithoutOwned(db.sequences, q)
  {
    hide St, Listed;
    forall k | k in c.tgt.sequences && k in db.sequences ensures k in WithoutOwned(db.sequences, q) {
      LateOwner(c, db, r, n, k);
      assert OwnerOk(c.tgt, if k in c.src.sequences then c.src.sequences[k] else c.tgt.sequences[k]);
    }
  }

  lemma TableGone(c: Pair, db: Db, r: nat, n: nat, q: QName)
    requires n < |c.order| && c.order[n] == TableKey(q) && Others(c, db, r, n)
    requires TableNow(c, r, n + 1, q) == None && q in db.tables && !TableInUse(db, q) && r != 3
    requires forall k :: k in c.tgt.sequences && k in db.sequences ==> k in WithoutOwned(db.sequences, q)
    ensures Goes(c, db, r, n, [DropTable(q)])
  {
    hide Goes, St, Others, TableNow, TableInUse;
    var u := db.(tables := db.tables - {q}, sequences := WithoutOwned(db.sequences, q));
    assert Execute(db, DropTable(q)) == Some(u);
    NothingRides(c, r, n, db.sequences, u.sequences);
    hide Execute, WithoutOwned;
    ExecuteOne(db, DropTable(q));
    TableGoes(c, db, r, n, q, [DropTable(q)], u);
  }

  ghost predicate TableFits(c: Pair, q: QName) {
    && (q in c.tgt.tables ==>
         q.schema in c.tgt.schemas && TableOk(c.tgt.tables[q]) && (q in c.src.tables || !Named(c.src, q)))
    && (q in c.tgt.tables && q in c.src.tables ==>
         TableOk(c.src.tables[q]) && Alterable(c.src.tables[q], c.tgt.tables[q]))
    && (q in c.tgt.tables ==>
         NewPlain(if q in c.src.tables then ByName(c.src.tables[q].columns) else map[], c.tgt.tables[q]))
  }

  lemma NobodyRides(c: Pair, r: nat, n: nat, q: QName)
    requires n < |c.order| && c.order[n] == TableKey(q) && !(r == 3 && q in c.tgt.tables && q in c.src.tables)
    ensures forall k :: !Rides(c, r, n, k)
  {}

  lemma TableStep(c: Pair, db: Db, p: Phase, n: nat, q: QName)
    requires Listed(c) && n < |c.order| && c.order[n] == TableKey(q)
    requires St(c, db, p.Rank(), n) && Closed(c.tgt) && Disjoint(c.src) && TableFits(c, q)
    requires IndexesStay(c) && IndexHostsStand(c) && ConstraintsStay(c) && OwnersStay(c)
    requires IdentitiesStay(c) && RetypesFit(c)
    ensures Goes(c, db, p.Rank(), n, EmitTable(c, p, q))
  {
    hide Listed, St, Closed, IdentitiesStay, RetypesFit, IndexesStay, IndexHostsStand, ConstraintsStay,
      OwnersStay, Goes, EmitTable, TableNow, TableOk,
      Alterable, NewPlain, Others, LoadTable, TargetTable, Alterations,
      OnTable, Named, NameTaken, TableInUse, SequencesKept, WithoutOwned,
      IndexOk, ConstraintOk, OwnerOk, Disjoint;
    var r := p.Rank();
    TableEmits(c, p, n, q);
    TableThere(c, db, r, n, q);
    OthersStand(c, db, r, n);
    ClosedParts(c.tgt);
    if r == 3 && q in c.tgt.tables && q in c.src.tables {
      CommonTable(c, db, n, q);
    } else if EmitTable(c, p, q) == [] {
      NobodyRides(c, r, n, q);
      assert OwnOk(c, db, r, n);
      GoesNowhere(c, db, r, n);
    } else if r == 2 {
      SchemaExists(c, db, r, n, q.schema);
      FreeTableName(c, db, r, n, q);
      OkDistinct(c.tgt.tables[q]);
      AllPlain(c.tgt.tables[q]);
      NewTable(c, db, r, n, q, c.tgt.tables[q]);
    } else {
      NotInUse(c, db, r, n, q);
      OwnedGo(c, db, r, n, q);
      TableGone(c, db, r, n, q);
    }
  }

  lemma ClosedParts(s: Schema)
    requires Closed(s)
    ensures Disjoint(s)
    ensures forall i :: i in s.indexes ==> IndexOk(s, i)
    ensures forall k :: k in s.constraints ==> ConstraintOk(s, k)
    ensures forall k :: k in s.sequences ==> OwnerOk(s, s.sequences[k])
  {}

  // ---------- a dropped materialized view ----------

  /** No index is left on a materialized view that is dropped. */
  lemma NoIndexOn(c: Pair, db: Db, r: nat, n: nat, q: QName)
    requires Listed(c) && n <= |c.order| && St(c, db, r, n) && r > 13 && q !in c.tgt.matviews && q in c.src.matviews
    requires forall i :: i in c.tgt.indexes ==> IndexOk(c.tgt, i)
    requires IndexesStay(c) && KindsStay(c) && Disjoint(c.src)
    ensures WithoutMatview(db, q) == db.(matviews := db.matviews - {q})
  {
    OnlyOneKind(c.src, q);
    hide St, Listed, Disjoint;
    forall i | i in db.indexes ensures TableOfIndex(i, db.indexes[i]) != q {
      LateIndex(c, db, r, n, i);
      assert IndexOk(c.tgt, i);
    }
    assert WithoutMatview(db, q).indexes == db.indexes;
  }

  lemma MatviewGone(c: Pair, db: Db, r: nat, n: nat, q: QName)
    requires n < |c.order| && c.order[n] == MatviewKey(q) && Others(c, db, r, n)
    requires MatviewNow(c, r, n + 1, q) == None && q in db.matviews
    requires WithoutMatview(db, q) == db.(matviews := db.matviews - {q})
    ensures Goes(c, db, r, n, [DropMatview(q)])
  {
    hide Goes, St, SchemaNow, TableNow, IndexNow, ConstraintNow, ViewNow, MatviewNow, FunctionNow, SequenceNow, Did;
    GoesOne(c, db, r, n, DropMatview(q), db.(matviews := db.matviews - {q}));
  }

  lemma MatviewThere(c: Pair, db: Db, r: nat, n: nat, q: QName)
    requires n <= |c.order| && St(c, db, r, n)
    ensures Lookup(db.matviews, q) == MatviewNow(c, r, n, q)
  {}

  lemma MatviewStep(c: Pair, db: Db, p: Phase, n: nat, q: QName)
    requires Listed(c) && n < |c.order| && c.order[n] == MatviewKey(q)
    requires St(c, db, p.Rank(), n) && Closed(c.tgt) && Disjoint(c.src) && IndexesStay(c) && KindsStay(c)
    requires q in c.tgt.matviews ==> q.schema in c.tgt.schemas && (q in c.src.matviews || !Named(c.src, q))
    ensures Goes(c, db, p.Rank(), n, EmitMatview(c, p, q))
  {
    hide Goes, St, EmitMatview, SchemaNow, MatviewNow, Did, Listed, Others, Named, Disjoint, Closed, IndexesStay,
      KindsStay,
      IndexOk, ConstraintOk, OwnerOk;
    var r := p.Rank();
    MatviewEmits(c, p, n, q);
    MatviewThere(c, db, r, n, q);
    OthersStand(c, db, r, n);
    ClosedParts(c.tgt);
    if EmitMatview(c, p, q) == [] {
      assert OwnOk(c, db, r, n);
      GoesNowhere(c, db, r, n);
    } else if MatviewNow(c, r, n + 1, q).Some? {
      OnlyOneKind(c.tgt, q);
      SchemaExists(c, db, r, n, q.schema);
      StillFree(c, db, r, n, q);
      MatviewSet(c, db, r, n, q, c.tgt.matviews[q]);
    } else {
      NoIndexOn(c, db, r, n, q);
      MatviewGone(c, db, r, n, q);
    }
  }

  // ---------- a dropped sequence ----------

  lemma TargetIdentity(c: Pair, q: QName, n: string)
    requires q in c.src.tables && q in c.tgt.tables && n in ByName(c.src.tables[q].columns)
    requires n in Target(c).tables[q].cols
    ensures n in ByName(c.tgt.tables[q].columns)
    ensures Target(c).tables[q].cols[n].identity == ByName(c.src.tables[q].columns)[n].identity
  {
    NamesMatch(c.tgt.tables[q].columns);
  }

  /** A sequence to be dropped is not that of an identity column that stays. */
  lemma NotInternal(c: Pair, db: Db, n: nat, q: QName)
    requires Listed(c) && n <= |c.order| && St(c, db, 20, n) && IdentitiesStay(c)
    requires q in c.src.sequences && q !in c.tgt.sequences && OwnerOk(c.src, c.src.sequences[q])
    ensures !Internal(db, q)
  {
    hide St, Listed, Target;
    if Internal(db, q) {
      SequenceOld(c, db, 20, n, q);
      var o := c.src.sequences[q].ownedBy.value;
      LateTable(c, db, 20, n, o.table);
      TargetTableNow(c, db, 20, n, o.table);
      TargetIdentity(c, o.table, o.column);
    }
  }

  lemma SequenceOld(c: Pair, db: Db, r: nat, n: nat, q: QName)
    requires n <= |c.order| && St(c, db, r, n) && q !in c.tgt.sequences && q in db.sequences
    ensures q in c.src.sequences && db.sequences[q] == c.src.sequences[q]
    ensures !Did(c, r, n, DropSequences, SequenceKey(q))
  {}

  lemma GoneSequenceStep(c: Pair, db: Db, p: Phase, n: nat, q: QName)
    requires Listed(c) && n < |c.order| && c.order[n] == SequenceKey(q)
    requires St(c, db, p.Rank(), n) && q !in c.tgt.sequences && IdentitiesStay(c)
    requires q in c.src.sequences ==>
      OnlySequence(c.src, q) && OnlySequence(c.tgt, q) && OwnerOk(c.src, c.src.sequences[q])
    ensures Goes(c, db, p.Rank(), n, EmitSequence(c, p, q))
  {
    hide Goes, St, EmitSequence, Did, Others, OtherKind, OnlySequence, Listed, OwnerOk, IdentitiesStay, Internal;
    var r := p.Rank();
    GoneSequenceEmits(c, p, n, q);
    OthersStand(c, db, r, n);
    if EmitSequence(c, p, q) == [] {
      if q in db.sequences {
        SequenceOld(c, db, r, n, q);
      }
      assert OwnOk(c, db, r, n);
      GoesNowhere(c, db, r, n);
    } else {
      NoOtherKind(c, db, r, n, q);
      NotInternal(c, db, n, q);
      SequenceGone(c, db, r, n, q);
    }
  }

  // ---------- schemas ----------

  lemma SchemaEmits(c: Pair, p: Phase, n: nat, s: string)
    requires Listed(c) && n < |c.order| && c.order[n] == SchemaKey(s)
    ensures var r := p.Rank();
      var es, was, next := EmitSchema(c, p, s), SchemaNow(c, r, n, s), SchemaNow(c, r, n + 1, s);
      || (es == [] && (next <==> was))
      || (es == [CreateSchema(s)] && !was && next)
      || (r == 21 && s !in c.tgt.schemas && es == [DropSchema(s)] && was && !next)
  {
    hide Did, Listed, Phase.Rank;
    var r := p.Rank();
    RankIs(p);
    DidNext(c, r, n, NewSchemas, SchemaKey(s));
    DidNext(c, r, n, DropSchemas, SchemaKey(s));
    NotYet(c, r, n, p);
  }

  lemma SchemaThere(c: Pair, db: Db, r: nat, n: nat, s: string)
    requires n <= |c.order| && St(c, db, r, n)
    ensures s in db.schemas <==> SchemaNow(c, r, n, s)
  {}

  lemma LateTable(c: Pair, db: Db, r: nat, n: nat, q: QName)
    requires Listed(c) && n <= |c.order| && St(c, db, r, n) && r > 18 && q in db.tables
    ensures q in c.tgt.tables
  {
    hide Listed;
    assert Lookup(db.tables, q) == TableNow(c, r, n, q);
    if KeyOfSchema(c.src, TableKey(q)) {
      Past(c, r, n, DropTables, TableKey(q));
    }
  }

  lemma LateView(c: Pair, db: Db, r: nat, n: nat, q: QName)
    requires Listed(c) && n <= |c.order| && St(c, db, r, n) && r > 15 && q in db.views
    ensures q in c.tgt.views
  {
    assert Lookup(db.views, q) == ViewNow(c, r, n, q);
    if KeyOfSchema(c.src, ViewKey(q)) {
      Past(c, r, n, DropViews, ViewKey(q));
    }
  }

  lemma LateMatview(c: Pair, db: Db, r: nat, n: nat, q: QName)
    requires Listed(c) && n <= |c.order| && St(c, db, r, n) && r > 16 && q in db.matviews
    ensures q in c.tgt.matviews
  {
    assert Lookup(db.matviews, q) == MatviewNow(c, r, n, q);
    if KeyOfSchema(c.src, MatviewKey(q)) {
      Past(c, r, n, DropMatviews, MatviewKey(q));
    }
  }

  lemma LateFunction(c: Pair, db: Db, r: nat, n: nat, f: FnName)
    requires Listed(c) && n <= |c.order| && St(c, db, r, n) && r > 17 && f in db.functions
    ensures f in c.tgt.functions
  {
    assert Lookup(db.functions, f) == FunctionNow(c, r, n, f);
    if KeyOfSchema(c.src, FunctionKey(f)) {
      Past(c, r, n, DropFunctions, FunctionKey(f));
    }
  }

  lemma LateSequence(c: Pair, db: Db, r: nat, n: nat, q: QName)
    requires Listed(c) && n <= |c.order| && St(c, db, r, n) && r > 20 && q in db.sequences
    ensures q in c.tgt.sequences
  {
    if q !in c.tgt.sequences {
      assert KeyOfSchema(c.src, SequenceKey(q));
      Past(c, r, n, DropSequences, SequenceKey(q));
    }
  }

  lemma SchemaIsEmpty(c: Pair, db: Db, n: nat, s: string)
    requires Listed(c) && n <= |c.order| && St(c, db, 21, n) && Closed(c.tgt) && s !in c.tgt.schemas
    ensures !SchemaInUse(db, s)
  {
    hide Listed, St, TableOk, HasCols, OwnerOk, Disjoint;
    forall q | q in db.tables ensures q.schema != s { LateTable(c, db, 21, n, q); }
    forall q | q in db.indexes ensures q.schema != s { LateIndex(c, db, 21, n, q); }
    forall k | k in db.constraints ensures k.table.schema != s {
      LateConstraint(c, db, 21, n, k); ConstraintTable(c.tgt, k);
    }
    forall q | q in db.views ensures q.schema != s { LateView(c, db, 21, n, q); }
    forall q | q in db.matviews ensures q.schema != s { LateMatview(c, db, 21, n, q); }
    forall f | f in db.functions ensures f.schema != s { LateFunction(c, db, 21, n, f); }
    forall q | q in db.sequences ensures q.schema != s { LateSequence(c, db, 21, n, q); }
  }

  lemma ConstraintTable(s: Schema, k: ConName)
    requires Closed(s) && k in s.constraints
    ensures k.table.schema in s.schemas
  {
    assert ConstraintOk(s, k);
  }

  lemma SchemaGoes(c: Pair, db: Db, r: nat, n: nat, s: string, e: Stmt, u: Db)
    requires n < |c.order| && c.order[n] == SchemaKey(s) && Others(c, db, r, n) && Execute(db, e) == Some(u)
    requires u == db.(schemas := u.schemas) && forall k :: k != s ==> (k in u.schemas <==> k in db.schemas)
    requires s in u.schemas <==> SchemaNow(c, r, n + 1, s)
    ensures Goes(c, db, r, n, [e])
  {
    hide Execute, Goes, St, SchemaNow, TableNow, IndexNow, ConstraintNow, ViewNow, MatviewNow, FunctionNow,
      SequenceNow, Did;
    GoesOne(c, db, r, n, e, u);
  }

  lemma SchemaStep(c: Pair, db: Db, p: Phase, n: nat, s: string)
    requires Listed(c) && n < |c.order| && c.order[n] == SchemaKey(s)
    requires St(c, db, p.Rank(), n) && Closed(c.tgt)
    ensures Goes(c, db, p.Rank(), n, EmitSchema(c, p, s))
  {
    hide Listed, St, Closed, Goes, EmitSchema, SchemaNow, Others, SchemaInUse;
    var r := p.Rank();
    SchemaEmits(c, p, n, s);
    SchemaThere(c, db, r, n, s);
    OthersStand(c, db, r, n);
    if EmitSchema(c, p, s) == [] {
      assert OwnOk(c, db, r, n);
      GoesNowhere(c, db, r, n);
    } else if EmitSchema(c, p, s)[0].CreateSchema? {
      SchemaGoes(c, db, r, n, s, CreateSchema(s), db.(schemas := db.schemas + {s}));
    } else {
      SchemaIsEmpty(c, db, n, s);
      SchemaGoes(c, db, r, n, s, DropSchema(s), db.(schemas := db.schemas - {s}));
    }
  }
}
