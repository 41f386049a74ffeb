/** Primary keys that lose a column, and exactly when the script reaches its target. */
module DdlIff {
  import opened Types
  import opened Catalog
  import opened SchemaMerge
  import opened Ddl
  import opened DdlProof
  import opened DdlRun
  import opened DdlTables
  import opened DdlTheorem
  import opened DdlLimits
  import opened DdlKinds
  import opened DdlSequences
  import opened DdlBounds

  // ---------- one table ----------

  ghost predicate LeavesPk(a: Alteration) {
    !a.DropColumn? && !a.DropPk? && !a.AddPk?
  }

  lemma {:induction false} PkKept(u: TableState, actions: seq<Alteration>)
    requires ExecuteAlterations(u, actions).Some? && forall i :: 0 <= i < |actions| ==> LeavesPk(actions[i])
    ensures ExecuteAlterations(u, actions).value.pk == u.pk
  {
    if actions != [] {
      PkKept(u, actions[..|actions| - 1]);
    }
  }

  /** A column of the key cannot lose NOT NULL while the key is there. */
  lemma {:induction false} NotNullStuck(u: TableState, actions: seq<Alteration>, n: string)
    requires InPk(u.pk, n) && DropNotNull(n) in actions && forall i :: 0 <= i < |actions| ==> LeavesPk(actions[i])
    ensures ExecuteAlterations(u, actions) == None
  {
    hide InPk;
    var front, a := actions[..|actions| - 1], actions[|actions| - 1];
    if DropNotNull(n) in front {
      NotNullStuck(u, front, n);
    } else {
      if ExecuteAlterations(u, front).Some? {
        PkKept(u, front);
      }
    }
  }

  lemma {:induction false} PkLost(u: TableState, actions: seq<Alteration>, n: string)
    requires ExecuteAlterations(u, actions).Some? && forall i :: 0 <= i < |actions| ==> actions[i].DropColumn?
    ensures ExecuteAlterations(u, actions).value.pk in {u.pk, None}
    ensures InPk(u.pk, n) && DropColumn(n) in actions ==> ExecuteAlterations(u, actions).value.pk == None
  {
    if actions != [] {
      PkLost(u, actions[..|actions| - 1], n);
    }
  }

  lemma {:induction false} AddsLeavePk(cols: seq<Column>, s: map<string, Column>)
    ensures forall i :: 0 <= i < |AddColumns(cols, s)| ==> LeavesPk(AddColumns(cols, s)[i])
  {
    if cols != [] {
      AddsLeavePk(cols[..|cols| - 1], s);
    }
  }

  lemma {:induction false} AltersLeavePk(cols: seq<Column>, s: map<string, Column>)
    ensures forall i :: 0 <= i < |AlterColumns(cols, s)| ==> LeavesPk(AlterColumns(cols, s)[i])
  {
    if cols != [] {
      AltersLeavePk(cols[..|cols| - 1], s);
    }
  }

  lemma {:induction false} AltersHave(cols: seq<Column>, s: map<string, Column>, n: string)
    requires n in ByName(cols) && n in s && s[n].notNull && !ByName(cols)[n].notNull
    ensures DropNotNull(n) in AlterColumns(cols, s)
  {
    if n != cols[|cols| - 1].name {
      AltersHave(cols[..|cols| - 1], s, n);
    }
  }

  lemma ChangeStuck(u: TableState, s: Option<seq<string>>, t: Option<seq<string>>)
    requires u.pk == None && KeyOrNone(s).Some? && KeyOrNone(s) != KeyOrNone(t)
    ensures ExecuteAlterations(u, ChangePk(s, t)) == None
  {
    var rest := if KeyOrNone(t).Some? then [AddPk(KeyOrNone(t).value)] else [];
    AlterOne(u, DropPk);
    AlterConcat(u, [DropPk], rest);
    assert ChangePk(s, t) == [DropPk] + rest;
  }

  /** DROP CONSTRAINT of the key comes after the column drops and the NOT NULL drops, so it
      is too late for a key that loses a column, and too late to let one be nullable. */
  lemma KeyStuck(s: Table, t: Table)
    requires TableOk(s) && TableOk(t) && !PkColumnsStay(s, t)
    ensures ExecuteAlterations(LoadTable(s), Alterations(s, t)) == None
  {
    var a, b := AddColumns(t.columns, ByName(s.columns)), AlterColumns(t.columns, ByName(s.columns));
    var d, e := DropColumns(s.columns, ByName(t.columns)), ChangePk(s.pk, t.pk);
    var n :| n in s.pk.value && !(n in ByName(t.columns) && ByName(t.columns)[n].notNull);
    assert n in ByName(s.columns) && ByName(s.columns)[n].notNull;
    hide ExecuteAlteration, ExecuteAlterations, TableOk, PkColumnsStay, AddColumns, AlterColumns, DropColumns, ChangePk;
    AlterConcat(LoadTable(s), a, b);
    AlterConcat(LoadTable(s), a + b, d);
    AlterConcat(LoadTable(s), a + b + d, e);
    AddsLeavePk(t.columns, ByName(s.columns));
    AltersLeavePk(t.columns, ByName(s.columns));
    if ExecuteAlterations(LoadTable(s), a).Some? {
      PkKept(LoadTable(s), a);
      var u := ExecuteAlterations(LoadTable(s), a).value;
      if n in ByName(t.columns) {
        AltersHave(t.columns, ByName(s.columns), n);
        NotNullStuck(u, b, n);
      } else if ExecuteAlterations(u, b).Some? {
        PkKept(u, b);
        DropStuck(s, t, ExecuteAlterations(u, b).value, n);
      }
    }
  }

  lemma DropStuck(s: Table, t: Table, v: TableState, n: string)
    requires TableOk(s) && TableOk(t) && v.pk == s.pk && InPk(s.pk, n) && n in ByName(s.columns)
    requires n !in ByName(t.columns)
    ensures var w := ExecuteAlterations(v, DropColumns(s.columns, ByName(t.columns)));
      w.Some? ==> ExecuteAlterations(w.value, ChangePk(s.pk, t.pk)) == None
  {
    var d := DropColumns(s.columns, ByName(t.columns));
    DropsDropGone(s.columns, ByName(t.columns));
    DropsHave(s.columns, ByName(t.columns), n);
    assert KeyOrNone(s.pk) == s.pk != t.pk == KeyOrNone(t.pk);
    hide ExecuteAlterations, DropColumns, ChangePk, TableOk;
    if ExecuteAlterations(v, d).Some? {
      PkLost(v, d, n);
      ChangeStuck(ExecuteAlterations(v, d).value, s.pk, t.pk);
    }
  }

  // ---------- identity columns ----------

  /** What the server refuses to do to an identity column. */
  ghost predicate Refused(a: Alteration, n: string) {
    a == DropNotNull(n) || a == DropDefault(n) || (a.SetDefault? && a.name == n) ||
    (a.SetType? && a.name == n && a.typ !in INTEGERS)
  }

  lemma IdentityKept(u: TableState, a: Alteration, n: string)
    requires HasIdentity(u, n) && ExecuteAlteration(u, a).Some? && LeavesPk(a)
    ensures HasIdentity(ExecuteAlteration(u, a).value, n)
  {}

  lemma {:induction false} IdentityStays(u: TableState, actions: seq<Alteration>, n: string)
    requires HasIdentity(u, n) && forall i :: 0 <= i < |actions| ==> LeavesPk(actions[i])
    ensures match ExecuteAlterations(u, actions)
      case None => true
      case Some(v) => HasIdentity(v, n) && forall a :: a in actions ==> !Refused(a, n)
  {
    hide HasIdentity, LeavesPk, Refused;
    if actions != [] {
      var front, a := actions[..|actions| - 1], actions[|actions| - 1];
      IdentityStays(u, front, n);
      if ExecuteAlterations(u, actions).Some? {
        IdentityKept(ExecuteAlterations(u, front).value, a, n);
        RefusedFails(ExecuteAlterations(u, front).value, a, n);
        assert forall x :: x in actions ==> x in front || x == a;
      }
      hide ExecuteAlteration;
    }
  }

  lemma RefusedFails(u: TableState, a: Alteration, n: string)
    requires HasIdentity(u, n) && ExecuteAlteration(u, a).Some?
    ensures !Refused(a, n)
  {}

  lemma OneRefused(s: Column, t: Column) returns (a: Alteration)
    requires ColumnOk(s) && ColumnOk(t) && !IdentityFits(s, t)
    ensures a in AlterColumn(s, t) && Refused(a, t.name)
  {
    var n := t.name;
    if t.typ !in INTEGERS {
      a := SetType(n, t.typ);
    } else if t.default.Some? {
      a := SetDefault(n, t.default.value);
    } else {
      a := DropNotNull(n);
    }
  }

  lemma {:induction false} SomeRefused(cols: seq<Column>, s: map<string, Column>, n: string) returns (a: Alteration)
    requires n in ByName(cols) && n in s && ColumnOk(s[n]) && ColumnOk(ByName(cols)[n])
    requires !IdentityFits(s[n], ByName(cols)[n])
    ensures a in AlterColumns(cols, s) && Refused(a, n)
  {
    hide ColumnOk, IdentityFits, Refused, AlterColumn;
    var front, c := cols[..|cols| - 1], cols[|cols| - 1];
    if n == c.name {
      a := OneRefused(s[n], c);
    } else {
      a := SomeRefused(front, s, n);
    }
  }

  /** Identity is never altered, so what it forbids fails even where BRANCH took it away. */
  lemma IdentityStuck(s: Table, t: Table, n: string)
    requires TableOk(s) && TableOk(t) && n in ByName(s.columns) && n in ByName(t.columns)
    requires !IdentityFits(ByName(s.columns)[n], ByName(t.columns)[n])
    ensures ExecuteAlterations(LoadTable(s), Alterations(s, t)) == None
  {
    var a, b := AddColumns(t.columns, ByName(s.columns)), AlterColumns(t.columns, ByName(s.columns));
    var d, e := DropColumns(s.columns, ByName(t.columns)), ChangePk(s.pk, t.pk);
    assert HasIdentity(LoadTable(s), n);
    var r := SomeRefused(t.columns, ByName(s.columns), n);
    hide ExecuteAlterations, TableOk, IdentityFits, HasIdentity, Refused, LeavesPk, AddColumns, AlterColumns,
      DropColumns, ChangePk, LoadTable;
    AlterConcat(LoadTable(s), a + b, d);
    AlterConcat(LoadTable(s), a + b + d, e);
    AddsLeavePk(t.columns, ByName(s.columns));
    AltersLeavePk(t.columns, ByName(s.columns));
    IdentityStays(LoadTable(s), a + b, n);
    assert r in a + b;
  }

  lemma TableStuck(s: Table, t: Table)
    requires TableOk(s) && TableOk(t) && !Alterable(s, t)
    ensures ExecuteAlterations(LoadTable(s), Alterations(s, t)) == None
  {
    hide TableOk, LoadTable, Alterations, PkColumnsStay, IdentityFits;
    if PkColumnsStay(s, t) {
      var n :| n in ByName(s.columns) && n in ByName(t.columns) &&
        !IdentityFits(ByName(s.columns)[n], ByName(t.columns)[n]);
      IdentityStuck(s, t, n);
    } else {
      KeyStuck(s, t);
    }
  }

  // ---------- the whole script ----------

  ghost predicate Touches(e: Stmt, q: QName) {
    (e.CreateTable? || e.AlterTable? || e.DropTable?) && e.table == q
  }

  lemma AlterElsewhere(db: Db, t: QName, a: Alteration, q: QName)
    requires Execute(db, AlterTable(t, a)).Some? && t != q
    ensures Lookup(Execute(db, AlterTable(t, a)).value.tables, q) == Lookup(db.tables, q)
  {
    hide ExecuteAlteration, WithIdentity;
  }

  lemma UntouchedStep(db: Db, e: Stmt, q: QName)
    requires Execute(db, e).Some? && !Touches(e, q)
    ensures Lookup(Execute(db, e).value.tables, q) == Lookup(db.tables, q)
  {
    hide NameTaken, OtherKind, Internal, Addressed, WithIdentities, CanIndex, SchemaInUse, TableInUse;
    if e.AlterTable? {
      AlterElsewhere(db, e.table, e.alteration, q);
      hide Execute;
    }
  }

  lemma {:induction false} Untouched(db: Db, es: seq<Stmt>, q: QName)
    requires ExecuteAll(db, es).Some? && forall e :: e in es ==> !Touches(e, q)
    ensures Lookup(ExecuteAll(db, es).value.tables, q) == Lookup(db.tables, q)
  {
    hide Execute;
    if es != [] {
      Untouched(db, es[..|es| - 1], q);
      UntouchedStep(ExecuteAll(db, es[..|es| - 1]).value, es[|es| - 1], q);
    }
  }

  lemma AlterStep(db: Db, q: QName, a: Alteration)
    requires q in db.tables && Execute(db, AlterTable(q, a)).Some?
    ensures ExecuteAlteration(db.tables[q], a).Some?
    ensures Lookup(Execute(db, AlterTable(q, a)).value.tables, q) == ExecuteAlteration(db.tables[q], a)
  {
    hide ExecuteAlteration;
  }

  lemma {:induction false} AlterRun(db: Db, q: QName, actions: seq<Alteration>)
    requires q in db.tables && ExecuteAll(db, OnTable(q, actions)).Some?
    ensures ExecuteAlterations(db.tables[q], actions).Some?
    ensures Lookup(ExecuteAll(db, OnTable(q, actions)).value.tables, q) == ExecuteAlterations(db.tables[q], actions)
  {
    hide Execute, ExecuteAlteration;
    if actions != [] {
      var front, a := actions[..|actions| - 1], actions[|actions| - 1];
      assert OnTable(q, actions)[..|actions| - 1] == OnTable(q, front);
      AlterRun(db, q, front);
      AlterStep(ExecuteAll(db, OnTable(q, front)).value, q, a);
    }
  }

  lemma AlterKey(c: Pair, k: ObjectKey, e: Stmt)
    requires e in Emit(c, AlterTables, k) && e.AlterTable?
    ensures k == TableKey(e.table)
  {}

  lemma NotBefore(c: Pair, i: nat, q: QName, e: Stmt)
    requires Listed(c) && i < |c.order| && c.order[i] == TableKey(q) && q in c.src.tables
    requires e in Script(c, 0, 3) || e in Loop(c, AlterTables, i)
    ensures !Touches(e, q)
  {
    hide Script, Loop, Emit;
    if e in Script(c, 0, 3) {
      var r := ScriptShape(c, 0, 3, e);
    } else {
      var j := InLoop(c, AlterTables, i, e);
      EmitShape(c, AlterTables, c.order[j], e);
      if e.AlterTable? {
        AlterKey(c, c.order[j], e);
      }
    }
  }

  lemma {:induction false} LoopStuck(c: Pair, db: Db, p: Phase, i: nat, n: nat)
    requires i < n <= |c.order|
    ensures var u := ExecuteAll(db, Loop(c, p, i));
      (u.Some? ==> ExecuteAll(u.value, Emit(c, p, c.order[i])) == None) ==> ExecuteAll(db, Loop(c, p, n)) == None
  {
    hide Emit, Execute;
    if i + 1 < n {
      LoopStuck(c, db, p, i, n - 1);
      ExecuteConcat(db, Loop(c, p, n - 1), Emit(c, p, c.order[n - 1]));
    } else {
      ExecuteConcat(db, Loop(c, p, i), Emit(c, p, c.order[i]));
    }
  }

  lemma TableMustRun(c: Pair, i: nat, q: QName)
    requires Listed(c) && i < |c.order| && c.order[i] == TableKey(q) && q in c.src.tables && q in c.tgt.tables
    requires ExecuteAll(Load(c.src), Everything(c)).Some?
    ensures ExecuteAlterations(LoadTable(c.src.tables[q]), Alterations(c.src.tables[q], c.tgt.tables[q])).Some?
  {
    assert Lookup(Load(c.src).tables, q) == Some(LoadTable(c.src.tables[q]));
    assert Emit(c, AlterTables, c.order[i]) == OnTable(q, Alterations(c.src.tables[q], c.tgt.tables[q]));
    hide ExecuteAll, Script, Load, LoadTable, Alterations, ExecuteAlterations, OnTable, Everything, Listed, Emit, Loop;
    var u := RunSplit(c, 3);
    forall e | e in Script(c, 0, 3) ensures !Touches(e, q) { NotBefore(c, i, q, e); }
    Untouched(Load(c.src), Script(c, 0, 3), q);
    AlterLoopRuns(c, u);
    LoopStuck(c, u, AlterTables, i, |c.order|);
    var v := ExecuteAll(u, Loop(c, AlterTables, i)).value;
    forall e | e in Loop(c, AlterTables, i) ensures !Touches(e, q) { NotBefore(c, i, q, e); }
    Untouched(u, Loop(c, AlterTables, i), q);
    if ExecuteAll(v, Emit(c, AlterTables, c.order[i])).Some? {
      AlterRun(v, q, Alterations(c.src.tables[q], c.tgt.tables[q]));
    }
  }

  lemma AlterLoopRuns(c: Pair, u: Db)
    requires ExecuteAll(u, Script(c, 3, |PHASES|)).Some?
    ensures ExecuteAll(u, Loop(c, AlterTables, |c.order|)).Some?
  {
    hide ExecuteAll, Loop, PHASES;
    PhaseAt(AlterTables);
    ScriptSplit(c, 3, 4, |PHASES|);
    assert Script(c, 3, 3) == [];
    assert Script(c, 3, 4) == Loop(c, AlterTables, |c.order|);
    ExecuteConcat(u, Script(c, 3, 4), Script(c, 4, |PHASES|));
  }

  lemma TablesMustBeAlterable(c: Pair)
    requires Closed(c.src) && Closed(c.tgt) && Listed(c) && ExecuteAll(Load(c.src), Everything(c)).Some?
    ensures TablesAlterable(c)
  {
    hide ExecuteAll, Load, Everything, Alterable, TableOk, LoadTable, Alterations, ExecuteAlterations;
    forall q | q in c.src.tables && q in c.tgt.tables ensures Alterable(c.src.tables[q], c.tgt.tables[q]) {
      assert KeyOfSchema(c.src, TableKey(q));
      var i :| 0 <= i < |c.order| && c.order[i] == TableKey(q);
      TableMustRun(c, i, q);
      if !Alterable(c.src.tables[q], c.tgt.tables[q]) {
        TableStuck(c.src.tables[q], c.tgt.tables[q]);
      }
    }
  }

  /** For any two closed schemas and any listing order: running everything that is emitted
      reaches the target if and only if no old key loses a column or its NOT NULL, no
      identity column is to get a default, to be nullable or no integer, no old index,
      constraint or sequence hangs on something that goes, no new index is on a new
      materialized view, no name changes kind, no new column is an identity column, no
      identity column loses its sequence, every identity sequence can take the new type of its
      column, no sequence to be set needs quotes, and each is set within the bounds it has. */
  lemma ScriptConvergesIff(c: Pair)
    requires Ok(c)
    ensures ExecuteAll(Load(c.src), Script(c, 0, PRE) + Script(c, PRE, |PHASES|)) == Some(Target(c)) <==> Executable(c)
  {
    hide ExecuteAll, Load, Target, Script, Listed, Closed, TablesAlterable, IndexesStay, IndexHostsStand,
      ConstraintsStay, OwnersStay, KindsStay, NoNewIdentity, IdentitiesStay, RetypesFit, SetValsRead, SetValsFit;
    if Executable(c) {
      ScriptConverges(c);
    }
    if ExecuteAll(Load(c.src), Everything(c)) == Some(Target(c)) {
      ClosedParts(c.src);
      ClosedParts(c.tgt);
      NewIdentityMustNotBe(c);
      TablesMustBeAlterable(c);
      IndexesMustStay(c);
      ConstraintsMustStay(c);
      OwnersMustStay(c);
      KindsMustStay(c);
      HostsMustStand(c);
      IdentitiesMustStay(c);
      RetypesMustFit(c);
      SetValsMustRead(c);
      SetValsMustFit(c);
    }
  }
}
