/** The script reaches its target only under the conditions that the proof asks for. */
module DdlLimits {
  import opened Types
  import opened Catalog
  import opened SchemaMerge
  import opened Ddl
  import opened DdlProof
  import opened DdlRun
  import opened DdlTables
  import opened DdlTheorem

  // ---------- what the script contains ----------

  lemma {:induction false} LoopHas(c: Pair, p: Phase, n: nat, k: ObjectKey, e: Stmt)
    requires n <= |c.order| && k in c.order[..n] && e in Emit(c, p, k)
    ensures e in Loop(c, p, n)
  {
    hide Emit;
    assert c.order[..n] == c.order[..n - 1] + [c.order[n - 1]];
    if k in c.order[..n - 1] {
      LoopHas(c, p, n - 1, k, e);
    }
  }

  lemma PhaseAt(p: Phase)
    ensures p.Rank() < |PHASES| && PHASES[p.Rank()] == p
  {}

  lemma {:induction false} ScriptHas(c: Pair, from: nat, to: nat, p: Phase, k: ObjectKey, e: Stmt)
    requires from <= p.Rank() < to <= |PHASES| && k in c.order && e in Emit(c, p, k)
    ensures e in Script(c, from, to)
  {
    hide Emit, Loop, PHASES;
    if p.Rank() == to - 1 {
      PhaseAt(p);
      assert c.order[..|c.order|] == c.order;
      LoopHas(c, p, |c.order|, k, e);
    } else {
      ScriptHas(c, from, to - 1, p, k, e);
    }
  }

  lemma {:induction false} InLoop(c: Pair, p: Phase, n: nat, e: Stmt) returns (i: nat)
    requires n <= |c.order| && e in Loop(c, p, n)
    ensures i < n && e in Emit(c, p, c.order[i])
  {
    hide Emit;
    if e in Emit(c, p, c.order[n - 1]) {
      i := n - 1;
    } else {
      i := InLoop(c, p, n - 1, e);
    }
  }

  lemma {:induction false} InScript(c: Pair, from: nat, to: nat, e: Stmt) returns (p: Phase, i: nat)
    requires from <= to <= |PHASES| && e in Script(c, from, to)
    ensures from <= p.Rank() < to && i < |c.order| && e in Emit(c, p, c.order[i])
  {
    hide Emit, Loop, PHASES;
    PhaseRank(to - 1);
    p := PHASES[to - 1];
    if e in Loop(c, p, |c.order|) {
      i := InLoop(c, p, |c.order|, e);
    } else {
      p, i := InScript(c, from, to - 1, e);
    }
  }

  lemma {:induction false} ScriptSplit(c: Pair, from: nat, mid: nat, to: nat)
    requires from <= mid <= to <= |PHASES|
    ensures Script(c, from, to) == Script(c, from, mid) + Script(c, mid, to)
  {
    hide Loop, PHASES;
    if mid < to {
      ScriptSplit(c, from, mid, to - 1);
    }
  }

  function Everything(c: Pair): seq<Stmt> {
    Script(c, 0, PRE) + Script(c, PRE, |PHASES|)
  }

  lemma EverythingSplit(c: Pair, mid: nat)
    requires mid <= |PHASES|
    ensures Everything(c) == Script(c, 0, mid) + Script(c, mid, |PHASES|)
  {
    ScriptSplit(c, 0, PRE, |PHASES|);
    ScriptSplit(c, 0, mid, |PHASES|);
    hide Script;
  }

  /** Where a statement can come from. */
  ghost predicate Shape(c: Pair, r: nat, e: Stmt) {
    match e
    case CreateSequence(q, _) => q !in c.src.sequences && q in c.tgt.sequences && r == 1
    case CreateTable(q, t) => q !in c.src.tables && q in c.tgt.tables && t == c.tgt.tables[q] && r == 2
    case AlterTable(q, a) =>
      q in c.src.tables && q in c.tgt.tables && a in Alterations(c.src.tables[q], c.tgt.tables[q]) && r == 3
    case CreateIndex(q, _) => q !in c.src.indexes && r == 4
    case AddConstraint(_, _) => r > 3
    case CreateView(_, _) => r == 7
    case CreateMatview(_, _) => r == 9
    case OwnSequence(q, _) => q !in c.src.sequences && q in c.tgt.sequences && r > 3
    case DropTable(q) => r > 3 && q !in c.tgt.tables
    case CreateSchema(_) => r == 0
    case _ => r > 3
  }

  lemma EmitShape(c: Pair, p: Phase, k: ObjectKey, e: Stmt)
    requires e in Emit(c, p, k)
    ensures Shape(c, p.Rank(), e)
  {
    hide Alterations, OnTable, EmitSchema, EmitTable, EmitIndex, EmitConstraint, EmitView, EmitMatview, EmitFunction,
      EmitSequence;
    match k
    case TableKey(q) => TableShape(c, p, q, e);
    case SequenceKey(q) => SequenceShape(c, p, q, e);
    case _ => OtherShape(c, p, k, e);
  }

  lemma TableShape(c: Pair, p: Phase, q: QName, e: Stmt)
    requires e in EmitTable(c, p, q)
    ensures Shape(c, p.Rank(), e)
  {
    hide Alterations;
    if p == AlterTables {
      InOnTable(q, Alterations(c.src.tables[q], c.tgt.tables[q]), e.alteration);
    }
  }

  lemma SequenceShape(c: Pair, p: Phase, q: QName, e: Stmt)
    requires e in EmitSequence(c, p, q)
    ensures Shape(c, p.Rank(), e)
  {}

  lemma OtherShape(c: Pair, p: Phase, k: ObjectKey, e: Stmt)
    requires e in Emit(c, p, k) && !k.TableKey? && !k.SequenceKey?
    ensures Shape(c, p.Rank(), e)
  {
    hide EmitTable, EmitSequence;
  }

  lemma ScriptShape(c: Pair, from: nat, to: nat, e: Stmt) returns (r: nat)
    requires from <= to <= |PHASES| && e in Script(c, from, to)
    ensures from <= r < to && Shape(c, r, e)
  {
    hide Emit, Script, Shape;
    var p, i := InScript(c, from, to, e);
    EmitShape(c, p, c.order[i], e);
    r := p.Rank();
  }

  // ---------- an index that goes with a column or table ----------

  ghost predicate Creates(e: Stmt, i: QName) {
    e.CreateIndex? && e.index == i
  }

  ghost predicate KillsIndex(e: Stmt, i: QName, d: Index) {
    (e.AlterTable? && e.table == TableOfIndex(i, d) &&
     e.alteration.DropColumn? && e.alteration.name in d.definition.cols)
    || e == DropTable(TableOfIndex(i, d)) || e == DropMatview(TableOfIndex(i, d))
  }

  lemma IndexOneStep(db: Db, e: Stmt, i: QName, d: Index)
    requires Execute(db, e).Some? && !Creates(e, i) && (i in db.indexes ==> db.indexes[i] == d)
    ensures var t := Execute(db, e).value;
      i in t.indexes ==> i in db.indexes && t.indexes[i] == d && !KillsIndex(e, i, d)
    ensures e == DropIndex(i) ==> i in db.indexes
  {
    hide NameTaken, OtherKind, Internal, Addressed, WithIdentities, CanIndex, HasColumns, SchemaInUse;
    if e.AlterTable? && i in Execute(db, e).value.indexes {
      IndexAlter(db, e.table, e.alteration, i, d);
      hide Execute;
    }
  }

  lemma IndexAlter(db: Db, q: QName, a: Alteration, i: QName, d: Index)
    requires Execute(db, AlterTable(q, a)).Some? && i in Execute(db, AlterTable(q, a)).value.indexes
    ensures i in db.indexes && Execute(db, AlterTable(q, a)).value.indexes[i] == db.indexes[i]
    ensures db.indexes[i] == d ==> !KillsIndex(AlterTable(q, a), i, d)
  {
    hide ExecuteAlteration, WithIdentity, CanRetype;
  }

  lemma {:induction false} IndexGoes(db: Db, es: seq<Stmt>, i: QName, d: Index)
    requires ExecuteAll(db, es).Some? && (i in db.indexes ==> db.indexes[i] == d)
    requires forall e :: e in es ==> !Creates(e, i)
    ensures var t := ExecuteAll(db, es).value;
      && (i in t.indexes ==> i in db.indexes && t.indexes[i] == d)
      && (i !in db.indexes ==> DropIndex(i) !in es)
    ensures (exists e :: e in es && KillsIndex(e, i, d)) ==> i !in ExecuteAll(db, es).value.indexes
  {
    hide Execute, KillsIndex;
    if es != [] {
      var front, e := es[..|es| - 1], es[|es| - 1];
      IndexGoes(db, front, i, d);
      IndexOneStep(ExecuteAll(db, front).value, e, i, d);
      assert forall x :: x in es ==> x in front || x == e;
    }
  }

  /** The run up to a phase, and from it on. */
  lemma RunSplit(c: Pair, mid: nat) returns (u: Db)
    requires mid <= |PHASES| && ExecuteAll(Load(c.src), Everything(c)).Some?
    ensures ExecuteAll(Load(c.src), Script(c, 0, mid)) == Some(u)
    ensures ExecuteAll(u, Script(c, mid, |PHASES|)) == ExecuteAll(Load(c.src), Everything(c))
  {
    hide ExecuteAll, Script, Load;
    EverythingSplit(c, mid);
    ExecuteConcat(Load(c.src), Script(c, 0, mid), Script(c, mid, |PHASES|));
    u := ExecuteAll(Load(c.src), Script(c, 0, mid)).value;
  }

  lemma {:induction false} DropsHave(cols: seq<Column>, t: map<string, Column>, n: string)
    requires n in ByName(cols) && n !in t
    ensures DropColumn(n) in DropColumns(cols, t)
  {
    if n != cols[|cols| - 1].name {
      DropsHave(cols[..|cols| - 1], t, n);
    }
  }

  lemma InOnTable(q: QName, actions: seq<Alteration>, a: Alteration)
    ensures AlterTable(q, a) in OnTable(q, actions) <==> a in actions
  {
    if a in actions {
      var i :| 0 <= i < |actions| && actions[i] == a;
      assert OnTable(q, actions)[i] == AlterTable(q, a);
    }
  }

  lemma DropInActions(s: Table, t: Table, n: string)
    requires n in Names(s) && n !in Names(t)
    ensures DropColumn(n) in Alterations(s, t)
  {
    DropsHave(s.columns, ByName(t.columns), n);
    hide AddColumns, AlterColumns, DropColumns, ChangePk;
  }

  /** A column that goes is dropped by the first four loops. */
  lemma ColumnDropped(c: Pair, q: QName, n: string)
    requires Listed(c) && q in c.src.tables && q in c.tgt.tables
    requires n in Names(c.src.tables[q]) && n !in Names(c.tgt.tables[q])
    ensures AlterTable(q, DropColumn(n)) in Script(c, 0, 4)
  {
    hide Script, Alterations, OnTable, Names;
    DropInActions(c.src.tables[q], c.tgt.tables[q], n);
    InOnTable(q, Alterations(c.src.tables[q], c.tgt.tables[q]), DropColumn(n));
    assert KeyOfSchema(c.src, TableKey(q));
    ScriptHas(c, 0, 4, AlterTables, TableKey(q), AlterTable(q, DropColumn(n)));
  }

  lemma TableDropped(c: Pair, q: QName)
    requires Listed(c) && q in c.src.tables && q !in c.tgt.tables
    ensures DropTable(q) in Script(c, 4, |PHASES|)
  {
    assert KeyOfSchema(c.src, TableKey(q));
    hide Script;
    ScriptHas(c, 4, |PHASES|, DropTables, TableKey(q), DropTable(q));
  }

  lemma MatviewDropped(c: Pair, q: QName)
    requires Listed(c) && q in c.src.matviews && q !in c.tgt.matviews
    ensures DropMatview(q) in Script(c, 4, |PHASES|)
  {
    assert KeyOfSchema(c.src, MatviewKey(q));
    hide Script;
    ScriptHas(c, 4, |PHASES|, DropMatviews, MatviewKey(q), DropMatview(q));
  }

  lemma NoCreateIndex(c: Pair, from: nat, to: nat, i: QName)
    requires from <= to <= |PHASES| && i in c.src.indexes
    ensures forall e :: e in Script(c, from, to) ==> !Creates(e, i)
  {
    hide Script;
    forall e | e in Script(c, from, to) ensures !Creates(e, i) { var r := ScriptShape(c, from, to, e); }
  }

  lemma LoadedIndex(c: Pair, i: QName)
    ensures i in Load(c.src).indexes ==> i in c.src.indexes && Load(c.src).indexes[i] == c.src.indexes[i]
    ensures i in c.tgt.indexes <==> i in Target(c).indexes
  {}

  /** An index that is doomed cannot be both expected and found. */
  lemma IndexDoomed(c: Pair, i: QName, e: Stmt)
    requires Listed(c) && i in c.src.indexes && KillsIndex(e, i, c.src.indexes[i])
    requires ExecuteAll(Load(c.src), Everything(c)) == Some(Target(c))
    ensures e in Script(c, 4, |PHASES|) ==> i !in c.tgt.indexes
    ensures e !in Script(c, 0, 4)
  {
    hide Execute, ExecuteAll, Script, Load, Target, Everything, KillsIndex, Emit;
    var d := c.src.indexes[i];
    LoadedIndex(c, i);
    NoCreateIndex(c, 0, 4, i);
    NoCreateIndex(c, 4, |PHASES|, i);
    var u := RunSplit(c, 4);
    IndexGoes(Load(c.src), Script(c, 0, 4), i, d);
    IndexGoes(u, Script(c, 4, |PHASES|), i, d);
    if i !in c.tgt.indexes {
      IndexDropped(c, i);
    }
  }

  lemma IndexDropped(c: Pair, i: QName)
    requires Listed(c) && i in c.src.indexes && i !in c.tgt.indexes
    ensures DropIndex(i) in Script(c, 4, |PHASES|)
  {
    assert KeyOfSchema(c.src, IndexKey(i));
    hide Script;
    ScriptHas(c, 4, |PHASES|, DropIndexes, IndexKey(i), DropIndex(i));
  }

  lemma IndexesMustStay(c: Pair)
    requires Closed(c.src) && Listed(c) && ExecuteAll(Load(c.src), Everything(c)) == Some(Target(c))
    ensures IndexesStay(c)
  {
    hide ExecuteAll, Script, Load, Target, Everything, Listed, Closed, Disjoint;
    ClosedParts(c.src);
    forall i | i in c.src.indexes ensures
      var q := TableOfIndex(i, c.src.indexes[i]);
      if q in c.src.tables && q in c.tgt.tables then HasCols(c.tgt, q, c.src.indexes[i].definition.cols)
      else i in c.tgt.indexes ==> q in c.src.matviews && q in c.tgt.matviews
    {
      var q := TableOfIndex(i, c.src.indexes[i]);
      assert IndexOk(c.src, i);
      OnlyOneKind(c.src, q);
      if q in c.src.tables && q in c.tgt.tables {
        forall n | n in c.src.indexes[i].definition.cols ensures n in Names(c.tgt.tables[q]) {
          if n !in Names(c.tgt.tables[q]) {
            ColumnDropped(c, q, n);
            IndexDoomed(c, i, AlterTable(q, DropColumn(n)));
          }
        }
      } else if q in c.src.tables {
        TableDropped(c, q);
        IndexDoomed(c, i, DropTable(q));
      } else if q !in c.tgt.matviews {
        MatviewDropped(c, q);
        IndexDoomed(c, i, DropMatview(q));
      }
    }
  }

  // ---------- a new index on a new materialized view ----------

  ghost predicate IsOn(e: Stmt, q: QName) {
    e.CreateIndex? && TableOfIndex(e.index, e.body) == q
  }

  ghost predicate MakesHost(e: Stmt, q: QName) {
    (e.CreateTable? && e.table == q) || (e.CreateMatview? && e.matview == q)
  }

  lemma NoHostStep(db: Db, e: Stmt, q: QName)
    requires Execute(db, e).Some? && q !in db.tables && q !in db.matviews && !MakesHost(e, q)
    ensures var t := Execute(db, e).value; q !in t.tables && q !in t.matviews && !IsOn(e, q)
  {
    hide NameTaken, OtherKind, Internal, Addressed, ExecuteAlteration, WithIdentity, WithIdentities, SchemaInUse,
      TableInUse;
  }

  lemma {:induction false} NoHost(db: Db, es: seq<Stmt>, q: QName)
    requires ExecuteAll(db, es).Some? && q !in db.tables && q !in db.matviews
    requires forall e :: e in es ==> !MakesHost(e, q)
    ensures var t := ExecuteAll(db, es).value; q !in t.tables && q !in t.matviews
    ensures forall e :: e in es ==> !IsOn(e, q)
  {
    hide Execute, IsOn, MakesHost;
    if es != [] {
      var front, e := es[..|es| - 1], es[|es| - 1];
      NoHost(db, front, q);
      NoHostStep(ExecuteAll(db, front).value, e, q);
      assert forall x :: x in es ==> x in front || x == e;
    }
  }

  lemma NoEarlyHost(c: Pair, q: QName)
    requires q !in c.tgt.tables
    ensures forall e :: e in Script(c, 0, 5) ==> !MakesHost(e, q)
  {
    hide Script;
    forall e | e in Script(c, 0, 5) ensures !MakesHost(e, q) { var r := ScriptShape(c, 0, 5, e); }
  }

  lemma IndexCreated(c: Pair, i: QName)
    requires Listed(c) && i in c.tgt.indexes && i !in c.src.indexes
    ensures CreateIndex(i, c.tgt.indexes[i]) in Script(c, 0, 5)
  {
    assert KeyOfSchema(c.tgt, IndexKey(i));
    hide Script;
    ScriptHas(c, 0, 5, NewIndexes, IndexKey(i), CreateIndex(i, c.tgt.indexes[i]));
  }

  lemma HostsMustStand(c: Pair)
    requires Closed(c.tgt) && Listed(c) && KindsStay(c) && ExecuteAll(Load(c.src), Everything(c)).Some?
    ensures IndexHostsStand(c)
  {
    hide ExecuteAll, Script, Everything, Listed, Closed, HasCols;
    ClosedParts(c.tgt);
    forall i | i in c.tgt.indexes && i !in c.src.indexes
      ensures TableOfIndex(i, c.tgt.indexes[i]) in c.tgt.tables || TableOfIndex(i, c.tgt.indexes[i]) in c.src.matviews
    {
      var q := TableOfIndex(i, c.tgt.indexes[i]);
      if q !in c.tgt.tables && q !in c.src.matviews {
        assert IndexOk(c.tgt, i) && !HasCols(c.tgt, q, c.tgt.indexes[i].definition.cols) by { NoTableNoCols(c.tgt, q); }
        assert !Named(c.src, q);
        IndexCreated(c, i);
        NoEarlyHost(c, q);
        var u := RunSplit(c, 5);
        NoHost(Load(c.src), Script(c, 0, 5), q);
      }
    }
  }

  lemma NoTableNoCols(s: Schema, q: QName)
    requires q !in s.tables
    ensures forall cols :: !HasCols(s, q, cols)
  {}

  // ---------- a constraint that goes with a column ----------

  ghost predicate KillsConstraint(e: Stmt, k: ConName, d: Definition) {
    e.AlterTable? && e.table == k.table && e.alteration.DropColumn? && e.alteration.name in d.cols
  }

  ghost predicate Adds(e: Stmt, k: ConName) {
    e.AddConstraint? && e.constraint == k
  }

  lemma ConstraintOneStep(db: Db, e: Stmt, k: ConName, d: Definition)
    requires Execute(db, e).Some?
    ensures var t := Execute(db, e).value;
      !Adds(e, k) && (k in db.constraints ==> db.constraints[k] == d) && k in t.constraints ==>
        k in db.constraints && t.constraints[k] == d && !KillsConstraint(e, k, d)
    ensures e == DropConstraint(k) ==> k in db.constraints
  {
    hide NameTaken, OtherKind, Internal, Addressed, WithIdentities;
    if e.AlterTable? && k in Execute(db, e).value.constraints {
      ConstraintAlter(db, e.table, e.alteration, k, d);
      hide Execute;
    }
  }

  lemma ConstraintAlter(db: Db, q: QName, a: Alteration, k: ConName, d: Definition)
    requires Execute(db, AlterTable(q, a)).Some? && k in Execute(db, AlterTable(q, a)).value.constraints
    ensures k in db.constraints && Execute(db, AlterTable(q, a)).value.constraints[k] == db.constraints[k]
    ensures db.constraints[k] == d ==> !KillsConstraint(AlterTable(q, a), k, d)
  {
    hide ExecuteAlteration, WithIdentity;
  }

  lemma {:induction false} ConstraintGoes(db: Db, es: seq<Stmt>, k: ConName, d: Definition)
    requires ExecuteAll(db, es).Some? && (k in db.constraints ==> db.constraints[k] == d)
    requires forall e :: e in es ==> !Adds(e, k)
    ensures var t := ExecuteAll(db, es).value; k in t.constraints ==> k in db.constraints && t.constraints[k] == d
    ensures (exists e :: e in es && KillsConstraint(e, k, d)) ==> k !in ExecuteAll(db, es).value.constraints
  {
    hide Execute, KillsConstraint;
    if es != [] {
      var front, e := es[..|es| - 1], es[|es| - 1];
      ConstraintGoes(db, front, k, d);
      ConstraintOneStep(ExecuteAll(db, front).value, e, k, d);
      assert forall x :: x in es ==> x in front || x == e;
    }
  }

  /** A constraint is only ever added again right after it was dropped. */
  ghost predicate AddsFollowDrops(es: seq<Stmt>, k: ConName) {
    forall j :: 0 <= j < |es| && Adds(es[j], k) ==> j > 0 && es[j - 1] == DropConstraint(k)
  }

  lemma {:induction false} NeverDropped(db: Db, es: seq<Stmt>, k: ConName)
    requires ExecuteAll(db, es).Some? && k !in db.constraints && AddsFollowDrops(es, k)
    ensures k !in ExecuteAll(db, es).value.constraints && DropConstraint(k) !in es
  {
    hide Execute;
    if es != [] {
      var front, e := es[..|es| - 1], es[|es| - 1];
      if Adds(e, k) {
        assert front[|front| - 1] == DropConstraint(k);
      }
      NeverDropped(db, front, k);
      ConstraintOneStep(ExecuteAll(db, front).value, e, k, Definition("", {}, None));
    }
  }

  lemma FollowConcat(a: seq<Stmt>, b: seq<Stmt>, k: ConName)
    requires AddsFollowDrops(a, k) && AddsFollowDrops(b, k)
    ensures AddsFollowDrops(a + b, k)
  {
    forall j | 0 <= j < |a + b| && Adds((a + b)[j], k) ensures j > 0 && (a + b)[j - 1] == DropConstraint(k) {
      if j >= |a| {
        assert Adds(b[j - |a|], k);
      }
    }
  }

  lemma OnlyConstraintsAdd(c: Pair, p: Phase, key: ObjectKey, e: Stmt)
    requires e in Emit(c, p, key) && e.AddConstraint?
    ensures key.ConstraintKey?
  {}

  lemma EmitFollows(c: Pair, p: Phase, key: ObjectKey, k: ConName)
    requires k in c.src.constraints
    ensures AddsFollowDrops(Emit(c, p, key), k)
  {
    hide EmitSchema, EmitTable, EmitIndex, EmitView, EmitMatview, EmitFunction, EmitSequence;
    var es := Emit(c, p, key);
    forall j | 0 <= j < |es| && Adds(es[j], k) ensures j > 0 && es[j - 1] == DropConstraint(k) {
      OnlyConstraintsAdd(c, p, key, es[j]);
    }
  }

  lemma {:induction false} LoopFollows(c: Pair, p: Phase, n: nat, k: ConName)
    requires n <= |c.order| && k in c.src.constraints
    ensures AddsFollowDrops(Loop(c, p, n), k)
  {
    hide Emit, AddsFollowDrops;
    if n == 0 {
      NoneFollow(k);
    } else {
      LoopFollows(c, p, n - 1, k);
      EmitFollows(c, p, c.order[n - 1], k);
      FollowConcat(Loop(c, p, n - 1), Emit(c, p, c.order[n - 1]), k);
    }
  }

  lemma {:induction false} ScriptFollows(c: Pair, from: nat, to: nat, k: ConName)
    requires from <= to <= |PHASES| && k in c.src.constraints
    ensures AddsFollowDrops(Script(c, from, to), k)
  {
    hide Loop, AddsFollowDrops, PHASES;
    if from == to {
      NoneFollow(k);
    } else {
      ScriptFollows(c, from, to - 1, k);
      LoopFollows(c, PHASES[to - 1], |c.order|, k);
      FollowConcat(Script(c, from, to - 1), Loop(c, PHASES[to - 1], |c.order|), k);
    }
  }

  lemma NoneFollow(k: ConName)
    ensures AddsFollowDrops([], k)
  {}

  lemma NoEarlyAdds(c: Pair, k: ConName)
    ensures forall e :: e in Script(c, 0, 4) ==> !Adds(e, k)
  {
    hide Script;
    forall e | e in Script(c, 0, 4) ensures !Adds(e, k) { var r := ScriptShape(c, 0, 4, e); }
  }

  lemma ConstraintDropped(c: Pair, k: ConName)
    requires Listed(c) && k in c.src.constraints
    requires k in c.tgt.constraints ==> c.src.constraints[k] != c.tgt.constraints[k]
    ensures DropConstraint(k) in Script(c, 4, |PHASES|)
  {
    assert KeyOfSchema(c.src, ConstraintKey(k));
    hide Script;
    if k in c.tgt.constraints {
      assert Emit(c, ChangedConstraints, ConstraintKey(k))[0] == DropConstraint(k);
      ScriptHas(c, 4, |PHASES|, ChangedConstraints, ConstraintKey(k), DropConstraint(k));
    } else {
      ScriptHas(c, 4, |PHASES|, DropConstraints, ConstraintKey(k), DropConstraint(k));
    }
  }

  lemma LoadedConstraint(c: Pair, k: ConName)
    ensures k in Load(c.src).constraints ==>
      k in c.src.constraints && Load(c.src).constraints[k] == c.src.constraints[k]
  {}

  lemma ConstraintDoomed(c: Pair, k: ConName, e: Stmt)
    requires Listed(c) && k in c.src.constraints && KillsConstraint(e, k, c.src.constraints[k])
    requires k in c.tgt.constraints ==> c.src.constraints[k] != c.tgt.constraints[k]
    requires ExecuteAll(Load(c.src), Everything(c)).Some?
    ensures e !in Script(c, 0, 4)
  {
    hide Execute, ExecuteAll, Script, Load, Everything, KillsConstraint, Emit;
    LoadedConstraint(c, k);
    NoEarlyAdds(c, k);
    var u := RunSplit(c, 4);
    ConstraintGoes(Load(c.src), Script(c, 0, 4), k, c.src.constraints[k]);
    ConstraintDropped(c, k);
    ScriptFollows(c, 4, |PHASES|, k);
    if k !in u.constraints {
      NeverDropped(u, Script(c, 4, |PHASES|), k);
    }
  }

  lemma ConstraintsMustStay(c: Pair)
    requires Closed(c.src) && Closed(c.tgt) && Listed(c) && ExecuteAll(Load(c.src), Everything(c)).Some?
    ensures ConstraintsStay(c)
  {
    hide ExecuteAll, Script, Load, Everything, Listed, Closed;
    ClosedParts(c.src);
    ClosedParts(c.tgt);
    forall k | k in c.src.constraints && k.table in c.tgt.tables
      ensures HasCols(c.tgt, k.table, c.src.constraints[k].cols)
    {
      assert ConstraintOk(c.src, k) && (k in c.tgt.constraints ==> ConstraintOk(c.tgt, k));
      forall n | n in c.src.constraints[k].cols ensures n in Names(c.tgt.tables[k.table]) {
        if n !in Names(c.tgt.tables[k.table]) {
          ColumnDropped(c, k.table, n);
          ConstraintDoomed(c, k, AlterTable(k.table, DropColumn(n)));
        }
      }
    }
  }

  lemma InEverything(c: Pair, e: Stmt)
    requires e in Script(c, 0, 4) || e in Script(c, 4, |PHASES|)
    ensures e in Everything(c)
  {
    EverythingSplit(c, 4);
    hide Script, Everything;
  }

  lemma EverythingShape(c: Pair, e: Stmt) returns (r: nat)
    requires e in Everything(c)
    ensures Shape(c, r, e)
  {
    EverythingSplit(c, 4);
    hide Script, Everything, Shape;
    if e in Script(c, 0, 4) {
      r := ScriptShape(c, 0, 4, e);
    } else {
      r := ScriptShape(c, 4, |PHASES|, e);
    }
  }

  // ---------- identity columns ----------

  /** The statement brings a sequence that no CREATE SEQUENCE names. */
  ghost predicate Spawns(e: Stmt) {
    || (e.CreateTable? && !NoIdentity(e.definition.columns))
    || (e.AlterTable? && e.alteration.AddColumn? && e.alteration.column.identity.Some?)
  }

  lemma NothingSpawns(c: Pair, e: Stmt)
    requires Closed(c.tgt) && NoNewIdentity(c) && e in Everything(c)
    ensures !Spawns(e)
  {
    hide Everything, Closed, Alterations, NoIdentity, NewPlain;
    var r := EverythingShape(c, e);
    if e.CreateTable? {
      TablesDistinct(c.tgt, e.table);
      AllPlain(c.tgt.tables[e.table]);
    } else if e.AlterTable? {
      TablesDistinct(c.tgt, e.table);
      AddsPlain(c.src.tables[e.table], c.tgt.tables[e.table]);
    }
  }

  lemma TablesDistinct(s: Schema, q: QName)
    requires Closed(s) && q in s.tables
    ensures DistinctNames(s.tables[q].columns)
  {}

  /** A statement that brings no sequence of its own, run on tables. */
  lemma QuietCreate(db: Db, e: Stmt)
    requires e.CreateTable? && !Spawns(e) && Execute(db, e).Some?
    ensures Execute(db, e).value == db.(tables := db.tables[e.table := Created(e.definition)])
  {
    NoSequenceOfItsOwn(db.(tables := db.tables[e.table := Created(e.definition)]), e.table, e.definition.columns);
  }
}
