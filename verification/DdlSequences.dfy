/** What the script demands of sequences: owners, identity columns and names. */
module DdlSequences {
  import opened Types
  import opened Catalog
  import opened SchemaMerge
  import opened Ddl
  import opened DdlProof
  import opened DdlRun
  import opened DdlTables
  import opened DdlTheorem
  import opened DdlLimits
  import Setval

  // ---------- a sequence that goes with its owner ----------

  ghost predicate KillsSequence(e: Stmt, o: ColumnRef) {
    e == AlterTable(o.table, DropColumn(o.column)) || e == DropTable(o.table)
  }

  ghost predicate Owns(e: Stmt, q: QName) {
    (e.CreateSequence? || e.OwnSequence?) && e.sequence == q
  }

  ghost predicate OwnedBy(db: Db, q: QName, o: ColumnRef) {
    q in db.sequences ==> db.sequences[q].ownedBy == Some(o)
  }

  lemma SequenceOneStep(db: Db, e: Stmt, q: QName, o: ColumnRef)
    requires Execute(db, e).Some? && !Owns(e, q) && !Spawns(e) && OwnedBy(db, q, o)
    ensures var t := Execute(db, e).value;
      OwnedBy(t, q, o) && (q in t.sequences ==> q in db.sequences && !KillsSequence(e, o))
  {
    hide Addressed, NoIdentity, NameTaken, OtherKind, CanIndex, HasColumns, TableInUse, SchemaInUse;
    if e.CreateTable? {
      QuietCreate(db, e);
      hide Execute;
    } else if e.AlterTable? {
      OwnedAlter(db, e.table, e.alteration, q, o);
      hide Execute;
    }
  }

  lemma OwnedAlter(db: Db, t: QName, a: Alteration, q: QName, o: ColumnRef)
    requires Execute(db, AlterTable(t, a)).Some? && !Spawns(AlterTable(t, a)) && OwnedBy(db, q, o)
    ensures var u := Execute(db, AlterTable(t, a)).value;
      OwnedBy(u, q, o) && (q in u.sequences ==> q in db.sequences && !KillsSequence(AlterTable(t, a), o))
  {}

  lemma {:induction false} SequenceGoes(db: Db, es: seq<Stmt>, q: QName, o: ColumnRef)
    requires ExecuteAll(db, es).Some? && OwnedBy(db, q, o) && forall e :: e in es ==> !Owns(e, q) && !Spawns(e)
    ensures OwnedBy(ExecuteAll(db, es).value, q, o)
    ensures (exists e :: e in es && KillsSequence(e, o)) ==> q !in ExecuteAll(db, es).value.sequences
  {
    hide Execute, KillsSequence, OwnedBy, Spawns;
    if es != [] {
      var front, e := es[..|es| - 1], es[|es| - 1];
      SequenceGoes(db, front, q, o);
      SequenceOneStep(ExecuteAll(db, front).value, e, q, o);
      assert forall x :: x in es ==> x in front || x == e;
    }
  }

  lemma NeverOwned(c: Pair, q: QName)
    requires q in c.src.sequences
    ensures forall e :: e in Everything(c) ==> !Owns(e, q)
  {
    hide Everything;
    forall e | e in Everything(c) ensures !Owns(e, q) { var r := EverythingShape(c, e); }
  }

  lemma SequenceDoomed(c: Pair, q: QName, o: ColumnRef, e: Stmt)
    requires q in c.src.sequences && q in c.tgt.sequences && c.src.sequences[q].ownedBy == Some(o)
    requires KillsSequence(e, o)
    requires Closed(c.tgt) && NoNewIdentity(c) && ExecuteAll(Load(c.src), Everything(c)) == Some(Target(c))
    ensures e !in Everything(c)
  {
    hide ExecuteAll, Everything, KillsSequence, Spawns, Closed, NoNewIdentity;
    NeverOwned(c, q);
    forall x | x in Everything(c) ensures !Spawns(x) { NothingSpawns(c, x); }
    SequenceGoes(Load(c.src), Everything(c), q, o);
  }

  lemma OwnersMustStay(c: Pair)
    requires Closed(c.src) && Closed(c.tgt) && Listed(c) && NoNewIdentity(c)
    requires ExecuteAll(Load(c.src), Everything(c)) == Some(Target(c))
    ensures OwnersStay(c)
  {
    hide ExecuteAll, Script, Load, Target, Everything, Listed, Closed, NoNewIdentity;
    ClosedParts(c.src);
    forall q | q in c.src.sequences && q in c.tgt.sequences ensures OwnerOk(c.tgt, c.src.sequences[q]) {
      assert OwnerOk(c.src, c.src.sequences[q]);
      if c.src.sequences[q].ownedBy.Some? {
        var o := c.src.sequences[q].ownedBy.value;
        if o.table !in c.tgt.tables {
          TableDropped(c, o.table);
          InEverything(c, DropTable(o.table));
          SequenceDoomed(c, q, o, DropTable(o.table));
        } else if o.column !in Names(c.tgt.tables[o.table]) {
          ColumnDropped(c, o.table, o.column);
          InEverything(c, AlterTable(o.table, DropColumn(o.column)));
          SequenceDoomed(c, q, o, AlterTable(o.table, DropColumn(o.column)));
        }
      }
    }
  }

  // ---------- the sequence of an identity column ----------

  /** The sequence belongs to the identity column o. */
  ghost predicate Rooted(db: Db, n: QName, o: ColumnRef) {
    n in db.sequences && db.sequences[n].ownedBy == Some(o) && Internal(db, n)
  }

  lemma {:induction false} SpawnsKeep(db: Db, q: QName, cols: seq<Column>, n: QName)
    requires n in db.sequences
    ensures n in WithIdentities(db, q, cols).sequences && WithIdentities(db, q, cols).sequences[n] == db.sequences[n]
  {
    if cols != [] {
      SpawnsKeep(db, q, cols[..|cols| - 1], n);
    }
  }

  /** It cannot be dropped, and stays as long as its column does. */
  lemma RootedStep(db: Db, e: Stmt, n: QName, o: ColumnRef)
    requires Execute(db, e).Some? && Rooted(db, n, o) && !Owns(e, n) && !KillsSequence(e, o)
    ensures Rooted(Execute(db, e).value, n, o) && e != DropSequenceIfExists(n)
  {
    hide Execute, Rooted, KillsSequence;
    if e.CreateTable? {
      RootedCreate(db, e.table, e.definition, n, o);
    } else if e.AlterTable? {
      RootedAlter(db, e.table, e.alteration, n, o);
    } else {
      RootedPlain(db, e, n, o);
    }
  }

  lemma RootedCreate(db: Db, q: QName, t: Table, n: QName, o: ColumnRef)
    requires Execute(db, CreateTable(q, t)).Some? && Rooted(db, n, o)
    ensures Rooted(Execute(db, CreateTable(q, t)).value, n, o)
  {
    SpawnsKeep(db.(tables := db.tables[q := Created(t)]), q, t.columns, n);
    hide WithIdentities;
  }

  lemma RootedPlain(db: Db, e: Stmt, n: QName, o: ColumnRef)
    requires Execute(db, e).Some? && Rooted(db, n, o) && !Owns(e, n) && !KillsSequence(e, o)
    requires !e.CreateTable? && !e.AlterTable?
    ensures Rooted(Execute(db, e).value, n, o) && e != DropSequenceIfExists(n)
  {
    hide Addressed, OtherKind, CanIndex, HasColumns, TableInUse, SchemaInUse, NameTaken, InBounds, SequenceOk;
  }

  lemma RootedAlter(db: Db, q: QName, a: Alteration, n: QName, o: ColumnRef)
    requires Execute(db, AlterTable(q, a)).Some? && Rooted(db, n, o) && !KillsSequence(AlterTable(q, a), o)
    ensures Rooted(Execute(db, AlterTable(q, a)).value, n, o)
  {
    OwnedByAlter(db, q, a, n, o);
    if q == o.table {
      IdentityOfAlter(db.tables[q], a, o.column);
    }
    TablesOfAlter(db, q, a);
    hide Execute, ExecuteAlteration;
  }

  lemma OwnedByAlter(db: Db, q: QName, a: Alteration, n: QName, o: ColumnRef)
    requires Execute(db, AlterTable(q, a)).Some? && n in db.sequences && db.sequences[n].ownedBy == Some(o)
    requires !KillsSequence(AlterTable(q, a), o)
    ensures var u := Execute(db, AlterTable(q, a)).value;
      n in u.sequences && u.sequences[n].ownedBy == Some(o)
  {
    hide ExecuteAlteration, CanRetype;
  }

  lemma TablesOfAlter(db: Db, q: QName, a: Alteration)
    requires Execute(db, AlterTable(q, a)).Some?
    ensures q in db.tables && ExecuteAlteration(db.tables[q], a).Some?
    ensures Execute(db, AlterTable(q, a)).value.tables == db.tables[q := ExecuteAlteration(db.tables[q], a).value]
  {
    hide ExecuteAlteration, CanRetype;
  }

  lemma IdentityOfAlter(t: TableState, a: Alteration, n: string)
    requires ExecuteAlteration(t, a).Some? && n in t.cols && t.cols[n].identity.Some? && a != DropColumn(n)
    ensures var u := ExecuteAlteration(t, a).value; n in u.cols && u.cols[n].identity.Some?
  {}

  lemma {:induction false} RootedRun(db: Db, es: seq<Stmt>, n: QName, o: ColumnRef)
    requires ExecuteAll(db, es).Some? && Rooted(db, n, o) && forall e :: e in es ==> !Owns(e, n) && !KillsSequence(e, o)
    ensures Rooted(ExecuteAll(db, es).value, n, o) && DropSequenceIfExists(n) !in es
  {
    hide Execute, Rooted, Owns, KillsSequence;
    if es != [] {
      var front, e := es[..|es| - 1], es[|es| - 1];
      assert e in es;
      RootedRun(db, front, n, o);
      RootedStep(ExecuteAll(db, front).value, e, n, o);
    }
  }

  /** A column of the target is never dropped. */
  lemma NeverKilled(c: Pair, o: ColumnRef, e: Stmt)
    requires HasCols(c.tgt, o.table, {o.column}) && e in Everything(c)
    ensures !KillsSequence(e, o)
  {
    hide Everything, Alterations;
    var r := EverythingShape(c, e);
    if e.AlterTable? && e.alteration.DropColumn? {
      AlterationsDropGone(c.src.tables[e.table], c.tgt.tables[e.table]);
    }
  }

  lemma LoadedRoot(c: Pair, k: QName, o: ColumnRef)
    requires k in c.src.sequences && c.src.sequences[k].ownedBy == Some(o) && HasCols(c.src, o.table, {o.column})
    requires ByName(c.src.tables[o.table].columns)[o.column].identity.Some?
    ensures Rooted(Load(c.src), k, o)
  {}

  lemma SequenceDropped(c: Pair, k: QName)
    requires Listed(c) && k in c.src.sequences && k !in c.tgt.sequences
    ensures DropSequenceIfExists(k) in Everything(c)
  {
    assert KeyOfSchema(c.src, SequenceKey(k));
    hide Script, Everything;
    ScriptHas(c, 4, |PHASES|, DropSequences, SequenceKey(k), DropSequenceIfExists(k));
    InEverything(c, DropSequenceIfExists(k));
  }

  lemma IdentitiesMustStay(c: Pair)
    requires Listed(c) && ExecuteAll(Load(c.src), Everything(c)).Some?
    ensures IdentitiesStay(c)
  {
    hide ExecuteAll, Everything, Load, Listed, Owns, KillsSequence;
    forall k | k in c.src.sequences && k !in c.tgt.sequences && c.src.sequences[k].ownedBy.Some?
      ensures var o := c.src.sequences[k].ownedBy.value;
        HasCols(c.tgt, o.table, {o.column}) && HasCols(c.src, o.table, {o.column}) ==>
          ByName(c.src.tables[o.table].columns)[o.column].identity == None
    {
      var o := c.src.sequences[k].ownedBy.value;
      if HasCols(c.tgt, o.table, {o.column}) && HasCols(c.src, o.table, {o.column})
         && ByName(c.src.tables[o.table].columns)[o.column].identity.Some? {
        LoadedRoot(c, k, o);
        NeverOwned(c, k);
        forall e | e in Everything(c) ensures !KillsSequence(e, o) { NeverKilled(c, o, e); }
        RootedRun(Load(c.src), Everything(c), k, o);
        SequenceDropped(c, k);
      }
    }
  }

  // ---------- a new identity column ----------

  /** The script makes this sequence itself. */
  predicate IsMade(c: Pair, k: QName) {
    k in c.tgt.sequences && k !in c.src.sequences
  }

  ghost predicate Standing(db: Db, k: QName) {
    k in db.sequences && db.sequences[k].ownedBy == None
  }

  lemma MadeStep(db: Db, e: Stmt, k: QName)
    requires Execute(db, e).Some? && (e.CreateSchema? || e.CreateSequence?)
    requires Standing(db, k) || (e.CreateSequence? && e.sequence == k)
    ensures Standing(Execute(db, e).value, k)
  {}

  lemma {:induction false} Made(db: Db, es: seq<Stmt>, k: QName, params: Params)
    requires ExecuteAll(db, es).Some? && forall e :: e in es ==> e.CreateSchema? || e.CreateSequence?
    requires CreateSequence(k, params) in es
    ensures Standing(ExecuteAll(db, es).value, k)
  {
    hide Execute;
    var front, e := es[..|es| - 1], es[|es| - 1];
    assert e in es;
    if CreateSequence(k, params) in front {
      Made(db, front, k, params);
    }
    MadeStep(ExecuteAll(db, front).value, e, k);
  }

  lemma FirstShape(c: Pair, e: Stmt)
    requires e in Script(c, 0, 2)
    ensures e.CreateSchema? || e.CreateSequence?
  {
    hide Script;
    var r := ScriptShape(c, 0, 2, e);
  }

  lemma MadeInScript(c: Pair, k: QName)
    requires Listed(c) && IsMade(c, k)
    ensures CreateSequence(k, c.tgt.sequences[k].params) in Script(c, 0, 2)
  {
    assert KeyOfSchema(c.tgt, SequenceKey(k));
    hide Script, Listed;
    ScriptHas(c, 0, 2, NewSequences, SequenceKey(k), CreateSequence(k, c.tgt.sequences[k].params));
  }

  lemma MadeFirst(c: Pair, k: QName)
    requires Listed(c) && IsMade(c, k) && ExecuteAll(Load(c.src), Script(c, 0, 2)).Some?
    ensures Standing(ExecuteAll(Load(c.src), Script(c, 0, 2)).value, k)
  {
    hide Script, ExecuteAll, Load, Listed, Standing;
    forall e | e in Script(c, 0, 2) ensures e.CreateSchema? || e.CreateSequence? { FirstShape(c, e); }
    MadeInScript(c, k);
    Made(Load(c.src), Script(c, 0, 2), k, c.tgt.sequences[k].params);
  }

  lemma StandingStep(db: Db, e: Stmt, k: QName)
    requires Execute(db, e).Some? && (e.CreateTable? || e.AlterTable?) && Standing(db, k)
    ensures Standing(Execute(db, e).value, k)
  {
    if e.CreateTable? {
      SpawnsKeep(db.(tables := db.tables[e.table := Created(e.definition)]), e.table, e.definition.columns, k);
      hide WithIdentities, Created;
    } else {
      StandingAlter(db, e.table, e.alteration, k);
      hide Execute;
    }
  }

  lemma StandingAlter(db: Db, q: QName, a: Alteration, k: QName)
    requires Execute(db, AlterTable(q, a)).Some? && Standing(db, k)
    ensures Standing(Execute(db, AlterTable(q, a)).value, k)
  {
    hide ExecuteAlteration, CanRetype;
  }

  ghost predicate AllStanding(c: Pair, db: Db) {
    forall k :: IsMade(c, k) ==> Standing(db, k)
  }

  /** Among the sequences brought by identity columns is one for the i-th column. */
  lemma {:induction false} SpawnsOne(db: Db, q: QName, cols: seq<Column>, i: nat) returns (n: QName)
    requires i < |cols| && cols[i].identity.Some?
    ensures n !in db.sequences && n in WithIdentities(db, q, cols).sequences
    ensures WithIdentities(db, q, cols).sequences[n].ownedBy == Some(ColumnRef(q, cols[i].name))
  {
    var front, c := cols[..|cols| - 1], cols[|cols| - 1];
    var u := WithIdentities(db, q, front);
    if i == |cols| - 1 {
      n := FreeName(u, q.schema);
      if n in db.sequences {
        SpawnsKeep(db, q, front, n);
      }
    } else {
      n := SpawnsOne(db, q, front, i);
    }
  }

  /** A column of the target that is new to its table and has identity. */
  ghost predicate NewIdentity(c: Pair, o: ColumnRef) {
    && HasCols(c.tgt, o.table, {o.column}) && ByName(c.tgt.tables[o.table].columns)[o.column].identity.Some?
    && !HasCols(c.src, o.table, {o.column})
  }

  /** Some sequence belongs to a new identity column without being made by the script. */
  ghost predicate ExtraAt(c: Pair, db: Db, n: QName, o: ColumnRef) {
    NewIdentity(c, o) && !IsMade(c, n) && Rooted(db, n, o)
  }

  /** The statement adds a new identity column of the target. */
  ghost predicate Brings(c: Pair, e: Stmt, o: ColumnRef) {
    NewIdentity(c, o) && e == if o.table in c.src.tables
      then AlterTable(o.table, AddColumn(ByName(c.tgt.tables[o.table].columns)[o.column]))
      else CreateTable(o.table, c.tgt.tables[o.table])
  }

  lemma CreateBrings(c: Pair, db: Db, o: ColumnRef) returns (n: QName)
    requires Closed(c.tgt) && NewIdentity(c, o) && o.table !in c.src.tables && AllStanding(c, db)
    requires Execute(db, CreateTable(o.table, c.tgt.tables[o.table])).Some?
    ensures ExtraAt(c, Execute(db, CreateTable(o.table, c.tgt.tables[o.table])).value, n, o)
  {
    var i := IdentityListed(c, o);
    hide Closed, NewIdentity, Execute, Created, Rooted;
    n := CreateSpawns(db, o.table, c.tgt.tables[o.table], i);
  }

  lemma CreateSpawns(db: Db, q: QName, t: Table, i: nat) returns (n: QName)
    requires Execute(db, CreateTable(q, t)).Some? && i < |t.columns| && t.columns[i].identity.Some?
    requires t.columns[i].name in Created(t).cols && Created(t).cols[t.columns[i].name].identity.Some?
    ensures n !in db.sequences && Rooted(Execute(db, CreateTable(q, t)).value, n, ColumnRef(q, t.columns[i].name))
  {
    hide Created, WithIdentities, NameTaken;
    n := SpawnsOne(db.(tables := db.tables[q := Created(t)]), q, t.columns, i);
  }

  /** The new identity column among the columns of its table, and in the table as created. */
  lemma IdentityListed(c: Pair, o: ColumnRef) returns (i: nat)
    requires Closed(c.tgt) && NewIdentity(c, o)
    ensures var t := c.tgt.tables[o.table];
      && i < |t.columns| && t.columns[i].name == o.column && t.columns[i].identity.Some?
      && o.column in Created(t).cols && Created(t).cols[o.column].identity.Some?
  {
    i := ByNameIsListed(c.tgt.tables[o.table].columns, o.column);
    hide Closed;
  }

  lemma AddBrings(c: Pair, db: Db, o: ColumnRef) returns (n: QName)
    requires NewIdentity(c, o) && o.table in c.src.tables && AllStanding(c, db)
    requires var e := AlterTable(o.table, AddColumn(ByName(c.tgt.tables[o.table].columns)[o.column]));
      Execute(db, e).Some?
    ensures var e := AlterTable(o.table, AddColumn(ByName(c.tgt.tables[o.table].columns)[o.column]));
      ExtraAt(c, Execute(db, e).value, n, o)
  {
    var k := ByName(c.tgt.tables[o.table].columns)[o.column];
    NamesMatch(c.tgt.tables[o.table].columns);
    var u := db.(tables := db.tables[o.table := ExecuteAlteration(db.tables[o.table], AddColumn(k)).value]);
    n := FreeName(u, o.table.schema);
    assert !IsMade(c, n) by { assert n !in db.sequences && (IsMade(c, n) ==> Standing(db, n)); }
  }

  lemma BroughtNow(c: Pair, db: Db, e: Stmt, o: ColumnRef) returns (n: QName)
    requires Closed(c.tgt) && AllStanding(c, db) && Brings(c, e, o) && Execute(db, e).Some?
    ensures ExtraAt(c, Execute(db, e).value, n, o)
  {
    hide Closed, Execute, AllStanding, ExtraAt, HasCols;
    if o.table in c.src.tables {
      n := AddBrings(c, db, o);
    } else {
      n := CreateBrings(c, db, o);
    }
  }

  lemma {:induction false} StandingRun(c: Pair, db: Db, es: seq<Stmt>)
    requires ExecuteAll(db, es).Some? && AllStanding(c, db) && forall e :: e in es ==> e.CreateTable? || e.AlterTable?
    ensures AllStanding(c, ExecuteAll(db, es).value)
  {
    hide Execute, Standing;
    if es != [] {
      var front, e := es[..|es| - 1], es[|es| - 1];
      assert e in es;
      StandingRun(c, db, front);
      forall k | IsMade(c, k) ensures Standing(ExecuteAll(db, es).value, k) {
        StandingStep(ExecuteAll(db, front).value, e, k);
      }
    }
  }

  lemma {:induction false} BroughtRun(c: Pair, db: Db, es: seq<Stmt>, b: Stmt, o: ColumnRef) returns (n: QName)
    requires Closed(c.tgt) && ExecuteAll(db, es).Some? && AllStanding(c, db) && b in es && Brings(c, b, o)
    requires forall e :: e in es ==> (e.CreateTable? || e.AlterTable?) && !KillsSequence(e, o)
    ensures ExtraAt(c, ExecuteAll(db, es).value, n, o)
  {
    hide Execute, Closed, AllStanding, Brings, Rooted, KillsSequence, NewIdentity;
    var front, e := es[..|es| - 1], es[|es| - 1];
    assert e in es;
    if b in front {
      n := BroughtRun(c, db, front, b, o);
      RootedStep(ExecuteAll(db, front).value, e, n, o);
    } else {
      StandingRun(c, db, front);
      n := BroughtNow(c, ExecuteAll(db, front).value, e, o);
    }
  }

  lemma TargetHasNoExtra(c: Pair, n: QName, o: ColumnRef)
    requires Closed(c.src) && !IsMade(c, n) && NewIdentity(c, o)
    ensures !Rooted(Target(c), n, o)
  {
    ClosedParts(c.src);
    assert n in c.src.sequences ==> OwnerOk(c.src, c.src.sequences[n]);
    hide Closed, HasCols, Internal;
  }

  lemma {:induction false} AddsHave(cols: seq<Column>, s: map<string, Column>, n: string)
    requires n in ByName(cols) && n !in s && DistinctNames(cols)
    ensures AddColumn(ByName(cols)[n]) in AddColumns(cols, s)
  {
    SnocNew(cols);
    NamesMatch(cols);
    if n != cols[|cols| - 1].name {
      AddsHave(cols[..|cols| - 1], s, n);
    }
  }

  lemma BroughtInScript(c: Pair, o: ColumnRef) returns (b: Stmt)
    requires Listed(c) && Closed(c.tgt) && NewIdentity(c, o)
    ensures b in Script(c, 2, 4) && Brings(c, b, o)
  {
    hide Script, Listed, Closed, ByName;
    var q, t := o.table, c.tgt.tables[o.table];
    assert KeyOfSchema(c.tgt, TableKey(q));
    if q in c.src.tables {
      b := AlterTable(q, AddColumn(ByName(t.columns)[o.column]));
      TablesDistinct(c.tgt, q);
      AddsHave(t.columns, ByName(c.src.tables[q].columns), o.column);
      var actions := Alterations(c.src.tables[q], t);
      assert AddColumn(ByName(t.columns)[o.column]) in actions by {
        hide AddColumns, AlterColumns, DropColumns, ChangePk; }
      InOnTable(q, actions, AddColumn(ByName(t.columns)[o.column]));
      hide OnTable, Alterations;
      TableKeyListed(c, q);
      ScriptHas(c, 2, 4, AlterTables, TableKey(q), b);
    } else {
      b := CreateTable(q, t);
      TableKeyListed(c, q);
      ScriptHas(c, 2, 4, NewTables, TableKey(q), b);
    }
  }

  lemma TableKeyListed(c: Pair, q: QName)
    requires Listed(c) && q in c.tgt.tables
    ensures TableKey(q) in c.order
  {
    assert KeyOfSchema(c.tgt, TableKey(q));
  }

  lemma MiddleShape(c: Pair, e: Stmt, o: ColumnRef)
    requires NewIdentity(c, o) && e in Script(c, 2, 4)
    ensures (e.CreateTable? || e.AlterTable?) && !KillsSequence(e, o)
  {
    hide Script, Alterations, HasCols;
    var r := ScriptShape(c, 2, 4, e);
    if e.AlterTable? && e.alteration.DropColumn? {
      AlterationsDropGone(c.src.tables[e.table], c.tgt.tables[e.table]);
      assert o.column in ByName(c.tgt.tables[o.table].columns) by { ColumnThere(c.tgt, o); }
    }
  }

  lemma ColumnThere(s: Schema, o: ColumnRef)
    requires HasCols(s, o.table, {o.column})
    ensures o.table in s.tables && o.column in ByName(s.tables[o.table].columns)
  {}

  lemma LateShape(c: Pair, e: Stmt, n: QName, o: ColumnRef)
    requires NewIdentity(c, o) && !IsMade(c, n) && e in Script(c, 4, |PHASES|)
    ensures !Owns(e, n) && !KillsSequence(e, o)
  {
    hide Script, Alterations;
    var r := ScriptShape(c, 4, |PHASES|, e);
  }

  /** A new identity column leaves a sequence that the target does not have. */
  lemma NoNewIdentityCan(c: Pair, o: ColumnRef)
    requires Closed(c.src) && Closed(c.tgt) && Listed(c) && NewIdentity(c, o)
    ensures ExecuteAll(Load(c.src), Everything(c)) != Some(Target(c))
  {
    hide Closed, Listed, Script, Execute, ExecuteAll, Load, Target, Everything, NewIdentity, Rooted, Owns,
      KillsSequence,
      Brings, Standing, IsMade;
    if ExecuteAll(Load(c.src), Everything(c)) == Some(Target(c)) {
      var u := RunSplit(c, 2);
      forall k | IsMade(c, k) ensures Standing(u, k) { MadeFirst(c, k); }
      var b := BroughtInScript(c, o);
      ScriptSplit(c, 2, 4, |PHASES|);
      ExecuteConcat(u, Script(c, 2, 4), Script(c, 4, |PHASES|));
      forall e | e in Script(c, 2, 4) ensures (e.CreateTable? || e.AlterTable?) && !KillsSequence(e, o) {
        MiddleShape(c, e, o);
      }
      var n := BroughtRun(c, u, Script(c, 2, 4), b, o);
      var v := ExecuteAll(u, Script(c, 2, 4)).value;
      forall e | e in Script(c, 4, |PHASES|) ensures !Owns(e, n) && !KillsSequence(e, o) { LateShape(c, e, n, o); }
      RootedRun(v, Script(c, 4, |PHASES|), n, o);
      TargetHasNoExtra(c, n, o);
    }
  }

  lemma NewIdentityMustNotBe(c: Pair)
    requires Closed(c.src) && Closed(c.tgt) && Listed(c) && ExecuteAll(Load(c.src), Everything(c)) == Some(Target(c))
    ensures NoNewIdentity(c)
  {
    hide Closed, Listed, ExecuteAll, Load, Target, Everything;
    forall q, n | q in c.tgt.tables && n in ByName(c.tgt.tables[q].columns)
      && n !in (if q in c.src.tables then ByName(c.src.tables[q].columns) else map[])
      ensures ByName(c.tgt.tables[q].columns)[n].identity == None
    {
      if ByName(c.tgt.tables[q].columns)[n].identity.Some? {
        NoNewIdentityCan(c, ColumnRef(q, n));
      }
    }
  }

  // ---------- the names that setval is given ----------

  /** The call that sets a sequence of the target. */
  function SetCall(c: Pair, q: QName): Stmt requires q in c.tgt.sequences {
    SetVal(q, c.tgt.sequences[q].lastValue, c.tgt.sequences[q].params.start)
  }

  lemma {:induction false} SetRun(db: Db, es: seq<Stmt>, q: QName, v: Option<int>, start: int)
    requires ExecuteAll(db, es).Some? && SetVal(q, v, start) in es
    ensures Addressed(q) == Some(q)
  {
    if SetVal(q, v, start) in es[..|es| - 1] {
      SetRun(db, es[..|es| - 1], q, v, start);
      hide Execute, Addressed;
    } else {
      assert Execute(ExecuteAll(db, es[..|es| - 1]).value, SetVal(q, v, start)).Some?;
      hide ExecuteAll, Addressed;
    }
  }

  lemma SetInScript(c: Pair, q: QName)
    requires Listed(c) && IsSet(c, q)
    ensures SetCall(c, q) in Script(c, 4, |PHASES|) && SetCall(c, q) in Everything(c)
  {
    var e := SetCall(c, q);
    assert KeyOfSchema(c.tgt, SequenceKey(q));
    hide Script, Everything;
    ScriptHas(c, 4, |PHASES|, SetVals, SequenceKey(q), e);
    InEverything(c, e);
  }

  lemma SetValsMustRead(c: Pair)
    requires Listed(c) && ExecuteAll(Load(c.src), Everything(c)).Some?
    ensures SetValsRead(c)
  {
    hide Listed, ExecuteAll, Load, Everything, Setval.Read, Setval.Call, Setval.Plain;
    forall q | IsSet(c, q) ensures Setval.Plain(q.schema) && Setval.Plain(q.name) {
      SetInScript(c, q);
      SetRun(Load(c.src), Everything(c), q, c.tgt.sequences[q].lastValue, c.tgt.sequences[q].params.start);
      Setval.ReadsBackIff(q.schema, q.name);
    }
  }
}
