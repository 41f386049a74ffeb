/** The catalog stays sound under any statements at all: what refers to something never outlives it. */
module DdlSound {
  import opened Types
  import opened Catalog
  import opened SchemaMerge
  import opened Ddl
  import opened DdlProof

  ghost predicate IndexSound(db: Db, i: QName) {
    i in db.indexes ==>
      i.schema in db.schemas && CanIndex(db, TableOfIndex(i, db.indexes[i]), db.indexes[i].definition.cols)
  }

  ghost predicate ConstraintSound(db: Db, k: ConName) {
    k in db.constraints ==>
      && HasColumns(db, k.table, db.constraints[k].cols)
      && (db.constraints[k].refs.Some? ==> db.constraints[k].refs.value in db.tables)
  }

  ghost predicate SequenceSound(db: Db, q: QName) {
    q in db.sequences ==>
      && q.schema in db.schemas && SequenceOk(db.sequences[q])
      && (db.sequences[q].ownedBy.Some? ==>
           var o := db.sequences[q].ownedBy.value; HasColumns(db, o.table, {o.column}))
  }

  /** Relations of different kinds have different names. */
  ghost predicate OneKind(db: Db, q: QName) {
    && (q in db.tables ==> q !in db.indexes && q !in db.views && q !in db.matviews && q !in db.sequences)
    && (q in db.indexes ==> q !in db.views && q !in db.matviews && q !in db.sequences)
    && (q in db.views ==> q !in db.matviews && q !in db.sequences)
    && (q in db.matviews ==> q !in db.sequences)
  }

  ghost predicate NamesSound(db: Db) {
    && (forall q :: q in db.tables ==> q.schema in db.schemas)
    && (forall q :: q in db.views ==> q.schema in db.schemas)
    && (forall q :: q in db.matviews ==> q.schema in db.schemas)
    && (forall f :: f in db.functions ==> f.schema in db.schemas)
  }

  /** Every index stands on a table with its columns or on a materialized view, every constraint
      has its columns and the table it refers to, every sequence its owner and a position within
      its bounds, and everything its schema. */
  ghost predicate Sound(db: Db) {
    && NamesSound(db) && (forall i :: IndexSound(db, i)) && (forall k :: ConstraintSound(db, k))
    && (forall q :: SequenceSound(db, q))
  }

  /** No schema, table, column or materialized view is lost, and nothing that refers to one is new. */
  ghost predicate Kept(db: Db, u: Db) {
    && db.schemas <= u.schemas && db.matviews.Keys <= u.matviews.Keys
    && (forall q :: q in db.tables ==> q in u.tables && db.tables[q].cols.Keys <= u.tables[q].cols.Keys)
  }

  lemma KeptIndex(db: Db, u: Db, i: QName)
    requires Kept(db, u) && IndexSound(db, i) && i in db.indexes && Lookup(u.indexes, i) == Some(db.indexes[i])
    ensures IndexSound(u, i)
  {}

  lemma KeptConstraint(db: Db, u: Db, k: ConName)
    requires Kept(db, u) && ConstraintSound(db, k) && k in db.constraints
    requires Lookup(u.constraints, k) == Some(db.constraints[k])
    ensures ConstraintSound(u, k)
  {}

  lemma KeptSequence(db: Db, u: Db, q: QName)
    requires Kept(db, u) && SequenceSound(db, q) && q in db.sequences && q in u.sequences
    requires u.sequences[q] == db.sequences[q]
    ensures SequenceSound(u, q)
  {}

  // ---------- tables ----------

  lemma {:induction false} IdentitiesSound(db: Db, q: QName, cols: seq<Column>)
    requires Sound(db) && q in db.tables
    requires forall i :: 0 <= i < |cols| ==> cols[i].name in db.tables[q].cols
    ensures Sound(WithIdentities(db, q, cols)) && WithIdentities(db, q, cols).tables == db.tables
  {
    hide Sound, WithIdentity;
    if cols != [] {
      var front, c := cols[..|cols| - 1], cols[|cols| - 1];
      IdentitiesSound(db, q, front);
      IdentitySound(WithIdentities(db, q, front), q, c);
    }
  }

  lemma IdentitySound(db: Db, q: QName, c: Column)
    requires Sound(db) && q in db.tables && c.name in db.tables[q].cols
    ensures Sound(WithIdentity(db, q, c)) && WithIdentity(db, q, c).tables == db.tables
  {
    var u := WithIdentity(db, q, c);
    forall i ensures IndexSound(u, i) { assert IndexSound(db, i); }
    forall k ensures ConstraintSound(u, k) { assert ConstraintSound(db, k); }
    forall s ensures SequenceSound(u, s) { assert SequenceSound(db, s); }
  }

  /** Only tables, or only their columns, are more. */
  lemma MoreTables(db: Db, u: Db)
    requires Sound(db) && Kept(db, u) && u == db.(tables := u.tables)
    requires forall q :: q in u.tables ==> q.schema in db.schemas
    ensures Sound(u)
  {
    forall i ensures IndexSound(u, i) {
      assert IndexSound(db, i);
      if i in db.indexes { KeptIndex(db, u, i); }
    }
    forall k ensures ConstraintSound(u, k) {
      assert ConstraintSound(db, k);
      if k in db.constraints { KeptConstraint(db, u, k); }
    }
    forall q ensures SequenceSound(u, q) {
      assert SequenceSound(db, q);
      if q in db.sequences { KeptSequence(db, u, q); }
    }
  }

  lemma CreateTableSound(db: Db, q: QName, t: Table)
    requires Sound(db) && Execute(db, CreateTable(q, t)).Some?
    ensures Sound(Execute(db, CreateTable(q, t)).value)
  {
    hide Sound;
    var u := db.(tables := db.tables[q := Created(t)]);
    assert q.schema in db.schemas && q !in db.tables;
    SoundNames(db);
    MoreTables(db, u);
    forall i | 0 <= i < |t.columns| ensures t.columns[i].name in u.tables[q].cols {
      ListedIsNamed(t.columns, i);
    }
    IdentitiesSound(u, q, t.columns);
  }

  lemma SoundNames(db: Db)
    requires Sound(db)
    ensures NamesSound(db)
  {}

  lemma {:induction false} ListedIsNamed(cols: seq<Column>, i: nat)
    requires i < |cols|
    ensures cols[i].name in ByName(cols)
  {
    if i < |cols| - 1 {
      ListedIsNamed(cols[..|cols| - 1], i);
    }
  }

  // ---------- alterations ----------

  lemma AlteredCols(t: TableState, a: Alteration)
    requires ExecuteAlteration(t, a).Some?
    ensures var u := ExecuteAlteration(t, a).value;
      u.cols.Keys == match a
        case AddColumn(c) => t.cols.Keys + {c.name}
        case DropColumn(n) => t.cols.Keys - {n}
        case _ => t.cols.Keys
  {}

  lemma AlterSound(db: Db, q: QName, a: Alteration)
    requires Sound(db) && Execute(db, AlterTable(q, a)).Some?
    ensures Sound(Execute(db, AlterTable(q, a)).value)
  {
    hide Sound, WithIdentity, WithoutColumn, Retyped, CanRetype;
    var t := ExecuteAlteration(db.tables[q], a).value;
    var u := db.(tables := db.tables[q := t]);
    AlteredCols(db.tables[q], a);
    hide ExecuteAlteration;
    SoundNames(db);
    if a.DropColumn? {
      DropColumnSound(db, q, t, a.name);
    } else {
      MoreTables(db, u);
      if a.AddColumn? {
        IdentitySound(u, q, a.column);
      } else if a.SetType? && CanRetype(u.sequences, ColumnRef(q, a.name), a.typ) {
        RetypedSound(u, ColumnRef(q, a.name), a.typ);
      }
    }
  }

  lemma RetypedSound(db: Db, o: ColumnRef, typ: string)
    requires Sound(db) && CanRetype(db.sequences, o, typ)
    ensures Sound(db.(sequences := Retyped(db.sequences, o, typ)))
  {
    var u := db.(sequences := Retyped(db.sequences, o, typ));
    forall i ensures IndexSound(u, i) { assert IndexSound(db, i); }
    forall k ensures ConstraintSound(u, k) { assert ConstraintSound(db, k); }
    forall q ensures SequenceSound(u, q) { assert SequenceSound(db, q); }
  }

  lemma DropColumnSound(db: Db, q: QName, t: TableState, n: string)
    requires Sound(db) && q in db.tables && t.cols.Keys == db.tables[q].cols.Keys - {n}
    ensures Sound(WithoutColumn(db.(tables := db.tables[q := t]), q, n))
  {
    var u := WithoutColumn(db.(tables := db.tables[q := t]), q, n);
    forall i ensures IndexSound(u, i) { assert IndexSound(db, i); }
    forall k ensures ConstraintSound(u, k) { assert ConstraintSound(db, k); }
    forall s ensures SequenceSound(u, s) { assert SequenceSound(db, s); }
  }

  // ---------- drops ----------

  lemma DropTableSound(db: Db, q: QName)
    requires Sound(db) && Execute(db, DropTable(q)).Some?
    ensures Sound(Execute(db, DropTable(q)).value)
  {
    var u := Execute(db, DropTable(q)).value;
    forall i ensures IndexSound(u, i) { assert IndexSound(db, i); }
    forall k ensures ConstraintSound(u, k) { assert ConstraintSound(db, k); }
    forall s ensures SequenceSound(u, s) { assert SequenceSound(db, s); }
  }

  lemma DropMatviewSound(db: Db, q: QName)
    requires Sound(db) && Execute(db, DropMatview(q)).Some?
    ensures Sound(Execute(db, DropMatview(q)).value)
  {
    var u := Execute(db, DropMatview(q)).value;
    forall i ensures IndexSound(u, i) { assert IndexSound(db, i); }
    forall k ensures ConstraintSound(u, k) { assert ConstraintSound(db, k); }
    forall s ensures SequenceSound(u, s) { assert SequenceSound(db, s); }
  }

  lemma DropSchemaSound(db: Db, n: string)
    requires Sound(db) && Execute(db, DropSchema(n)).Some?
    ensures Sound(Execute(db, DropSchema(n)).value)
  {
    var u := Execute(db, DropSchema(n)).value;
    assert u.schemas == db.schemas - {n} && u == db.(schemas := u.schemas) && !SchemaInUse(db, n);
    forall i ensures IndexSound(u, i) { assert IndexSound(db, i); }
    forall k ensures ConstraintSound(u, k) { assert ConstraintSound(db, k); }
    forall s ensures SequenceSound(u, s) { assert SequenceSound(db, s); }
  }

  // ---------- everything else ----------

  ghost predicate Simple(e: Stmt) {
    !e.CreateTable? && !e.AlterTable? && !e.DropTable? && !e.DropMatview? && !e.DropSchema?
  }

  lemma SimpleKeeps(db: Db, e: Stmt)
    requires Execute(db, e).Some? && Simple(e)
    ensures Kept(db, Execute(db, e).value)
  {
    hide NameTaken, CanIndex, HasColumns, Addressed, InBounds, SequenceOk, Internal, OtherKind;
  }

  lemma SimpleNames(db: Db, e: Stmt)
    requires Execute(db, e).Some? && Simple(e) && NamesSound(db)
    ensures NamesSound(Execute(db, e).value)
  {
    hide Execute, Kept;
    NewNames(db, e);
    NewTexts(db, e);
  }

  lemma NewNames(db: Db, e: Stmt)
    requires Execute(db, e).Some? && Simple(e)
    ensures var u := Execute(db, e).value;
      && db.schemas <= u.schemas && u.tables == db.tables
      && (forall q :: q in u.views ==> q in db.views || q.schema in db.schemas)
  {
    hide NameTaken, CanIndex, HasColumns, Addressed, InBounds, SequenceOk, Internal, OtherKind;
  }

  lemma NewTexts(db: Db, e: Stmt)
    requires Execute(db, e).Some? && Simple(e)
    ensures var u := Execute(db, e).value;
      && (forall q :: q in u.matviews ==> q in db.matviews || q.schema in db.schemas)
      && (forall f :: f in u.functions ==> f in db.functions || f.schema in db.schemas)
  {
    hide NameTaken, CanIndex, HasColumns, Addressed, InBounds, SequenceOk, Internal, OtherKind;
  }

  lemma SimpleIndex(db: Db, e: Stmt, i: QName)
    requires Execute(db, e).Some? && Simple(e) && IndexSound(db, i)
    ensures IndexSound(Execute(db, e).value, i)
  {
    hide NameTaken, CanIndex, HasColumns, Addressed, InBounds, SequenceOk, Internal, OtherKind, IndexSound, Kept;
    var u := Execute(db, e).value;
    SimpleKeeps(db, e);
    if i in u.indexes && e == CreateIndex(i, u.indexes[i]) {
      NewIndex(db, i, u.indexes[i]);
    } else {
      SameIndex(db, e, i);
      hide Execute;
      if i in u.indexes {
        KeptIndex(db, u, i);
      } else {
        NoIndex(u, i);
      }
    }
  }

  lemma SameIndex(db: Db, e: Stmt, i: QName)
    requires Execute(db, e).Some? && Simple(e)
    ensures var u := Execute(db, e).value;
      i in u.indexes && e != CreateIndex(i, u.indexes[i]) ==> Lookup(db.indexes, i) == Some(u.indexes[i])
  {
    hide NameTaken, CanIndex, HasColumns, Addressed, InBounds, SequenceOk, Internal, OtherKind;
  }

  lemma NoIndex(db: Db, i: QName)
    requires i !in db.indexes
    ensures IndexSound(db, i)
  {}

  lemma NewIndex(db: Db, i: QName, x: Index)
    requires Execute(db, CreateIndex(i, x)).Some?
    ensures IndexSound(Execute(db, CreateIndex(i, x)).value, i)
  {}

  lemma SimpleConstraint(db: Db, e: Stmt, k: ConName)
    requires Execute(db, e).Some? && Simple(e) && ConstraintSound(db, k)
    ensures ConstraintSound(Execute(db, e).value, k)
  {
    hide NameTaken, CanIndex, HasColumns, Addressed, InBounds, SequenceOk, Internal, OtherKind, ConstraintSound, Kept;
    var u := Execute(db, e).value;
    SimpleKeeps(db, e);
    if k in u.constraints && e == AddConstraint(k, u.constraints[k]) {
      NewConstraint(db, k, u.constraints[k]);
    } else {
      SameConstraint(db, e, k);
      hide Execute;
      if k in u.constraints {
        KeptConstraint(db, u, k);
      } else {
        NoConstraint(u, k);
      }
    }
  }

  lemma SameConstraint(db: Db, e: Stmt, k: ConName)
    requires Execute(db, e).Some? && Simple(e)
    ensures var u := Execute(db, e).value;
      k in u.constraints && e != AddConstraint(k, u.constraints[k]) ==>
        Lookup(db.constraints, k) == Some(u.constraints[k])
  {
    hide NameTaken, CanIndex, HasColumns, Addressed, InBounds, SequenceOk, Internal, OtherKind;
  }

  lemma NoConstraint(db: Db, k: ConName)
    requires k !in db.constraints
    ensures ConstraintSound(db, k)
  {}

  lemma NewConstraint(db: Db, k: ConName, d: Definition)
    requires Execute(db, AddConstraint(k, d)).Some?
    ensures ConstraintSound(Execute(db, AddConstraint(k, d)).value, k)
  {}

  lemma SimpleSequence(db: Db, e: Stmt, q: QName)
    requires Execute(db, e).Some? && Simple(e) && SequenceSound(db, q)
    ensures SequenceSound(Execute(db, e).value, q)
  {
    hide NameTaken, CanIndex, Addressed, Internal, OtherKind;
  }

  lemma SimpleSound(db: Db, e: Stmt)
    requires Sound(db) && Execute(db, e).Some? && Simple(e)
    ensures Sound(Execute(db, e).value)
  {
    hide Execute, NamesSound, IndexSound, ConstraintSound, SequenceSound;
    SimpleNames(db, e);
    forall i ensures IndexSound(Execute(db, e).value, i) { SimpleIndex(db, e, i); }
    forall k ensures ConstraintSound(Execute(db, e).value, k) { SimpleConstraint(db, e, k); }
    forall q ensures SequenceSound(Execute(db, e).value, q) { SimpleSequence(db, e, q); }
  }

  // ---------- names ----------

  /** Nothing has a name that it did not have, but for one that nothing had. */
  ghost predicate FewNames(db: Db, u: Db, q: QName) {
    || (!NameTaken(db, q) && OneKind(u, q))
    || ((q in u.tables ==> q in db.tables) && (q in u.indexes ==> q in db.indexes) && (q in u.views ==> q in db.views)
        && (q in u.matviews ==> q in db.matviews) && (q in u.sequences ==> q in db.sequences))
  }

  lemma StatementNames(db: Db, e: Stmt, q: QName)
    requires Execute(db, e).Some? && !e.CreateTable? && !e.AlterTable?
    ensures FewNames(db, Execute(db, e).value, q)
  {
    hide CanIndex, HasColumns, Addressed, InBounds, SequenceOk, Internal, OtherKind, TableInUse, SchemaInUse;
  }

  lemma IdentityNames(db: Db, t: QName, c: Column, q: QName)
    requires OneKind(db, q)
    ensures OneKind(WithIdentity(db, t, c), q)
  {
    var name := FreeName(db, t.schema);
    assert !NameTaken(db, name);
  }

  lemma {:induction false} IdentitiesNames(db: Db, t: QName, cols: seq<Column>, q: QName)
    requires OneKind(db, q)
    ensures OneKind(WithIdentities(db, t, cols), q)
  {
    hide OneKind, WithIdentity;
    if cols != [] {
      IdentitiesNames(db, t, cols[..|cols| - 1], q);
      IdentityNames(WithIdentities(db, t, cols[..|cols| - 1]), t, cols[|cols| - 1], q);
    }
  }

  lemma AlterNames(db: Db, t: QName, a: Alteration, q: QName)
    requires Execute(db, AlterTable(t, a)).Some? && OneKind(db, q)
    ensures OneKind(Execute(db, AlterTable(t, a)).value, q)
  {
    hide ExecuteAlteration, WithIdentity, CanRetype;
    var u := db.(tables := db.tables[t := ExecuteAlteration(db.tables[t], a).value]);
    assert OneKind(u, q);
    if a.AddColumn? {
      IdentityNames(u, t, a.column, q);
    }
  }

  lemma NamesStayApart(db: Db, e: Stmt, q: QName)
    requires Execute(db, e).Some? && OneKind(db, q)
    ensures OneKind(Execute(db, e).value, q)
  {
    if e.AlterTable? {
      AlterNames(db, e.table, e.alteration, q);
      hide Execute, OneKind;
    } else if e.CreateTable? {
      var u := db.(tables := db.tables[e.table := Created(e.definition)]);
      assert OneKind(u, q);
      IdentitiesNames(u, e.table, e.definition.columns, q);
      hide OneKind;
    } else {
      StatementNames(db, e, q);
      hide Execute;
    }
  }

  // ---------- any run ----------

  lemma StatementKeepsSound(db: Db, e: Stmt)
    requires Sound(db) && Execute(db, e).Some?
    ensures Sound(Execute(db, e).value)
  {
    hide Sound, Execute;
    match e
    case CreateTable(q, t) => CreateTableSound(db, q, t);
    case AlterTable(q, a) => AlterSound(db, q, a);
    case DropTable(q) => DropTableSound(db, q);
    case DropMatview(q) => DropMatviewSound(db, q);
    case DropSchema(n) => DropSchemaSound(db, n);
    case _ => SimpleSound(db, e);
  }

  lemma {:induction false} RunKeepsSound(db: Db, es: seq<Stmt>, q: QName)
    requires Sound(db) && OneKind(db, q) && ExecuteAll(db, es).Some?
    ensures Sound(ExecuteAll(db, es).value) && OneKind(ExecuteAll(db, es).value, q)
  {
    hide Sound, OneKind, Execute;
    if es != [] {
      RunKeepsSound(db, es[..|es| - 1], q);
      StatementKeepsSound(ExecuteAll(db, es[..|es| - 1]).value, es[|es| - 1]);
      NamesStayApart(ExecuteAll(db, es[..|es| - 1]).value, es[|es| - 1], q);
    }
  }

  /** The catalog of a closed schema is sound, and whatever statements run on it, in whatever
      order, it stays sound: no reference is ever left dangling, and no two relations come to
      share a name. */
  lemma NothingDangles(s: Schema, es: seq<Stmt>, q: QName)
    requires Closed(s) && ExecuteAll(Load(s), es).Some?
    ensures Sound(ExecuteAll(Load(s), es).value) && OneKind(ExecuteAll(Load(s), es).value, q)
  {
    hide ExecuteAll, Sound;
    ClosedIsSound(s);
    ClosedNames(s, q);
    hide OneKind, Closed, Load;
    RunKeepsSound(Load(s), es, q);
  }

  lemma ClosedNames(s: Schema, q: QName)
    requires Closed(s)
    ensures OneKind(Load(s), q)
  {}

  lemma ClosedIsSound(s: Schema)
    requires Closed(s)
    ensures Sound(Load(s))
  {
    var db := Load(s);
    forall i ensures IndexSound(db, i) {
      if i in s.indexes { assert IndexOk(s, i); }
    }
    forall k ensures ConstraintSound(db, k) {
      if k in s.constraints { assert ConstraintOk(s, k); }
    }
    forall q ensures SequenceSound(db, q) {
      if q in s.sequences { assert OwnerOk(s, s.sequences[q]); }
    }
  }
}
