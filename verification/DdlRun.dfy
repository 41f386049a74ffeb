/** The whole DDL script, phase by phase: at every point each object is still as in the
    source schema or already as in the target, depending on the loops that have passed it. */
module DdlRun {
  import opened Types
  import opened Catalog
  import opened SchemaMerge
  import opened Ddl
  import opened DdlProof

  /** Loop p has passed key k when phases below r are done and phase r has passed n keys. */
  ghost predicate Did(c: Pair, r: nat, n: nat, p: Phase, k: ObjectKey)
    requires n <= |c.order|
  {
    k in c.order && (p.Rank() < r || (p.Rank() == r && k in c.order[..n]))
  }

  /** The entry of an object that is created, changed and dropped as a whole. */
  function Now<K, V>(s: map<K, V>, t: map<K, V>, k: K, created: bool, changed: bool, dropped: bool): Option<V> {
    if k in t then (if k in s then Some(if changed then t[k] else s[k]) else if created then Some(t[k]) else None)
    else if k in s && !dropped then Some(s[k]) else None
  }

  ghost predicate SchemaNow(c: Pair, r: nat, n: nat, s: string) requires n <= |c.order| {
    if s in c.tgt.schemas then s in c.src.schemas || Did(c, r, n, NewSchemas, SchemaKey(s))
    else s in c.src.schemas && !Did(c, r, n, DropSchemas, SchemaKey(s))
  }

  ghost function TableNow(c: Pair, r: nat, n: nat, q: QName): Option<TableState> requires n <= |c.order| {
    Now(Load(c.src).tables, Target(c).tables, q, Did(c, r, n, NewTables, TableKey(q)),
      Did(c, r, n, AlterTables, TableKey(q)), Did(c, r, n, DropTables, TableKey(q)))
  }

  ghost function IndexNow(c: Pair, r: nat, n: nat, q: QName): Option<Index> requires n <= |c.order| {
    Now(c.src.indexes, c.tgt.indexes, q, Did(c, r, n, NewIndexes, IndexKey(q)), false,
      Did(c, r, n, DropIndexes, IndexKey(q)))
  }

  ghost function ConstraintNow(c: Pair, r: nat, n: nat, k: ConName): Option<Definition> requires n <= |c.order| {
    Now(c.src.constraints, c.tgt.constraints, k, Did(c, r, n, NewConstraints, ConstraintKey(k)),
      Did(c, r, n, ChangedConstraints, ConstraintKey(k)), Did(c, r, n, DropConstraints, ConstraintKey(k)))
  }

  ghost function ViewNow(c: Pair, r: nat, n: nat, q: QName): Option<string> requires n <= |c.order| {
    Now(c.src.views, c.tgt.views, q, Did(c, r, n, NewViews, ViewKey(q)),
      Did(c, r, n, ChangedViews, ViewKey(q)), Did(c, r, n, DropViews, ViewKey(q)))
  }

  ghost function MatviewNow(c: Pair, r: nat, n: nat, q: QName): Option<string> requires n <= |c.order| {
    Now(c.src.matviews, c.tgt.matviews, q, Did(c, r, n, NewMatviews, MatviewKey(q)), false,
      Did(c, r, n, DropMatviews, MatviewKey(q)))
  }

  ghost function FunctionNow(c: Pair, r: nat, n: nat, f: FnName): Option<string> requires n <= |c.order| {
    Now(c.src.functions, c.tgt.functions, f, Did(c, r, n, NewFunctions, FunctionKey(f)),
      Did(c, r, n, ChangedFunctions, FunctionKey(f)), Did(c, r, n, DropFunctions, FunctionKey(f)))
  }

  /** The table that takes an old sequence along was altered. */
  ghost predicate DidFollow(c: Pair, r: nat, n: nat, q: QName) requires n <= |c.order| {
    Retypes(c, q) && Did(c, r, n, AlterTables, TableKey(c.src.sequences[q].ownedBy.value.table))
  }

  /** A sequence that stays or is new. */
  ghost function SequenceNow(c: Pair, r: nat, n: nat, q: QName): Option<Sequence>
    requires n <= |c.order| && q in c.tgt.sequences
  {
    var t := c.tgt.sequences[q];
    var done := Did(c, r, n, SetVals, SequenceKey(q));
    if q in c.src.sequences then
      var s := if DidFollow(c, r, n, q) then Followed(c, q) else c.src.sequences[q];
      Some(s.(lastValue := if done then t.lastValue else s.lastValue))
    else if Did(c, r, n, NewSequences, SequenceKey(q)) then
      Some(Sequence(t.params, if done then t.lastValue else None,
        if Did(c, r, n, OwnSequences, SequenceKey(q)) then t.ownedBy else None))
    else None
  }

  ghost predicate StSequences(c: Pair, x: map<QName, Sequence>, r: nat, n: nat) requires n <= |c.order| {
    && (forall q :: q in c.tgt.sequences ==> Lookup(x, q) == SequenceNow(c, r, n, q))
    // one that goes may vanish early, with the column or table that owns it
    && (forall q :: q in x && q !in c.tgt.sequences ==>
         q in c.src.sequences && x[q] == c.src.sequences[q] && !Did(c, r, n, DropSequences, SequenceKey(q)))
  }

  ghost predicate St(c: Pair, db: Db, r: nat, n: nat) requires n <= |c.order| {
    && (forall s :: s in db.schemas <==> SchemaNow(c, r, n, s))
    && (forall q :: Lookup(db.tables, q) == TableNow(c, r, n, q))
    && (forall q :: Lookup(db.indexes, q) == IndexNow(c, r, n, q))
    && (forall k :: Lookup(db.constraints, k) == ConstraintNow(c, r, n, k))
    && (forall q :: Lookup(db.views, q) == ViewNow(c, r, n, q))
    && (forall q :: Lookup(db.matviews, q) == MatviewNow(c, r, n, q))
    && (forall f :: Lookup(db.functions, f) == FunctionNow(c, r, n, f))
    && StSequences(c, db.sequences, r, n)
  }

  // ---------- one more key passed ----------

  lemma DidNext(c: Pair, r: nat, n: nat, p: Phase, k: ObjectKey)
    requires n < |c.order|
    ensures Did(c, r, n + 1, p, k) <==> Did(c, r, n, p, k) || (p.Rank() == r && k == c.order[n])
  {
    assert c.order[..n + 1] == c.order[..n] + [c.order[n]];
  }

  /** A phase is known by its rank. */
  lemma RankIs(p: Phase)
    ensures p.Rank() < |PHASES| && PHASES[p.Rank()] == p
    ensures forall x: Phase :: p.Rank() == x.Rank() <==> p == x
  {}

  lemma NotYet(c: Pair, r: nat, n: nat, p: Phase)
    requires Listed(c) && n < |c.order| && p.Rank() >= r
    ensures !Did(c, r, n, p, c.order[n])
  {}

  lemma SchemaNext(c: Pair, r: nat, n: nat, s: string)
    requires n < |c.order| && SchemaKey(s) != c.order[n]
    ensures SchemaNow(c, r, n + 1, s) == SchemaNow(c, r, n, s)
  {
    DidNext(c, r, n, NewSchemas, SchemaKey(s));
    DidNext(c, r, n, DropSchemas, SchemaKey(s));
  }

  lemma TableNext(c: Pair, r: nat, n: nat, q: QName)
    requires n < |c.order| && TableKey(q) != c.order[n]
    ensures TableNow(c, r, n + 1, q) == TableNow(c, r, n, q)
  {
    DidNext(c, r, n, NewTables, TableKey(q));
    DidNext(c, r, n, AlterTables, TableKey(q));
    DidNext(c, r, n, DropTables, TableKey(q));
  }

  lemma IndexNext(c: Pair, r: nat, n: nat, q: QName)
    requires n < |c.order| && IndexKey(q) != c.order[n]
    ensures IndexNow(c, r, n + 1, q) == IndexNow(c, r, n, q)
  {
    DidNext(c, r, n, NewIndexes, IndexKey(q));
    DidNext(c, r, n, DropIndexes, IndexKey(q));
  }

  lemma ConstraintNext(c: Pair, r: nat, n: nat, k: ConName)
    requires n < |c.order| && ConstraintKey(k) != c.order[n]
    ensures ConstraintNow(c, r, n + 1, k) == ConstraintNow(c, r, n, k)
  {
    DidNext(c, r, n, NewConstraints, ConstraintKey(k));
    DidNext(c, r, n, ChangedConstraints, ConstraintKey(k));
    DidNext(c, r, n, DropConstraints, ConstraintKey(k));
  }

  lemma ViewNext(c: Pair, r: nat, n: nat, q: QName)
    requires n < |c.order| && ViewKey(q) != c.order[n]
    ensures ViewNow(c, r, n + 1, q) == ViewNow(c, r, n, q)
  {
    DidNext(c, r, n, NewViews, ViewKey(q));
    DidNext(c, r, n, ChangedViews, ViewKey(q));
    DidNext(c, r, n, DropViews, ViewKey(q));
  }

  lemma MatviewNext(c: Pair, r: nat, n: nat, q: QName)
    requires n < |c.order| && MatviewKey(q) != c.order[n]
    ensures MatviewNow(c, r, n + 1, q) == MatviewNow(c, r, n, q)
  {
    DidNext(c, r, n, NewMatviews, MatviewKey(q));
    DidNext(c, r, n, DropMatviews, MatviewKey(q));
  }

  lemma FunctionNext(c: Pair, r: nat, n: nat, f: FnName)
    requires n < |c.order| && FunctionKey(f) != c.order[n]
    ensures FunctionNow(c, r, n + 1, f) == FunctionNow(c, r, n, f)
  {
    DidNext(c, r, n, NewFunctions, FunctionKey(f));
    DidNext(c, r, n, ChangedFunctions, FunctionKey(f));
    DidNext(c, r, n, DropFunctions, FunctionKey(f));
  }

  /** The key in hand is the table that takes the sequence along. */
  ghost predicate Rides(c: Pair, r: nat, n: nat, q: QName) requires n < |c.order| {
    r == AlterTables.Rank() && Retypes(c, q) && c.order[n] == TableKey(c.src.sequences[q].ownedBy.value.table)
  }

  lemma FollowNext(c: Pair, r: nat, n: nat, q: QName)
    requires n < |c.order|
    ensures DidFollow(c, r, n + 1, q) <==> DidFollow(c, r, n, q) || Rides(c, r, n, q)
  {
    if Retypes(c, q) {
      DidNext(c, r, n, AlterTables, TableKey(c.src.sequences[q].ownedBy.value.table));
    }
    hide Did, Retypes;
  }

  lemma SequenceNext(c: Pair, r: nat, n: nat, q: QName)
    requires n < |c.order| && SequenceKey(q) != c.order[n] && !Rides(c, r, n, q)
    ensures q in c.tgt.sequences ==> SequenceNow(c, r, n + 1, q) == SequenceNow(c, r, n, q)
    ensures Did(c, r, n + 1, DropSequences, SequenceKey(q)) == Did(c, r, n, DropSequences, SequenceKey(q))
  {
    DidNext(c, r, n, NewSequences, SequenceKey(q));
    DidNext(c, r, n, OwnSequences, SequenceKey(q));
    DidNext(c, r, n, SetVals, SequenceKey(q));
    DidNext(c, r, n, DropSequences, SequenceKey(q));
    FollowNext(c, r, n, q);
    hide Did, DidFollow, Rides;
  }

  /** Everything but the key in hand stands still. */
  ghost predicate Others(c: Pair, db: Db, r: nat, n: nat) requires n < |c.order| {
    && (forall s :: SchemaKey(s) != c.order[n] ==> (s in db.schemas <==> SchemaNow(c, r, n + 1, s)))
    && (forall q :: TableKey(q) != c.order[n] ==> Lookup(db.tables, q) == TableNow(c, r, n + 1, q))
    && (forall q :: IndexKey(q) != c.order[n] ==> Lookup(db.indexes, q) == IndexNow(c, r, n + 1, q))
    && (forall k :: ConstraintKey(k) != c.order[n] ==> Lookup(db.constraints, k) == ConstraintNow(c, r, n + 1, k))
    && (forall q :: ViewKey(q) != c.order[n] ==> Lookup(db.views, q) == ViewNow(c, r, n + 1, q))
    && (forall q :: MatviewKey(q) != c.order[n] ==> Lookup(db.matviews, q) == MatviewNow(c, r, n + 1, q))
    && (forall f :: FunctionKey(f) != c.order[n] ==> Lookup(db.functions, f) == FunctionNow(c, r, n + 1, f))
    && (forall q :: q in c.tgt.sequences && SequenceKey(q) != c.order[n] && !Rides(c, r, n, q) ==>
         Lookup(db.sequences, q) == SequenceNow(c, r, n + 1, q))
    && (forall q :: q in db.sequences && q !in c.tgt.sequences && SequenceKey(q) != c.order[n] ==>
         q in c.src.sequences && db.sequences[q] == c.src.sequences[q] &&
         !Did(c, r, n + 1, DropSequences, SequenceKey(q)))
  }

  lemma OthersStand(c: Pair, db: Db, r: nat, n: nat)
    requires n < |c.order| && St(c, db, r, n)
    ensures Others(c, db, r, n)
  {
    hide SchemaNow, TableNow, IndexNow, ConstraintNow, ViewNow, MatviewNow, FunctionNow, SequenceNow, Did, Rides;
    forall s | SchemaKey(s) != c.order[n] ensures s in db.schemas <==> SchemaNow(c, r, n + 1, s) {
      SchemaNext(c, r, n, s);
    }
    forall q | TableKey(q) != c.order[n] ensures Lookup(db.tables, q) == TableNow(c, r, n + 1, q) {
      TableNext(c, r, n, q);
    }
    forall q | IndexKey(q) != c.order[n] ensures Lookup(db.indexes, q) == IndexNow(c, r, n + 1, q) {
      IndexNext(c, r, n, q);
    }
    forall k | ConstraintKey(k) != c.order[n] ensures Lookup(db.constraints, k) == ConstraintNow(c, r, n + 1, k) {
      ConstraintNext(c, r, n, k);
    }
    forall q | ViewKey(q) != c.order[n] ensures Lookup(db.views, q) == ViewNow(c, r, n + 1, q) { ViewNext(c, r, n, q); }
    forall q | MatviewKey(q) != c.order[n] ensures Lookup(db.matviews, q) == MatviewNow(c, r, n + 1, q) {
      MatviewNext(c, r, n, q);
    }
    forall f | FunctionKey(f) != c.order[n] ensures Lookup(db.functions, f) == FunctionNow(c, r, n + 1, f) {
      FunctionNext(c, r, n, f);
    }
    forall q | q in c.tgt.sequences && SequenceKey(q) != c.order[n] && !Rides(c, r, n, q)
      ensures Lookup(db.sequences, q) == SequenceNow(c, r, n + 1, q) { SequenceNext(c, r, n, q); }
    forall q | q in db.sequences && q !in c.tgt.sequences && SequenceKey(q) != c.order[n]
      ensures q in c.src.sequences && db.sequences[q] == c.src.sequences[q]
      ensures !Did(c, r, n + 1, DropSequences, SequenceKey(q)) {
      DidNext(c, r, n, DropSequences, SequenceKey(q));
    }
  }

  /** The key in hand stands as the next point wants it. */
  ghost predicate OwnOk(c: Pair, db: Db, r: nat, n: nat) requires n < |c.order| {
    match c.order[n]
    case SchemaKey(s) => s in db.schemas <==> SchemaNow(c, r, n + 1, s)
    case TableKey(q) =>
      && Lookup(db.tables, q) == TableNow(c, r, n + 1, q)
      && forall k :: k in c.tgt.sequences && Rides(c, r, n, k) ==>
           Lookup(db.sequences, k) == SequenceNow(c, r, n + 1, k)
    case IndexKey(q) => Lookup(db.indexes, q) == IndexNow(c, r, n + 1, q)
    case ConstraintKey(k) => Lookup(db.constraints, k) == ConstraintNow(c, r, n + 1, k)
    case ViewKey(q) => Lookup(db.views, q) == ViewNow(c, r, n + 1, q)
    case MatviewKey(q) => Lookup(db.matviews, q) == MatviewNow(c, r, n + 1, q)
    case FunctionKey(f) => Lookup(db.functions, f) == FunctionNow(c, r, n + 1, f)
    case SequenceKey(q) =>
      if q in c.tgt.sequences then Lookup(db.sequences, q) == SequenceNow(c, r, n + 1, q)
      else (q in db.sequences ==>
        q in c.src.sequences && db.sequences[q] == c.src.sequences[q] &&
        !Did(c, r, n + 1, DropSequences, SequenceKey(q)))
    case _ => true
  }

  lemma Assemble(c: Pair, db: Db, r: nat, n: nat)
    requires n < |c.order| && Others(c, db, r, n) && OwnOk(c, db, r, n)
    ensures St(c, db, r, n + 1)
  {
    hide SchemaNow, TableNow, IndexNow, ConstraintNow, ViewNow, MatviewNow, FunctionNow, SequenceNow, Did;
  }

  lemma Past(c: Pair, r: nat, n: nat, p: Phase, k: ObjectKey)
    requires n <= |c.order| && p.Rank() < r && Listed(c) && (KeyOfSchema(c.src, k) || KeyOfSchema(c.tgt, k))
    ensures Did(c, r, n, p, k)
  {}

  /** The target's schemas exist once the first loop is over. */
  lemma SchemaExists(c: Pair, db: Db, r: nat, n: nat, s: string)
    requires Listed(c) && n <= |c.order| && St(c, db, r, n) && r > 0 && s in c.tgt.schemas
    ensures s in db.schemas
  {
    Past(c, r, n, NewSchemas, SchemaKey(s));
  }

  /** The target's tables and columns exist once tables are altered. */
  lemma ColumnsExist(c: Pair, db: Db, r: nat, n: nat, q: QName, cols: set<string>)
    requires Listed(c) && n <= |c.order| && St(c, db, r, n) && r > 3 && HasCols(c.tgt, q, cols)
    ensures HasColumns(db, q, cols)
  {
    TargetTableNow(c, db, r, n, q);
    assert Target(c).tables[q].cols.Keys == ByName(c.tgt.tables[q].columns).Keys;
  }

  lemma TargetTableNow(c: Pair, db: Db, r: nat, n: nat, q: QName)
    requires Listed(c) && n <= |c.order| && St(c, db, r, n) && r > 3 && q in c.tgt.tables
    ensures q in db.tables && db.tables[q] == Target(c).tables[q]
  {
    assert Lookup(db.tables, q) == TableNow(c, r, n, q);
    assert KeyOfSchema(c.tgt, TableKey(q));
    Past(c, r, n, NewTables, TableKey(q));
    Past(c, r, n, AlterTables, TableKey(q));
  }

  /** A name used by neither schema is not in use now. */
  lemma StillFree(c: Pair, db: Db, r: nat, n: nat, q: QName)
    requires n <= |c.order| && St(c, db, r, n) && !Named(c.src, q)
    ensures q !in c.tgt.tables ==> q !in db.tables
    ensures q !in c.tgt.indexes ==> q !in db.indexes
    ensures q !in c.tgt.views ==> q !in db.views
    ensures q !in c.tgt.matviews ==> q !in db.matviews
    ensures q !in c.tgt.sequences ==> q !in db.sequences
  {
    assert Lookup(db.tables, q) == TableNow(c, r, n, q);
    assert Lookup(db.indexes, q) == IndexNow(c, r, n, q);
    assert Lookup(db.views, q) == ViewNow(c, r, n, q);
    assert Lookup(db.matviews, q) == MatviewNow(c, r, n, q);
  }

  lemma OnlyOneKind(s: Schema, q: QName)
    requires Disjoint(s)
    ensures q in s.tables ==> q !in s.indexes && q !in s.views && q !in s.matviews && q !in s.sequences
    ensures q in s.indexes ==> q !in s.tables && q !in s.views && q !in s.matviews && q !in s.sequences
    ensures q in s.views ==> q !in s.tables && q !in s.indexes && q !in s.matviews && q !in s.sequences
    ensures q in s.matviews ==> q !in s.tables && q !in s.indexes && q !in s.views && q !in s.sequences
    ensures q in s.sequences ==> q !in s.tables && q !in s.indexes && q !in s.views && q !in s.matviews
  {}

  lemma ExecuteOne(db: Db, e: Stmt)
    ensures ExecuteAll(db, [e]) == Execute(db, e)
  {
    assert [e][..0] == [];
  }

  /** Running the statements leads to the next point. */
  ghost predicate Goes(c: Pair, db: Db, r: nat, n: nat, es: seq<Stmt>)
    requires n < |c.order|
  {
    match ExecuteAll(db, es)
    case None => false
    case Some(t) => St(c, t, r, n + 1)
  }

  lemma GoesNowhere(c: Pair, db: Db, r: nat, n: nat)
    requires n < |c.order| && Others(c, db, r, n) && OwnOk(c, db, r, n)
    ensures Goes(c, db, r, n, [])
  {
    hide Others, OwnOk, St;
    Assemble(c, db, r, n);
  }

  lemma GoesOne(c: Pair, db: Db, r: nat, n: nat, e: Stmt, t: Db)
    requires n < |c.order| && Execute(db, e) == Some(t) && Others(c, t, r, n) && OwnOk(c, t, r, n)
    ensures Goes(c, db, r, n, [e])
  {
    hide Others, OwnOk, St, Execute;
    ExecuteOne(db, e);
    Assemble(c, t, r, n);
  }

  // ---------- functions ----------

  /** What phase p writes for a function, and where its entry must go. */
  lemma FunctionEmits(c: Pair, p: Phase, n: nat, f: FnName)
    requires Listed(c) && n < |c.order| && c.order[n] == FunctionKey(f)
    ensures var r := p.Rank();
      var es, was, next := EmitFunction(c, p, f), FunctionNow(c, r, n, f), FunctionNow(c, r, n + 1, f);
      || (es == [] && next == was)
      || (r > 0 && f in c.tgt.functions && es == [ReplaceFunction(f, c.tgt.functions[f])] &&
           next == Some(c.tgt.functions[f]))
      || (es == [DropFunction(f)] && was.Some? && next == None)
  {
    hide Did, Listed;
    var r := p.Rank();
    DidNext(c, r, n, NewFunctions, FunctionKey(f));
    DidNext(c, r, n, ChangedFunctions, FunctionKey(f));
    DidNext(c, r, n, DropFunctions, FunctionKey(f));
    NotYet(c, r, n, p);
  }

  lemma FunctionSet(c: Pair, db: Db, r: nat, n: nat, f: FnName, text: string)
    requires n < |c.order| && c.order[n] == FunctionKey(f) && Others(c, db, r, n)
    requires FunctionNow(c, r, n + 1, f) == Some(text) && f.schema in db.schemas
    ensures Goes(c, db, r, n, [ReplaceFunction(f, text)])
  {
    hide Goes, St, SchemaNow, TableNow, IndexNow, ConstraintNow, ViewNow, MatviewNow, FunctionNow, SequenceNow, Did;
    GoesOne(c, db, r, n, ReplaceFunction(f, text), db.(functions := db.functions[f := text]));
  }

  lemma FunctionGone(c: Pair, db: Db, r: nat, n: nat, f: FnName)
    requires n < |c.order| && c.order[n] == FunctionKey(f) && Others(c, db, r, n)
    requires FunctionNow(c, r, n + 1, f) == None && f in db.functions
    ensures Goes(c, db, r, n, [DropFunction(f)])
  {
    hide Goes, St, SchemaNow, TableNow, IndexNow, ConstraintNow, ViewNow, MatviewNow, FunctionNow, SequenceNow, Did;
    GoesOne(c, db, r, n, DropFunction(f), db.(functions := db.functions - {f}));
  }

  lemma FunctionStep(c: Pair, db: Db, p: Phase, n: nat, f: FnName)
    requires Listed(c) && n < |c.order| && c.order[n] == FunctionKey(f)
    requires St(c, db, p.Rank(), n)
    requires f in c.tgt.functions ==> f.schema in c.tgt.schemas
    ensures Goes(c, db, p.Rank(), n, EmitFunction(c, p, f))
  {
    var r := p.Rank();
    FunctionEmits(c, p, n, f);
    OthersStand(c, db, r, n);
    assert Lookup(db.functions, f) == FunctionNow(c, r, n, f);
    hide Goes, St, EmitFunction, SchemaNow, FunctionNow, Did, Listed, Others;
    if EmitFunction(c, p, f) == [] {
      GoesNowhere(c, db, r, n);
    } else if FunctionNow(c, r, n + 1, f).Some? {
      SchemaExists(c, db, r, n, f.schema);
      FunctionSet(c, db, r, n, f, c.tgt.functions[f]);
    } else {
      FunctionGone(c, db, r, n, f);
    }
  }

  // ---------- views ----------

  lemma ViewEmits(c: Pair, p: Phase, n: nat, q: QName)
    requires Listed(c) && n < |c.order| && c.order[n] == ViewKey(q)
    ensures var r := p.Rank();
      var es, was, next := EmitView(c, p, q), ViewNow(c, r, n, q), ViewNow(c, r, n + 1, q);
      || (es == [] && next == was)
      || (q in c.tgt.views && next == Some(c.tgt.views[q]) && if q in c.src.views
           then es == [ReplaceView(q, c.tgt.views[q])] && was.Some?
           else r > 0 && es == [CreateView(q, c.tgt.views[q])] && was == None)
      || (es == [DropView(q)] && was.Some? && next == None)
  {
    hide Did, Listed, Phase.Rank;
    var r := p.Rank();
    RankIs(p);
    DidNext(c, r, n, NewViews, ViewKey(q));
    DidNext(c, r, n, ChangedViews, ViewKey(q));
    DidNext(c, r, n, DropViews, ViewKey(q));
    NotYet(c, r, n, p);
  }

  lemma ViewSet(c: Pair, db: Db, r: nat, n: nat, q: QName, text: string)
    requires n < |c.order| && c.order[n] == ViewKey(q) && Others(c, db, r, n)
    requires ViewNow(c, r, n + 1, q) == Some(text)
    ensures q.schema in db.schemas && !NameTaken(db, q) ==> Goes(c, db, r, n, [CreateView(q, text)])
    ensures q in db.views ==> Goes(c, db, r, n, [ReplaceView(q, text)])
  {
    hide Goes, St, SchemaNow, TableNow, IndexNow, ConstraintNow, ViewNow, MatviewNow, FunctionNow, SequenceNow, Did;
    var t := db.(views := db.views[q := text]);
    if q.schema in db.schemas && !NameTaken(db, q) {
      GoesOne(c, db, r, n, CreateView(q, text), t);
    }
    if q in db.views {
      GoesOne(c, db, r, n, ReplaceView(q, text), t);
    }
  }

  lemma ViewGone(c: Pair, db: Db, r: nat, n: nat, q: QName)
    requires n < |c.order| && c.order[n] == ViewKey(q) && Others(c, db, r, n)
    requires ViewNow(c, r, n + 1, q) == None && q in db.views
    ensures Goes(c, db, r, n, [DropView(q)])
  {
    hide Goes, St, SchemaNow, TableNow, IndexNow, ConstraintNow, ViewNow, MatviewNow, FunctionNow, SequenceNow, Did;
    GoesOne(c, db, r, n, DropView(q), db.(views := db.views - {q}));
  }

  lemma ViewStep(c: Pair, db: Db, p: Phase, n: nat, q: QName)
    requires Listed(c) && n < |c.order| && c.order[n] == ViewKey(q)
    requires St(c, db, p.Rank(), n) && Disjoint(c.tgt)
    requires q in c.tgt.views ==> q.schema in c.tgt.schemas && (q in c.src.views || !Named(c.src, q))
    ensures Goes(c, db, p.Rank(), n, EmitView(c, p, q))
  {
    var r := p.Rank();
    ViewEmits(c, p, n, q);
    OthersStand(c, db, r, n);
    assert Lookup(db.views, q) == ViewNow(c, r, n, q);
    OnlyOneKind(c.tgt, q);
    hide Goes, St, EmitView, SchemaNow, ViewNow, Did, Listed, Others, Named, Disjoint;
    if EmitView(c, p, q) == [] {
      GoesNowhere(c, db, r, n);
    } else if ViewNow(c, r, n + 1, q).Some? {
      if q !in c.src.views {
        SchemaExists(c, db, r, n, q.schema);
        StillFree(c, db, r, n, q);
      }
      ViewSet(c, db, r, n, q, c.tgt.views[q]);
    } else {
      ViewGone(c, db, r, n, q);
    }
  }

  // ---------- materialized views ----------

  lemma MatviewEmits(c: Pair, p: Phase, n: nat, q: QName)
    requires Listed(c) && n < |c.order| && c.order[n] == MatviewKey(q)
    ensures var r := p.Rank();
      var es, was, next := EmitMatview(c, p, q), MatviewNow(c, r, n, q), MatviewNow(c, r, n + 1, q);
      || (es == [] && next == was)
      || (r > 0 && q in c.tgt.matviews && q !in c.src.matviews && was == None &&
           next == Some(c.tgt.matviews[q]) && es == [CreateMatview(q, c.tgt.matviews[q])])
      || (r == 16 && q in c.src.matviews && q !in c.tgt.matviews && was.Some? && next == None && es == [DropMatview(q)])
  {
    hide Did, Listed, Phase.Rank;
    var r := p.Rank();
    RankIs(p);
    DidNext(c, r, n, NewMatviews, MatviewKey(q));
    DidNext(c, r, n, DropMatviews, MatviewKey(q));
    NotYet(c, r, n, p);
  }

  lemma MatviewSet(c: Pair, db: Db, r: nat, n: nat, q: QName, text: string)
    requires n < |c.order| && c.order[n] == MatviewKey(q) && Others(c, db, r, n)
    requires MatviewNow(c, r, n + 1, q) == Some(text) && q.schema in db.schemas && !NameTaken(db, q)
    ensures Goes(c, db, r, n, [CreateMatview(q, text)])
  {
    hide Goes, St, SchemaNow, TableNow, IndexNow, ConstraintNow, ViewNow, MatviewNow, FunctionNow, SequenceNow, Did;
    GoesOne(c, db, r, n, CreateMatview(q, text), db.(matviews := db.matviews[q := text]));
  }

  // ---------- indexes ----------

  lemma IndexEmits(c: Pair, p: Phase, n: nat, q: QName)
    requires Listed(c) && n < |c.order| && c.order[n] == IndexKey(q)
    ensures var r := p.Rank();
      var es, was, next := EmitIndex(c, p, q), IndexNow(c, r, n, q), IndexNow(c, r, n + 1, q);
      || (es == [] && next == was)
      || (r > 3 && q in c.tgt.indexes && q !in c.src.indexes && was == None &&
           next == Some(c.tgt.indexes[q]) && es == [CreateIndex(q, c.tgt.indexes[q])])
      || (es == [DropIndex(q)] && was.Some? && next == None)
  {
    hide Did, Listed, Phase.Rank;
    var r := p.Rank();
    RankIs(p);
    DidNext(c, r, n, NewIndexes, IndexKey(q));
    DidNext(c, r, n, DropIndexes, IndexKey(q));
    NotYet(c, r, n, p);
  }

  lemma IndexSet(c: Pair, db: Db, r: nat, n: nat, q: QName, i: Index)
    requires n < |c.order| && c.order[n] == IndexKey(q) && Others(c, db, r, n)
    requires IndexNow(c, r, n + 1, q) == Some(i) && q.schema in db.schemas && !NameTaken(db, q)
    requires CanIndex(db, TableOfIndex(q, i), i.definition.cols)
    ensures Goes(c, db, r, n, [CreateIndex(q, i)])
  {
    hide Goes, St, SchemaNow, TableNow, IndexNow, ConstraintNow, ViewNow, MatviewNow, FunctionNow, SequenceNow, Did;
    hide NameTaken, CanIndex;
    GoesOne(c, db, r, n, CreateIndex(q, i), db.(indexes := db.indexes[q := i]));
  }

  lemma IndexGone(c: Pair, db: Db, r: nat, n: nat, q: QName)
    requires n < |c.order| && c.order[n] == IndexKey(q) && Others(c, db, r, n)
    requires IndexNow(c, r, n + 1, q) == None && q in db.indexes
    ensures Goes(c, db, r, n, [DropIndex(q)])
  {
    hide Goes, St, SchemaNow, TableNow, IndexNow, ConstraintNow, ViewNow, MatviewNow, FunctionNow, SequenceNow, Did;
    GoesOne(c, db, r, n, DropIndex(q), db.(indexes := db.indexes - {q}));
  }

  /** What a new index is on stands when the index is created. */
  lemma HostStands(c: Pair, db: Db, r: nat, n: nat, i: QName)
    requires Listed(c) && n <= |c.order| && St(c, db, r, n) && r > 3 && Disjoint(c.tgt)
    requires i in c.tgt.indexes && IndexOk(c.tgt, i)
    requires var q := TableOfIndex(i, c.tgt.indexes[i]); q in c.tgt.tables || q in c.src.matviews
    ensures CanIndex(db, TableOfIndex(i, c.tgt.indexes[i]), c.tgt.indexes[i].definition.cols)
  {
    var q := TableOfIndex(i, c.tgt.indexes[i]);
    OnlyOneKind(c.tgt, q);
    if q in c.tgt.tables {
      hide St, Listed, HasCols, HasColumns, Disjoint;
      ColumnsExist(c, db, r, n, q, c.tgt.indexes[i].definition.cols);
    } else {
      assert Lookup(db.matviews, q) == MatviewNow(c, r, n, q);
    }
  }

  lemma IndexStep(c: Pair, db: Db, p: Phase, n: nat, q: QName)
    requires Listed(c) && n < |c.order| && c.order[n] == IndexKey(q)
    requires St(c, db, p.Rank(), n) && Disjoint(c.tgt)
    requires q in c.tgt.indexes ==> IndexOk(c.tgt, q) && (q in c.src.indexes || !Named(c.src, q))
    requires IndexHostsStand(c)
    ensures Goes(c, db, p.Rank(), n, EmitIndex(c, p, q))
  {
    var r := p.Rank();
    IndexEmits(c, p, n, q);
    OthersStand(c, db, r, n);
    assert Lookup(db.indexes, q) == IndexNow(c, r, n, q);
    OnlyOneKind(c.tgt, q);
    hide Goes, St, EmitIndex, SchemaNow, IndexNow, Did, Listed, Others, Named, Disjoint, HasCols, CanIndex,
      TableOfIndex;
    if EmitIndex(c, p, q) == [] {
      GoesNowhere(c, db, r, n);
    } else if IndexNow(c, r, n + 1, q).Some? {
      var i := c.tgt.indexes[q];
      SchemaExists(c, db, r, n, q.schema);
      StillFree(c, db, r, n, q);
      HostStands(c, db, r, n, q);
      IndexSet(c, db, r, n, q, i);
    } else {
      IndexGone(c, db, r, n, q);
    }
  }

  // ---------- constraints ----------

  lemma GoesTwo(c: Pair, db: Db, r: nat, n: nat, e: Stmt, t: Db, f: Stmt, u: Db)
    requires n < |c.order| && Execute(db, e) == Some(t) && Execute(t, f) == Some(u)
    requires Others(c, u, r, n) && OwnOk(c, u, r, n)
    ensures Goes(c, db, r, n, [e, f])
  {
    hide Others, OwnOk, St, Execute;
    ExecuteOne(db, e);
    assert [e, f][..1] == [e];
    Assemble(c, u, r, n);
  }

  lemma ConstraintEmits(c: Pair, p: Phase, n: nat, k: ConName)
    requires Listed(c) && n < |c.order| && c.order[n] == ConstraintKey(k)
    ensures var r := p.Rank();
      var es, was, next := EmitConstraint(c, p, k), ConstraintNow(c, r, n, k), ConstraintNow(c, r, n + 1, k);
      || (es == [] && next == was)
      || (r > 3 && k in c.tgt.constraints && next == Some(c.tgt.constraints[k]) && if k in c.src.constraints
           then es == [DropConstraint(k), AddConstraint(k, c.tgt.constraints[k])] && was.Some?
           else es == [AddConstraint(k, c.tgt.constraints[k])] && was == None)
      || (es == [DropConstraint(k)] && was.Some? && next == None)
  {
    hide Did, Listed;
    var r := p.Rank();
    DidNext(c, r, n, NewConstraints, ConstraintKey(k));
    DidNext(c, r, n, ChangedConstraints, ConstraintKey(k));
    DidNext(c, r, n, DropConstraints, ConstraintKey(k));
    NotYet(c, r, n, p);
  }

  lemma ConstraintSet(c: Pair, db: Db, r: nat, n: nat, k: ConName, d: Definition)
    requires n < |c.order| && c.order[n] == ConstraintKey(k) && Others(c, db, r, n)
    requires ConstraintNow(c, r, n + 1, k) == Some(d)
    requires HasColumns(db, k.table, d.cols) && (d.refs.Some? ==> d.refs.value in db.tables)
    ensures if k in db.constraints then Goes(c, db, r, n, [DropConstraint(k), AddConstraint(k, d)])
      else Goes(c, db, r, n, [AddConstraint(k, d)])
  {
    hide Goes, St, SchemaNow, TableNow, IndexNow, ConstraintNow, ViewNow, MatviewNow, FunctionNow, SequenceNow, Did;
    if k in db.constraints {
      ConstraintReplaced(c, db, r, n, k, d);
    } else {
      GoesOne(c, db, r, n, AddConstraint(k, d), db.(constraints := db.constraints[k := d]));
    }
  }

  lemma ConstraintReplaced(c: Pair, db: Db, r: nat, n: nat, k: ConName, d: Definition)
    requires n < |c.order| && c.order[n] == ConstraintKey(k) && Others(c, db, r, n)
    requires ConstraintNow(c, r, n + 1, k) == Some(d) && k in db.constraints
    requires HasColumns(db, k.table, d.cols) && (d.refs.Some? ==> d.refs.value in db.tables)
    ensures Goes(c, db, r, n, [DropConstraint(k), AddConstraint(k, d)])
  {
    hide Goes, St, SchemaNow, TableNow, IndexNow, ConstraintNow, ViewNow, MatviewNow, FunctionNow, SequenceNow, Did;
    var t := db.(constraints := db.constraints - {k});
    GoesTwo(c, db, r, n, DropConstraint(k), t, AddConstraint(k, d), t.(constraints := t.constraints[k := d]));
  }

  lemma ConstraintGone(c: Pair, db: Db, r: nat, n: nat, k: ConName)
    requires n < |c.order| && c.order[n] == ConstraintKey(k) && Others(c, db, r, n)
    requires ConstraintNow(c, r, n + 1, k) == None && k in db.constraints
    ensures Goes(c, db, r, n, [DropConstraint(k)])
  {
    hide Goes, St, SchemaNow, TableNow, IndexNow, ConstraintNow, ViewNow, MatviewNow, FunctionNow, SequenceNow, Did;
    GoesOne(c, db, r, n, DropConstraint(k), db.(constraints := db.constraints - {k}));
  }

  lemma ConstraintStep(c: Pair, db: Db, p: Phase, n: nat, k: ConName)
    requires Listed(c) && n < |c.order| && c.order[n] == ConstraintKey(k)
    requires St(c, db, p.Rank(), n)
    requires k in c.tgt.constraints ==> ConstraintOk(c.tgt, k)
    ensures Goes(c, db, p.Rank(), n, EmitConstraint(c, p, k))
  {
    var r := p.Rank();
    ConstraintEmits(c, p, n, k);
    OthersStand(c, db, r, n);
    assert Lookup(db.constraints, k) == ConstraintNow(c, r, n, k);
    hide Goes, St, EmitConstraint, TableNow, ConstraintNow, Did, Listed, Others, HasCols, HasColumns;
    if EmitConstraint(c, p, k) == [] {
      GoesNowhere(c, db, r, n);
    } else if ConstraintNow(c, r, n + 1, k).Some? {
      var d := c.tgt.constraints[k];
      ColumnsExist(c, db, r, n, k.table, d.cols);
      if d.refs.Some? {
        TargetTableNow(c, db, r, n, d.refs.value);
      }
      ConstraintSet(c, db, r, n, k, d);
    } else {
      ConstraintGone(c, db, r, n, k);
    }
  }

  // ---------- sequences ----------

  lemma FollowPast(c: Pair, r: nat, n: nat, q: QName)
    requires Listed(c) && n <= |c.order|
    ensures r > 3 ==> (DidFollow(c, r, n, q) <==> Retypes(c, q))
  {
    if Retypes(c, q) && r > 3 {
      Past(c, r, n, AlterTables, TableKey(c.src.sequences[q].ownedBy.value.table));
    }
  }

  lemma SequenceEmits(c: Pair, p: Phase, n: nat, q: QName)
    requires Listed(c) && n < |c.order| && c.order[n] == SequenceKey(q) && q in c.tgt.sequences
    ensures var r := p.Rank();
      var es, was, next := EmitSequence(c, p, q), SequenceNow(c, r, n, q), SequenceNow(c, r, n + 1, q);
      var t := c.tgt.sequences[q];
      || (es == [] && next == was)
      || (r > 0 && q !in c.src.sequences && was == None && next == Some(Sequence(t.params, None, None)) &&
           es == [CreateSequence(q, t.params)])
      || (r > 3 && was.Some? && t.ownedBy.Some? && next == Some(was.value.(ownedBy := t.ownedBy)) &&
           es == [OwnSequence(q, t.ownedBy.value)])
      || (was.Some? && next == Some(was.value.(lastValue := t.lastValue)) &&
           es == [SetVal(q, t.lastValue, t.params.start)] && IsSet(c, q) &&
           was.value.params == (if q in c.src.sequences then Followed(c, q) else t).params)
  {
    hide Listed, Retypes, Did, DidFollow, Followed;
    SequenceTurn(c, p, n, q);
    FollowPast(c, p.Rank(), n, q);
    if q in c.src.sequences {
      FollowedIs(c, q);
    }
  }

  /** What is done when the loop comes to the key of a sequence. */
  lemma SequenceTurn(c: Pair, p: Phase, n: nat, q: QName)
    requires Listed(c) && n < |c.order| && c.order[n] == SequenceKey(q)
    ensures var (r, k) := (p.Rank(), SequenceKey(q));
      && (DidFollow(c, r, n + 1, q) <==> DidFollow(c, r, n, q))
      && (Did(c, r, n + 1, NewSequences, k) <==> Did(c, r, n, NewSequences, k) || p == NewSequences)
      && (Did(c, r, n + 1, OwnSequences, k) <==> Did(c, r, n, OwnSequences, k) || p == OwnSequences)
      && (Did(c, r, n + 1, SetVals, k) <==> Did(c, r, n, SetVals, k) || p == SetVals)
      && !Did(c, r, n, p, k) && (p == OwnSequences || p == SetVals ==> Did(c, r, n, NewSequences, k))
      && (p == NewSequences || p == OwnSequences ==> !Did(c, r, n, SetVals, k))
      && (p == NewSequences ==> !Did(c, r, n, OwnSequences, k))
  {
    hide Listed, Retypes;
    var r := p.Rank();
    FollowNext(c, r, n, q);
    DidNext(c, r, n, NewSequences, SequenceKey(q));
    DidNext(c, r, n, OwnSequences, SequenceKey(q));
    DidNext(c, r, n, SetVals, SequenceKey(q));
    NotYet(c, r, n, p);
    RankIs(p);
    if p == NewSequences || p == OwnSequences {
      NotYet(c, r, n, SetVals);
      NotYet(c, r, n, OwnSequences);
    }
  }

  lemma FollowedIs(c: Pair, q: QName)
    requires q in c.src.sequences
    ensures Followed(c, q).lastValue == c.src.sequences[q].lastValue
    ensures !Retypes(c, q) ==> Followed(c, q) == c.src.sequences[q]
  {}

  lemma GoneSequenceEmits(c: Pair, p: Phase, n: nat, q: QName)
    requires Listed(c) && n < |c.order| && c.order[n] == SequenceKey(q) && q !in c.tgt.sequences
    ensures EmitSequence(c, p, q) == [DropSequenceIfExists(q)] || (EmitSequence(c, p, q) == [] &&
      (q in c.src.sequences ==>
        (Did(c, p.Rank(), n + 1, DropSequences, SequenceKey(q)) <==>
          Did(c, p.Rank(), n, DropSequences, SequenceKey(q)))))
    ensures EmitSequence(c, p, q) != [] ==> q in c.src.sequences && p.Rank() == 20
  {
    DidNext(c, p.Rank(), n, DropSequences, SequenceKey(q));
  }

  /** The target sequence can be created, and the call that sets it addresses it and gives it
      a value within its bounds. */
  ghost predicate SetFits(c: Pair, q: QName) requires q in c.tgt.sequences {
    var t := c.tgt.sequences[q];
    && SequenceOk(t)
    && (IsSet(c, q) ==>
         && Addressed(q) == Some(q)
         && InBounds((if q in c.src.sequences then Followed(c, q) else t).params, SetTo(t.lastValue, t.params.start)))
  }

  ghost predicate Writes(db: Db, q: QName, e: Stmt, s: Sequence) {
    match e
    case CreateSequence(k, params) =>
      k == q && q.schema in db.schemas && !NameTaken(db, q) && SequenceOk(s) && s == Sequence(params, None, None)
    case OwnSequence(k, o) =>
      k == q && q in db.sequences && HasColumns(db, o.table, {o.column}) && s == db.sequences[q].(ownedBy := Some(o))
    case SetVal(k, v, start) =>
      k == q && q in db.sequences && Addressed(q) == Some(q) && InBounds(s.params, SetTo(v, start)) &&
      s == db.sequences[q].(lastValue := v)
    case _ => false
  }

  lemma SequenceMade(c: Pair, db: Db, r: nat, n: nat, q: QName, e: Stmt, s: Sequence)
    requires n < |c.order| && c.order[n] == SequenceKey(q) && Others(c, db, r, n)
    requires q in c.tgt.sequences && SequenceNow(c, r, n + 1, q) == Some(s) && Writes(db, q, e, s)
    ensures Goes(c, db, r, n, [e])
  {
    hide Goes, St, SchemaNow, TableNow, IndexNow, ConstraintNow, ViewNow, MatviewNow, FunctionNow, SequenceNow, Did;
    var t := db.(sequences := db.sequences[q := s]);
    assert Execute(db, e) == Some(t);
    hide Execute, Writes;
    GoesOne(c, db, r, n, e, t);
  }

  lemma SequenceGone(c: Pair, db: Db, r: nat, n: nat, q: QName)
    requires n < |c.order| && c.order[n] == SequenceKey(q) && Others(c, db, r, n) && q !in c.tgt.sequences
    requires !OtherKind(db, q) && !Internal(db, q)
    ensures Goes(c, db, r, n, [DropSequenceIfExists(q)])
  {
    hide Goes, St, SchemaNow, TableNow, IndexNow, ConstraintNow, ViewNow, MatviewNow, FunctionNow, SequenceNow, Did;
    GoesOne(c, db, r, n, DropSequenceIfExists(q), db.(sequences := db.sequences - {q}));
  }

  lemma SequenceWrites(c: Pair, db: Db, p: Phase, n: nat, q: QName)
    requires Listed(c) && n < |c.order| && c.order[n] == SequenceKey(q) && q in c.tgt.sequences
    requires St(c, db, p.Rank(), n) && Disjoint(c.tgt)
    requires q.schema in c.tgt.schemas && (q in c.src.sequences || !Named(c.src, q))
    requires OwnerOk(c.tgt, c.tgt.sequences[q]) && SetFits(c, q)
    requires EmitSequence(c, p, q) != []
    ensures SequenceNow(c, p.Rank(), n + 1, q).Some? && |EmitSequence(c, p, q)| == 1
    ensures Writes(db, q, EmitSequence(c, p, q)[0], SequenceNow(c, p.Rank(), n + 1, q).value)
  {
    hide St, EmitSequence, SequenceNow, Did, Listed, Named, Disjoint, HasCols, HasColumns, NameTaken, Addressed,
      Retypes;
    var r := p.Rank();
    SequenceEmits(c, p, n, q);
    SequenceThere(c, db, r, n, q);
    if SequenceNow(c, r, n, q) == None {
      MayCreate(c, db, r, n, q);
    } else if EmitSequence(c, p, q)[0].OwnSequence? {
      var o := c.tgt.sequences[q].ownedBy.value;
      ColumnsExist(c, db, r, n, o.table, {o.column});
    }
  }

  lemma SequenceThere(c: Pair, db: Db, r: nat, n: nat, q: QName)
    requires n <= |c.order| && St(c, db, r, n) && q in c.tgt.sequences
    ensures Lookup(db.sequences, q) == SequenceNow(c, r, n, q)
  {}

  lemma MayCreate(c: Pair, db: Db, r: nat, n: nat, q: QName)
    requires Listed(c) && n <= |c.order| && St(c, db, r, n) && Disjoint(c.tgt)
    requires q in c.tgt.sequences && q !in db.sequences
    ensures q.schema in c.tgt.schemas && r > 0 ==> q.schema in db.schemas
    ensures !Named(c.src, q) ==> !NameTaken(db, q)
  {
    if q.schema in c.tgt.schemas && r > 0 {
      SchemaExists(c, db, r, n, q.schema);
    }
    if !Named(c.src, q) {
      NewName(c, db, r, n, q);
    }
    hide St, Disjoint, Named, NameTaken, Listed;
  }

  /** A new sequence takes a free name. */
  lemma NewName(c: Pair, db: Db, r: nat, n: nat, q: QName)
    requires n <= |c.order| && St(c, db, r, n) && Disjoint(c.tgt) && !Named(c.src, q)
    requires q in c.tgt.sequences && q !in db.sequences
    ensures !NameTaken(db, q)
  {
    StillFree(c, db, r, n, q);
    OnlyOneKind(c.tgt, q);
    hide St, Disjoint, Named;
  }

  lemma SequenceStep(c: Pair, db: Db, p: Phase, n: nat, q: QName)
    requires Listed(c) && n < |c.order| && c.order[n] == SequenceKey(q)
    requires St(c, db, p.Rank(), n) && Disjoint(c.tgt) && q in c.tgt.sequences
    requires q.schema in c.tgt.schemas && (q in c.src.sequences || !Named(c.src, q))
    requires OwnerOk(c.tgt, c.tgt.sequences[q]) && SetFits(c, q)
    ensures Goes(c, db, p.Rank(), n, EmitSequence(c, p, q))
  {
    var r := p.Rank();
    SequenceEmits(c, p, n, q);
    OthersStand(c, db, r, n);
    hide Goes, St, EmitSequence, SchemaNow, SequenceNow, Did, Listed, Others, Named, Disjoint, HasCols, HasColumns,
      Writes;
    if EmitSequence(c, p, q) == [] {
      GoesNowhere(c, db, r, n);
    } else {
      SequenceWrites(c, db, p, n, q);
      SequenceMade(c, db, r, n, q, EmitSequence(c, p, q)[0], SequenceNow(c, r, n + 1, q).value);
    }
  }

  ghost predicate OnlySequence(s: Schema, q: QName) {
    q !in s.tables && q !in s.indexes && q !in s.views && q !in s.matviews
  }

  lemma NoOtherKind(c: Pair, db: Db, r: nat, n: nat, q: QName)
    requires n <= |c.order| && St(c, db, r, n) && OnlySequence(c.src, q) && OnlySequence(c.tgt, q)
    ensures !OtherKind(db, q)
  {
    assert Lookup(db.tables, q) == TableNow(c, r, n, q);
    assert Lookup(db.indexes, q) == IndexNow(c, r, n, q);
    assert Lookup(db.views, q) == ViewNow(c, r, n, q);
    assert Lookup(db.matviews, q) == MatviewNow(c, r, n, q);
  }
}
