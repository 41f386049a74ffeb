/** The generated script runs to the end and reaches its target. */
module DdlTheorem {
  import opened Types
  import opened Catalog
  import opened SchemaMerge
  import opened Ddl
  import opened DdlProof
  import opened DdlRun
  import opened DdlTables
  import Setval

  // ---------- one key ----------

  lemma RelationsFit(c: Pair, q: QName)
    requires Closed(c.src) && Closed(c.tgt) && TablesAlterable(c) && KindsStay(c) && NoNewIdentity(c) && SetValsRead(c)
    requires SetValsFit(c)
    ensures TableFits(c, q) && Disjoint(c.tgt)
    ensures q in c.tgt.indexes ==> IndexOk(c.tgt, q) && (q in c.src.indexes || !Named(c.src, q))
    ensures q in c.tgt.views ==> q.schema in c.tgt.schemas && (q in c.src.views || !Named(c.src, q))
    ensures q in c.tgt.matviews ==> q.schema in c.tgt.schemas && (q in c.src.matviews || !Named(c.src, q))
    ensures q in c.tgt.sequences ==> q.schema in c.tgt.schemas && (q in c.src.sequences || !Named(c.src, q))
    ensures q in c.tgt.sequences ==> OwnerOk(c.tgt, c.tgt.sequences[q]) && SetFits(c, q)
  {
    hide TableOk, IndexOk, OwnerOk, Disjoint, Named, Alterable, NewPlain, Setval.Read, Setval.Call, Setval.Plain,
      Followed;
    Setval.ReadsBackIff(q.schema, q.name);
  }

  lemma GoneSequenceFits(c: Pair, q: QName)
    requires Disjoint(c.src) && KindsStay(c) && q in c.src.sequences
    ensures OnlySequence(c.src, q) && OnlySequence(c.tgt, q)
  {
    OnlyOneKind(c.src, q);
    hide Disjoint;
  }

  lemma OthersFit(c: Pair)
    requires Closed(c.tgt)
    ensures forall f :: f in c.tgt.functions ==> f.schema in c.tgt.schemas
    ensures forall k :: k in c.tgt.constraints ==> ConstraintOk(c.tgt, k)
  {
    hide TableOk, IndexOk, OwnerOk, Disjoint, ConstraintOk;
  }

  lemma OkParts(c: Pair)
    requires Ok(c) && Executable(c)
    ensures Listed(c) && Closed(c.src) && Closed(c.tgt)
    ensures TablesAlterable(c) && IndexesStay(c) && IndexHostsStand(c) && ConstraintsStay(c) && OwnersStay(c)
    ensures KindsStay(c) && NoNewIdentity(c) && IdentitiesStay(c) && RetypesFit(c) && SetValsRead(c) && SetValsFit(c)
  {}

  /** Whatever phase p writes for the key in hand runs and leads to the next point. */
  lemma KeyStep(c: Pair, db: Db, p: Phase, n: nat)
    requires Ok(c) && Executable(c) && n < |c.order| && St(c, db, p.Rank(), n)
    ensures Goes(c, db, p.Rank(), n, Emit(c, p, c.order[n]))
  {
    hide Ok, Executable, Listed, Closed, TablesAlterable, IndexesStay, IndexHostsStand, ConstraintsStay, OwnersStay,
      KindsStay, NoNewIdentity, IdentitiesStay, RetypesFit, SetValsRead, SetValsFit, SetFits, Goes, St,
      TableFits, Disjoint, OnlySequence, IndexOk, ConstraintOk, OwnerOk, Named,
      EmitSchema, EmitTable, EmitIndex, EmitConstraint,
      EmitView, EmitMatview, EmitFunction, EmitSequence, Others;
    OkParts(c);
    OthersFit(c);
    ClosedParts(c.src);
    match c.order[n] {
      case SchemaKey(s) => SchemaStep(c, db, p, n, s);
      case TableKey(q) => RelationsFit(c, q); TableStep(c, db, p, n, q);
      case IndexKey(q) => RelationsFit(c, q); IndexStep(c, db, p, n, q);
      case ConstraintKey(k) => ConstraintStep(c, db, p, n, k);
      case ViewKey(q) => RelationsFit(c, q); ViewStep(c, db, p, n, q);
      case MatviewKey(q) => RelationsFit(c, q); MatviewStep(c, db, p, n, q);
      case FunctionKey(f) => FunctionStep(c, db, p, n, f);
      case SequenceKey(q) =>
        RelationsFit(c, q);
        if q in c.tgt.sequences {
          SequenceStep(c, db, p, n, q);
        } else {
          if q in c.src.sequences {
            GoneSequenceFits(c, q);
          }
          GoneSequenceStep(c, db, p, n, q);
        }
      case _ =>
        OthersStand(c, db, p.Rank(), n);
        assert OwnOk(c, db, p.Rank(), n);
        GoesNowhere(c, db, p.Rank(), n);
    }
  }

  // ---------- one loop ----------

  lemma {:induction false} ExecuteConcat(db: Db, a: seq<Stmt>, b: seq<Stmt>)
    ensures ExecuteAll(db, a + b) == match ExecuteAll(db, a)
      case None => None
      case Some(u) => ExecuteAll(u, b)
  {
    hide Execute;
    if b == [] {
      assert a + b == a;
    } else {
      ExecuteConcat(db, a, b[..|b| - 1]);
      assert (a + b)[..|a + b| - 1] == a + b[..|b| - 1];
    }
  }

  ghost predicate At(c: Pair, u: Option<Db>, r: nat, n: nat) requires n <= |c.order| {
    u.Some? && St(c, u.value, r, n)
  }

  lemma {:induction false} RunLoop(c: Pair, db: Db, p: Phase, n: nat)
    requires Ok(c) && Executable(c) && n <= |c.order| && St(c, db, p.Rank(), 0)
    ensures At(c, ExecuteAll(db, Loop(c, p, n)), p.Rank(), n)
  {
    hide Ok, Executable, St, Emit, Execute;
    if n > 0 {
      RunLoop(c, db, p, n - 1);
      var u := ExecuteAll(db, Loop(c, p, n - 1)).value;
      KeyStep(c, u, p, n - 1);
      ExecuteConcat(db, Loop(c, p, n - 1), Emit(c, p, c.order[n - 1]));
    }
  }

  lemma DidAll(c: Pair, r: nat, p: Phase, k: ObjectKey)
    ensures Did(c, r, |c.order|, p, k) == Did(c, r + 1, 0, p, k)
  {
    assert c.order[..|c.order|] == c.order;
  }

  /** The end of one loop is the start of the next. */
  lemma NextLoop(c: Pair, db: Db, r: nat)
    requires St(c, db, r, |c.order|)
    ensures St(c, db, r + 1, 0)
  {
    var n := |c.order|;
    forall p, k ensures Did(c, r, n, p, k) == Did(c, r + 1, 0, p, k) { DidAll(c, r, p, k); }
    hide Did, Now, Target;
  }

  lemma PhaseRank(i: nat)
    requires i < |PHASES|
    ensures PHASES[i].Rank() == i
  {}

  lemma {:induction false} RunScript(c: Pair, db: Db, from: nat, to: nat)
    requires Ok(c) && Executable(c) && from <= to <= |PHASES| && St(c, db, from, 0)
    ensures At(c, ExecuteAll(db, Script(c, from, to)), to, 0)
  {
    hide Ok, Executable, St, Loop, Execute, PHASES;
    if from < to {
      RunScript(c, db, from, to - 1);
      PhaseRank(to - 1);
      var u := ExecuteAll(db, Script(c, from, to - 1)).value;
      RunLoop(c, u, PHASES[to - 1], |c.order|);
      ExecuteConcat(db, Script(c, from, to - 1), Loop(c, PHASES[to - 1], |c.order|));
      NextLoop(c, ExecuteAll(db, Script(c, from, to)).value, to - 1);
    }
  }

  // ---------- the whole script ----------

  lemma Start(c: Pair)
    ensures St(c, Load(c.src), 0, 0)
  {
    hide Target, LoadTable;
  }

  lemma AllDone(c: Pair, p: Phase, k: ObjectKey)
    requires Listed(c) && (KeyOfSchema(c.src, k) || KeyOfSchema(c.tgt, k))
    ensures Did(c, |PHASES|, 0, p, k)
  {
    Past(c, |PHASES|, 0, p, k);
  }

  lemma DoneTables(c: Pair, db: Db, q: QName)
    requires Listed(c) && St(c, db, |PHASES|, 0)
    ensures Lookup(db.tables, q) == Lookup(Target(c).tables, q)
  {
    assert Lookup(db.tables, q) == TableNow(c, |PHASES|, 0, q);
    hide St;
    if KeyOfSchema(c.src, TableKey(q)) || KeyOfSchema(c.tgt, TableKey(q)) {
      AllDone(c, NewTables, TableKey(q));
      AllDone(c, AlterTables, TableKey(q));
      AllDone(c, DropTables, TableKey(q));
    }
    hide Did, Listed, TargetTable, LoadTable;
  }

  lemma DoneIndexes(c: Pair, db: Db, q: QName)
    requires Listed(c) && St(c, db, |PHASES|, 0)
    ensures Lookup(db.indexes, q) == Lookup(Target(c).indexes, q)
  {
    assert Lookup(db.indexes, q) == IndexNow(c, |PHASES|, 0, q);
    hide St;
    if KeyOfSchema(c.src, IndexKey(q)) || KeyOfSchema(c.tgt, IndexKey(q)) {
      AllDone(c, NewIndexes, IndexKey(q));
      AllDone(c, DropIndexes, IndexKey(q));
    }
    hide Did, Listed;
  }

  lemma DoneConstraints(c: Pair, db: Db, k: ConName)
    requires Listed(c) && St(c, db, |PHASES|, 0)
    ensures Lookup(db.constraints, k) == Lookup(c.tgt.constraints, k)
  {
    assert Lookup(db.constraints, k) == ConstraintNow(c, |PHASES|, 0, k);
    hide St;
    if KeyOfSchema(c.src, ConstraintKey(k)) || KeyOfSchema(c.tgt, ConstraintKey(k)) {
      AllDone(c, NewConstraints, ConstraintKey(k));
      AllDone(c, ChangedConstraints, ConstraintKey(k));
      AllDone(c, DropConstraints, ConstraintKey(k));
    }
    hide Did, Listed;
  }

  lemma DoneViews(c: Pair, db: Db, q: QName)
    requires Listed(c) && St(c, db, |PHASES|, 0)
    ensures Lookup(db.views, q) == Lookup(c.tgt.views, q)
  {
    assert Lookup(db.views, q) == ViewNow(c, |PHASES|, 0, q);
    hide St;
    if KeyOfSchema(c.src, ViewKey(q)) || KeyOfSchema(c.tgt, ViewKey(q)) {
      AllDone(c, NewViews, ViewKey(q));
      AllDone(c, ChangedViews, ViewKey(q));
      AllDone(c, DropViews, ViewKey(q));
    }
    hide Did, Listed;
  }

  lemma DoneMatviews(c: Pair, db: Db, q: QName)
    requires Listed(c) && St(c, db, |PHASES|, 0)
    ensures Lookup(db.matviews, q) == Lookup(Target(c).matviews, q)
  {
    assert Lookup(db.matviews, q) == MatviewNow(c, |PHASES|, 0, q);
    hide St;
    if KeyOfSchema(c.src, MatviewKey(q)) || KeyOfSchema(c.tgt, MatviewKey(q)) {
      AllDone(c, NewMatviews, MatviewKey(q));
      AllDone(c, DropMatviews, MatviewKey(q));
    }
    hide Did, Listed;
  }

  lemma DoneFunctions(c: Pair, db: Db, f: FnName)
    requires Listed(c) && St(c, db, |PHASES|, 0)
    ensures Lookup(db.functions, f) == Lookup(c.tgt.functions, f)
  {
    assert Lookup(db.functions, f) == FunctionNow(c, |PHASES|, 0, f);
    hide St;
    if KeyOfSchema(c.src, FunctionKey(f)) || KeyOfSchema(c.tgt, FunctionKey(f)) {
      AllDone(c, NewFunctions, FunctionKey(f));
      AllDone(c, ChangedFunctions, FunctionKey(f));
      AllDone(c, DropFunctions, FunctionKey(f));
    }
    hide Did, Listed;
  }

  lemma DoneSequences(c: Pair, db: Db, q: QName)
    requires Listed(c) && St(c, db, |PHASES|, 0)
    ensures Lookup(db.sequences, q) == Lookup(Target(c).sequences, q)
  {
    if q in c.tgt.sequences {
      SequenceThere(c, db, |PHASES|, 0, q);
      hide St;
      AllDone(c, NewSequences, SequenceKey(q));
      AllDone(c, OwnSequences, SequenceKey(q));
      AllDone(c, SetVals, SequenceKey(q));
      FollowPast(c, |PHASES|, 0, q);
      hide Did, DidFollow, Retypes, Listed;
    } else if q in db.sequences {
      LateSequence(c, db, |PHASES|, 0, q);
    }
  }

  lemma DoneSchemas(c: Pair, db: Db, s: string)
    requires Listed(c) && St(c, db, |PHASES|, 0)
    ensures s in db.schemas <==> s in c.tgt.schemas
  {
    SchemaThere(c, db, |PHASES|, 0, s);
    hide St;
    if KeyOfSchema(c.src, SchemaKey(s)) || KeyOfSchema(c.tgt, SchemaKey(s)) {
      AllDone(c, NewSchemas, SchemaKey(s));
      AllDone(c, DropSchemas, SchemaKey(s));
    }
    hide Did, Listed;
  }

  lemma Done(c: Pair, db: Db)
    requires Listed(c) && St(c, db, |PHASES|, 0)
    ensures db == Target(c)
  {
    hide St, Listed, Target, PHASES;
    var t := Target(c);
    forall s ensures s in db.schemas <==> s in c.tgt.schemas { DoneSchemas(c, db, s); }
    forall q ensures Lookup(db.tables, q) == Lookup(t.tables, q) { DoneTables(c, db, q); }
    forall q ensures Lookup(db.indexes, q) == Lookup(t.indexes, q) { DoneIndexes(c, db, q); }
    forall k ensures Lookup(db.constraints, k) == Lookup(c.tgt.constraints, k) { DoneConstraints(c, db, k); }
    forall q ensures Lookup(db.views, q) == Lookup(c.tgt.views, q) { DoneViews(c, db, q); }
    forall q ensures Lookup(db.matviews, q) == Lookup(t.matviews, q) { DoneMatviews(c, db, q); }
    forall f ensures Lookup(db.functions, f) == Lookup(c.tgt.functions, f) { DoneFunctions(c, db, f); }
    forall q ensures Lookup(db.sequences, q) == Lookup(t.sequences, q) { DoneSequences(c, db, q); }
    SameMap(db.tables, t.tables);
    SameMap(db.indexes, t.indexes);
    SameMap(db.constraints, c.tgt.constraints);
    SameMap(db.views, c.tgt.views);
    SameMap(db.matviews, t.matviews);
    SameMap(db.functions, c.tgt.functions);
    SameMap(db.sequences, t.sequences);
    TargetPlain(c);
  }

  lemma TargetPlain(c: Pair)
    ensures Target(c).schemas == c.tgt.schemas && Target(c).constraints == c.tgt.constraints
    ensures Target(c).views == c.tgt.views && Target(c).functions == c.tgt.functions
  {}

  /** Every statement of the script runs, in order, and together they turn the source
      catalog into the target. */
  lemma ScriptConverges(c: Pair)
    requires Ok(c) && Executable(c)
    ensures ExecuteAll(Load(c.src), Script(c, 0, PRE) + Script(c, PRE, |PHASES|)) == Some(Target(c))
  {
    assert |PHASES| == 22;
    hide Ok, Executable, St, Script, ExecuteAll, Load, Target, PHASES;
    Start(c);
    RunScript(c, Load(c.src), 0, PRE);
    var u := ExecuteAll(Load(c.src), Script(c, 0, PRE)).value;
    RunScript(c, u, PRE, |PHASES|);
    OkParts(c);
    Done(c, ExecuteAll(u, Script(c, PRE, |PHASES|)).value);
    ExecuteConcat(Load(c.src), Script(c, 0, PRE), Script(c, PRE, |PHASES|));
  }

  // ---------- how far the target is from tgt ----------

  ghost predicate SameIdentities(s: Table, t: Table) {
    forall n :: n in ByName(s.columns) && n in ByName(t.columns) ==>
      ByName(s.columns)[n].identity == ByName(t.columns)[n].identity
  }

  /** What the generator never alters is the same on both sides. */
  ghost predicate FrozenSame(c: Pair) {
    && (forall q :: q in c.src.tables && q in c.tgt.tables ==> SameIdentities(c.src.tables[q], c.tgt.tables[q]))
    && (forall i :: i in c.src.indexes && i in c.tgt.indexes ==> c.src.indexes[i] == c.tgt.indexes[i])
    && (forall q :: q in c.src.matviews && q in c.tgt.matviews ==> c.src.matviews[q] == c.tgt.matviews[q])
    && (forall q :: q in c.src.sequences && q in c.tgt.sequences ==>
         var (s, t) := (Followed(c, q), c.tgt.sequences[q]); s.params == t.params && s.ownedBy == t.ownedBy)
  }

  lemma TableTargetIff(s: Table, t: Table)
    ensures TargetTable(s, t) == LoadTable(t) <==> SameIdentities(s, t)
  {
    NamesMatch(t.columns);
    var (x, y) := (TargetTable(s, t).cols, LoadTable(t).cols);
    assert x.Keys == y.Keys;
    if SameIdentities(s, t) {
      forall n | n in y ensures x[n] == y[n] {}
    }
    if x == y {
      forall n | n in ByName(s.columns) && n in ByName(t.columns)
        ensures ByName(s.columns)[n].identity == ByName(t.columns)[n].identity {
        assert x[n] == y[n];
      }
    }
  }

  lemma KeepOldIff<K, V>(s: map<K, V>, t: map<K, V>)
    ensures KeepOld(s, t) == t <==> forall k :: k in s && k in t ==> s[k] == t[k]
  {
    if KeepOld(s, t) == t {
      forall k | k in s && k in t ensures s[k] == t[k] { assert KeepOld(s, t)[k] == t[k]; }
    }
  }

  lemma TablesIff(c: Pair)
    ensures Target(c).tables == Load(c.tgt).tables <==>
      forall q :: q in c.src.tables && q in c.tgt.tables ==> SameIdentities(c.src.tables[q], c.tgt.tables[q])
  {
    var (x, y) := (Target(c).tables, Load(c.tgt).tables);
    hide TargetTable, LoadTable, SameIdentities;
    assert x.Keys == y.Keys;
    forall q | q in c.src.tables && q in c.tgt.tables
      ensures x[q] == y[q] <==> SameIdentities(c.src.tables[q], c.tgt.tables[q]) {
      TableTargetIff(c.src.tables[q], c.tgt.tables[q]);
    }
  }

  lemma SequencesIff(c: Pair)
    ensures Target(c).sequences == c.tgt.sequences <==> forall q :: q in c.src.sequences && q in c.tgt.sequences ==>
      Followed(c, q).params == c.tgt.sequences[q].params && Followed(c, q).ownedBy == c.tgt.sequences[q].ownedBy
  {
    hide Followed;
    var (x, y) := (Target(c).sequences, c.tgt.sequences);
    assert x.Keys == y.Keys;
    if x == y {
      forall q | q in c.src.sequences && q in c.tgt.sequences ensures
        Followed(c, q).params == c.tgt.sequences[q].params &&
        Followed(c, q).ownedBy == c.tgt.sequences[q].ownedBy {
        assert x[q] == y[q];
      }
    }
  }

  /** The script reaches exactly tgt when, and only when, nothing it never alters differs. */
  lemma TargetIsTgtIff(c: Pair)
    ensures Target(c) == Load(c.tgt) <==> FrozenSame(c)
  {
    TablesIff(c);
    SequencesIff(c);
    KeepOldIff(c.src.indexes, c.tgt.indexes);
    KeepOldIff(c.src.matviews, c.tgt.matviews);
    TargetPlain(c);
    hide LoadTable, TargetTable, SameIdentities, KeepOld;
  }
}
