/** No relation name may change its kind. */
module DdlKinds {
  import opened Types
  import opened Catalog
  import opened SchemaMerge
  import opened Ddl
  import opened DdlProof
  import opened DdlRun
  import opened DdlTables
  import opened DdlTheorem
  import opened DdlLimits

  datatype Kind = ATable | AnIndex | AView | AMatview | ASequence

  ghost predicate Holds(db: Db, x: Kind, q: QName) {
    match x
    case ATable => q in db.tables
    case AnIndex => q in db.indexes
    case AView => q in db.views
    case AMatview => q in db.matviews
    case ASequence => q in db.sequences
  }

  function DropOf(x: Kind, q: QName): Stmt {
    match x
    case ATable => DropTable(q)
    case AnIndex => DropIndex(q)
    case AView => DropView(q)
    case AMatview => DropMatview(q)
    case ASequence => DropSequenceIfExists(q)
  }

  ghost predicate MakesName(e: Stmt) {
    e.CreateTable? || e.CreateIndex? || e.CreateView? || e.CreateMatview? || e.CreateSequence?
  }

  /** The name has at most one kind. */
  ghost predicate Alone(db: Db, q: QName) {
    forall x, y :: Holds(db, x, q) && Holds(db, y, q) ==> x == y
  }

  lemma NamesShrink(db: Db, e: Stmt, x: Kind, q: QName)
    requires Execute(db, e).Some? && !MakesName(e) && !Spawns(e) && Holds(Execute(db, e).value, x, q)
    ensures Holds(db, x, q)
  {
    hide NameTaken, OtherKind, Internal, Addressed, CanIndex, HasColumns, TableInUse, SchemaInUse, WithIdentities;
    if e.AlterTable? {
      NamesOfAlter(db, e.table, e.alteration, x, q);
      hide Execute;
    }
  }

  lemma NamesOfAlter(db: Db, t: QName, a: Alteration, x: Kind, q: QName)
    requires Execute(db, AlterTable(t, a)).Some? && !Spawns(AlterTable(t, a))
    requires Holds(Execute(db, AlterTable(t, a)).value, x, q)
    ensures Holds(db, x, q)
  {
    hide ExecuteAlteration, CanRetype;
  }

  function KindMade(e: Stmt): Kind {
    if e.CreateTable? then ATable else if e.CreateIndex? then AnIndex else if e.CreateView? then AView
    else if e.CreateMatview? then AMatview else ASequence
  }

  lemma NamesGrow(db: Db, e: Stmt, x: Kind, q: QName)
    requires Execute(db, e).Some? && MakesName(e) && !Spawns(e) && Holds(Execute(db, e).value, x, q)
    ensures Holds(db, x, q) || (x == KindMade(e) && !NameTaken(db, q))
  {
    if e.CreateTable? {
      QuietCreate(db, e);
    }
    hide WithIdentities, Spawns;
  }

  lemma Taken(db: Db, x: Kind, q: QName)
    requires Holds(db, x, q)
    ensures NameTaken(db, q)
  {}

  lemma AloneOneStep(db: Db, e: Stmt, q: QName)
    requires Execute(db, e).Some? && Alone(db, q) && !Spawns(e)
    ensures Alone(Execute(db, e).value, q)
  {
    hide Execute, Holds, NameTaken, KindMade, Spawns;
    var t := Execute(db, e).value;
    forall x, y | Holds(t, x, q) && Holds(t, y, q) ensures x == y {
      if MakesName(e) {
        NamesGrow(db, e, x, q);
        NamesGrow(db, e, y, q);
        if Holds(db, x, q) { Taken(db, x, q); }
        if Holds(db, y, q) { Taken(db, y, q); }
      } else {
        NamesShrink(db, e, x, q);
        NamesShrink(db, e, y, q);
      }
    }
  }

  /** A drop finds its object, and IF EXISTS minds other relations of that name. */
  lemma DropFinds(db: Db, x: Kind, y: Kind, q: QName)
    requires Execute(db, DropOf(y, q)).Some? && x != y
    ensures Holds(db, y, q) || !Holds(db, x, q)
  {}

  lemma {:induction false} StayAlone(db: Db, es: seq<Stmt>, q: QName)
    requires ExecuteAll(db, es).Some? && Alone(db, q) && forall e :: e in es ==> !Spawns(e)
    ensures Alone(ExecuteAll(db, es).value, q)
  {
    hide Execute, Alone, Spawns;
    if es != [] {
      StayAlone(db, es[..|es| - 1], q);
      AloneOneStep(ExecuteAll(db, es[..|es| - 1]).value, es[|es| - 1], q);
    }
  }

  /** Where nothing is created and the name of another kind is dropped, it is not of kind x. */
  lemma {:induction false} DroppedElsewhere(db: Db, es: seq<Stmt>, q: QName, x: Kind, y: Kind)
    requires ExecuteAll(db, es).Some? && Alone(db, q) && x != y && DropOf(y, q) in es
    requires forall e :: e in es ==> !MakesName(e) && !Spawns(e)
    ensures !Holds(ExecuteAll(db, es).value, x, q)
  {
    hide Execute, Holds, Spawns;
    var front, e := es[..|es| - 1], es[|es| - 1];
    var u := ExecuteAll(db, front).value;
    StayAlone(db, front, q);
    if Holds(ExecuteAll(db, es).value, x, q) {
      assert e in es;
      NamesShrink(u, e, x, q);
      if DropOf(y, q) in front {
        DroppedElsewhere(db, front, q, x, y);
      } else {
        DropFinds(u, x, y, q);
      }
    }
  }

  ghost predicate HoldsIn(s: Schema, x: Kind, q: QName) {
    match x
    case ATable => q in s.tables
    case AnIndex => q in s.indexes
    case AView => q in s.views
    case AMatview => q in s.matviews
    case ASequence => q in s.sequences
  }

  function KeyOf(x: Kind, q: QName): ObjectKey {
    match x
    case ATable => TableKey(q)
    case AnIndex => IndexKey(q)
    case AView => ViewKey(q)
    case AMatview => MatviewKey(q)
    case ASequence => SequenceKey(q)
  }

  function DropPhase(x: Kind): Phase {
    match x
    case ATable => DropTables
    case AnIndex => DropIndexes
    case AView => DropViews
    case AMatview => DropMatviews
    case ASequence => DropSequences
  }

  lemma DropEmitted(c: Pair, y: Kind, q: QName)
    requires HoldsIn(c.src, y, q) && !HoldsIn(c.tgt, y, q)
    ensures DropOf(y, q) in Emit(c, DropPhase(y), KeyOf(y, q)) && PRE <= DropPhase(y).Rank() < |PHASES|
    ensures KeyOfSchema(c.src, KeyOf(y, q))
  {}

  lemma NameDropped(c: Pair, y: Kind, q: QName)
    requires Listed(c) && HoldsIn(c.src, y, q) && !HoldsIn(c.tgt, y, q)
    ensures DropOf(y, q) in Script(c, PRE, |PHASES|)
  {
    DropEmitted(c, y, q);
    hide Script, DropOf, KeyOf, DropPhase, HoldsIn, Emit, KeyOfSchema;
    ScriptHas(c, PRE, |PHASES|, DropPhase(y), KeyOf(y, q), DropOf(y, q));
  }

  lemma NoLateNames(c: Pair)
    ensures forall e :: e in Script(c, PRE, |PHASES|) ==> !MakesName(e)
  {
    hide Script;
    forall e | e in Script(c, PRE, |PHASES|) ensures !MakesName(e) { var r := ScriptShape(c, PRE, |PHASES|, e); }
  }

  lemma OneKindIn(s: Schema, x: Kind, y: Kind, q: QName)
    requires Disjoint(s) && HoldsIn(s, x, q) && HoldsIn(s, y, q)
    ensures x == y
  {
    OnlyOneKind(s, q);
  }

  lemma LoadedAlone(c: Pair, q: QName)
    requires Disjoint(c.src)
    ensures Alone(Load(c.src), q)
  {
    forall x, y | Holds(Load(c.src), x, q) && Holds(Load(c.src), y, q) ensures x == y {
      OneKindIn(c.src, x, y, q);
    }
  }

  lemma TargetHolds(c: Pair, x: Kind, q: QName)
    ensures Holds(Target(c), x, q) <==> HoldsIn(c.tgt, x, q)
  {}

  lemma AllQuiet(c: Pair)
    requires Closed(c.tgt) && NoNewIdentity(c)
    ensures forall e :: e in Script(c, 0, PRE) || e in Script(c, PRE, |PHASES|) ==> !Spawns(e)
  {
    hide Script, Spawns, Closed, NoNewIdentity;
    forall e | e in Script(c, 0, PRE) || e in Script(c, PRE, |PHASES|) ensures !Spawns(e) { NothingSpawns(c, e); }
  }

  lemma NoNewKind(c: Pair, x: Kind, y: Kind, q: QName)
    requires Disjoint(c.src) && Closed(c.tgt) && Listed(c) && NoNewIdentity(c)
    requires ExecuteAll(Load(c.src), Everything(c)) == Some(Target(c))
    requires HoldsIn(c.tgt, x, q) && HoldsIn(c.src, y, q)
    ensures x == y
  {
    hide ExecuteAll, Script, Load, Target, Everything, Listed, Disjoint, Holds, HoldsIn, Alone, Execute, Spawns, Closed,
      NoNewIdentity;
    ClosedParts(c.tgt);
    if x != y {
      if HoldsIn(c.tgt, y, q) {
        OneKindIn(c.tgt, x, y, q);
      }
      LoadedAlone(c, q);
      NameDropped(c, y, q);
      AllQuiet(c);
      NoLateNames(c);
      var u := RunSplit(c, PRE);
      StayAlone(Load(c.src), Script(c, 0, PRE), q);
      DroppedElsewhere(u, Script(c, PRE, |PHASES|), q, x, y);
      TargetHolds(c, x, q);
    }
  }

  lemma NamedHolds(s: Schema, q: QName)
    ensures Named(s, q) ==> exists y :: HoldsIn(s, y, q)
  {
    assert HoldsIn(s, ATable, q) <==> q in s.tables;
    assert HoldsIn(s, AnIndex, q) <==> q in s.indexes;
    assert HoldsIn(s, AView, q) <==> q in s.views;
    assert HoldsIn(s, AMatview, q) <==> q in s.matviews;
    assert HoldsIn(s, ASequence, q) <==> q in s.sequences;
  }

  lemma NewIsFree(c: Pair, x: Kind, q: QName)
    requires Disjoint(c.src) && Closed(c.tgt) && Listed(c) && NoNewIdentity(c)
    requires ExecuteAll(Load(c.src), Everything(c)) == Some(Target(c))
    requires HoldsIn(c.tgt, x, q) && !HoldsIn(c.src, x, q)
    ensures !Named(c.src, q)
  {
    hide ExecuteAll, Load, Target, Everything, Listed, Disjoint, HoldsIn, Named, Closed, NoNewIdentity;
    NamedHolds(c.src, q);
    if Named(c.src, q) {
      var y :| HoldsIn(c.src, y, q);
      NoNewKind(c, x, y, q);
    }
  }

  lemma KindsMustStay(c: Pair)
    requires Disjoint(c.src) && Closed(c.tgt) && Listed(c) && NoNewIdentity(c)
    requires ExecuteAll(Load(c.src), Everything(c)) == Some(Target(c))
    ensures KindsStay(c)
  {
    hide ExecuteAll, Load, Target, Everything, Listed, Disjoint, Named, Closed, NoNewIdentity;
    forall q | q in c.tgt.tables && q !in c.src.tables ensures !Named(c.src, q) { NewIsFree(c, ATable, q); }
    forall q | q in c.tgt.indexes && q !in c.src.indexes ensures !Named(c.src, q) { NewIsFree(c, AnIndex, q); }
    forall q | q in c.tgt.views && q !in c.src.views ensures !Named(c.src, q) { NewIsFree(c, AView, q); }
    forall q | q in c.tgt.matviews && q !in c.src.matviews ensures !Named(c.src, q) { NewIsFree(c, AMatview, q); }
    forall q | q in c.tgt.sequences && q !in c.src.sequences ensures !Named(c.src, q) { NewIsFree(c, ASequence, q); }
  }
}
