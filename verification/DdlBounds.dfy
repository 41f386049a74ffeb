/** What the script demands of the bounds of sequences. */
module DdlBounds {
  import opened Types
  import opened Catalog
  import opened SchemaMerge
  import opened Ddl
  import opened DdlProof
  import opened DdlRun
  import opened DdlTables
  import opened DdlTheorem
  import opened DdlLimits
  import opened DdlSequences

  // ---------- the values that setval is given ----------

  /** The statement neither makes nor retypes sequences. */
  ghost predicate Late(e: Stmt) {
    !e.AlterTable? && !e.CreateTable? && !e.CreateSequence?
  }

  lemma LateStep(db: Db, e: Stmt, q: QName)
    requires Execute(db, e).Some? && Late(e) && q in Execute(db, e).value.sequences
    ensures q in db.sequences && Execute(db, e).value.sequences[q].params == db.sequences[q].params
    ensures e.SetVal? && e.sequence == q ==> InBounds(db.sequences[q].params, SetTo(e.lastValue, e.start))
  {
    hide Addressed, NameTaken, OtherKind, Internal, CanIndex, HasColumns, TableInUse, SchemaInUse, Follow;
  }

  /** A value that was set is within the bounds at the end. */
  lemma {:induction false} SetWasFit(db: Db, es: seq<Stmt>, q: QName, v: Option<int>, start: int)
    requires ExecuteAll(db, es).Some? && SetVal(q, v, start) in es && forall e :: e in es ==> Late(e)
    requires q in ExecuteAll(db, es).value.sequences
    ensures InBounds(ExecuteAll(db, es).value.sequences[q].params, SetTo(v, start))
  {
    hide Execute, InBounds, SetTo, Late;
    var front, e := es[..|es| - 1], es[|es| - 1];
    assert e in es;
    LateStep(ExecuteAll(db, front).value, e, q);
    if SetVal(q, v, start) in front {
      SetWasFit(db, front, q, v, start);
    }
  }

  lemma LateInScript(c: Pair, e: Stmt)
    requires e in Script(c, 4, |PHASES|)
    ensures Late(e)
  {
    hide Script;
    var r := ScriptShape(c, 4, |PHASES|, e);
  }

  lemma TargetParams(c: Pair, q: QName)
    requires q in c.tgt.sequences && q in c.src.sequences
    ensures q in Target(c).sequences && Target(c).sequences[q].params == Followed(c, q).params
  {
    hide Followed;
  }

  lemma SetValsMustFit(c: Pair)
    requires Listed(c) && ExecuteAll(Load(c.src), Everything(c)) == Some(Target(c))
    ensures SetValsFit(c)
  {
    hide Listed, ExecuteAll, Load, Target, Script, Everything, IsSet, Followed, InBounds, SetTo, Late;
    forall q | IsSet(c, q) && q in c.src.sequences
      ensures q in c.tgt.sequences
      ensures InBounds(Followed(c, q).params, SetTo(c.tgt.sequences[q].lastValue, c.tgt.sequences[q].params.start))
    {
      SetIsThere(c, q);
      SetInScript(c, q);
      TargetParams(c, q);
      var u := RunSplit(c, 4);
      forall e | e in Script(c, 4, |PHASES|) ensures Late(e) { LateInScript(c, e); }
      SetWasFit(u, Script(c, 4, |PHASES|), q, c.tgt.sequences[q].lastValue, c.tgt.sequences[q].params.start);
    }
  }

  lemma SetIsThere(c: Pair, q: QName)
    requires IsSet(c, q)
    ensures q in c.tgt.sequences
  {}

  // ---------- the types that identity columns are given ----------

  /** The sequence of the identity column o is as it was. */
  ghost predicate Kept(db: Db, k: QName, s: Sequence, o: ColumnRef) {
    Rooted(db, k, o) && db.sequences[k] == s
  }

  /** The statement belongs to the first four loops and leaves the sequence alone. */
  ghost predicate Early(e: Stmt, k: QName, o: ColumnRef) {
    && (e.CreateSchema? || e.CreateSequence? || e.CreateTable? || e.AlterTable?) && !KillsSequence(e, o) && !Owns(e, k)
    && !(e.AlterTable? && e.table == o.table && e.alteration.SetType? && e.alteration.name == o.column)
  }

  lemma KeptStep(db: Db, e: Stmt, k: QName, s: Sequence, o: ColumnRef)
    requires Execute(db, e).Some? && Kept(db, k, s, o) && Early(e, k, o)
    ensures Kept(Execute(db, e).value, k, s, o)
  {
    RootedStep(db, e, k, o);
    hide Rooted, Internal, Addressed, NameTaken, SequenceOk, ExecuteAlteration, CanRetype;
    if e.CreateTable? {
      SpawnsKeep(db.(tables := db.tables[e.table := Created(e.definition)]), e.table, e.definition.columns, k);
      hide WithIdentities, Created;
    }
  }

  lemma {:induction false} KeptRun(db: Db, es: seq<Stmt>, k: QName, s: Sequence, o: ColumnRef)
    requires ExecuteAll(db, es).Some? && Kept(db, k, s, o) && forall e :: e in es ==> Early(e, k, o)
    ensures Kept(ExecuteAll(db, es).value, k, s, o)
  {
    hide Execute, Kept, Early;
    if es != [] {
      assert es[|es| - 1] in es;
      KeptRun(db, es[..|es| - 1], k, s, o);
      KeptStep(ExecuteAll(db, es[..|es| - 1]).value, es[|es| - 1], k, s, o);
    }
  }

  lemma TypeStep(db: Db, k: QName, s: Sequence, o: ColumnRef, typ: string)
    requires Kept(db, k, s, o) && Execute(db, AlterTable(o.table, SetType(o.column, typ))).Some?
    ensures SequenceOk(RetypedBy(s, o, typ))
  {
    hide SequenceOk, RetypedBy;
  }

  lemma {:induction false} TypeRun(db: Db, es: seq<Stmt>, k: QName, s: Sequence, o: ColumnRef, typ: string)
    requires ExecuteAll(db, es).Some? && Kept(db, k, s, o)
    requires var x := AlterTable(o.table, SetType(o.column, typ));
      x in es && forall e :: e in es ==> e == x || Early(e, k, o)
    ensures SequenceOk(RetypedBy(s, o, typ))
  {
    hide Execute, Kept, Early, SequenceOk, RetypedBy;
    var front := es[..|es| - 1];
    if AlterTable(o.table, SetType(o.column, typ)) in front {
      TypeRun(db, front, k, s, o, typ);
    } else {
      KeptRun(db, front, k, s, o);
      TypeStep(ExecuteAll(db, front).value, k, s, o, typ);
    }
  }

  lemma {:induction false} TypeIsSet(actions: seq<Alteration>, n: string, typ: string)
    requires OneType(actions)
    ensures TypeSet(actions, n) == Some(typ) <==> SetType(n, typ) in actions
  {
    if actions != [] {
      var front, a := actions[..|actions| - 1], actions[|actions| - 1];
      OneTypeFront(actions);
      TypeIsSet(front, n, typ);
      if a.SetType? && a.name == n {
        TypeIsSet(front, n, a.typ);
        assert SetType(n, typ) in front ==> TypeSet(front, n) == Some(typ);
      }
    }
  }

  lemma OneTypeFront(actions: seq<Alteration>)
    requires OneType(actions) && actions != []
    ensures OneType(actions[..|actions| - 1])
    ensures var a := actions[|actions| - 1]; a.SetType? ==> TypeSet(actions[..|actions| - 1], a.name) == None
  {
    var front := actions[..|actions| - 1];
    hide TypeSet;
    forall i | 0 <= i < |front| ensures front[..i] == actions[..i] && front[i] == actions[i] {}
    assert actions[..|front|] == front;
  }

  lemma RetypesParts(c: Pair, k: QName)
    requires Retypes(c, k)
    ensures var o := c.src.sequences[k].ownedBy.value;
      && c.src.sequences[k].ownedBy == Some(o) && o.table in c.src.tables && o.table in c.tgt.tables
      && HasCols(c.tgt, o.table, {o.column}) && HasCols(c.src, o.table, {o.column})
      && ByName(c.src.tables[o.table].columns)[o.column].identity.Some?
      && TypeChange(c.src.tables[o.table], c.tgt.tables[o.table], o.column).Some?
      && Followed(c, k) == RetypedBy(c.src.sequences[k], o,
           TypeChange(c.src.tables[o.table], c.tgt.tables[o.table], o.column).value)
  {}

  lemma TypeInScript(c: Pair, q: QName, n: string, typ: string)
    requires Listed(c) && q in c.src.tables && q in c.tgt.tables && DistinctNames(c.tgt.tables[q].columns)
    requires TypeChange(c.src.tables[q], c.tgt.tables[q], n) == Some(typ)
    ensures AlterTable(q, SetType(n, typ)) in Script(c, 0, 4)
  {
    hide Script, Alterations, OnTable, TypeSet, OneType;
    TypesOfAlterations(c.src.tables[q], c.tgt.tables[q]);
    TypeIsSet(Alterations(c.src.tables[q], c.tgt.tables[q]), n, typ);
    InOnTable(q, Alterations(c.src.tables[q], c.tgt.tables[q]), SetType(n, typ));
    assert KeyOfSchema(c.src, TableKey(q));
    ScriptHas(c, 0, 4, AlterTables, TableKey(q), AlterTable(q, SetType(n, typ)));
  }

  lemma EarlyInScript(c: Pair, k: QName, o: ColumnRef, typ: string, e: Stmt)
    requires e in Script(c, 0, 4) && k in c.src.sequences && HasCols(c.tgt, o.table, {o.column})
    requires o.table in c.src.tables && DistinctNames(c.tgt.tables[o.table].columns)
    requires TypeChange(c.src.tables[o.table], c.tgt.tables[o.table], o.column) == Some(typ)
    ensures e == AlterTable(o.table, SetType(o.column, typ)) || Early(e, k, o)
  {
    hide Script, Everything, Alterations, TypeSet, OneType, HasCols, TypeChange, DistinctNames;
    InEverything(c, e);
    NeverKilled(c, o, e);
    var r := ScriptShape(c, 0, 4, e);
    if e.AlterTable? && e.table == o.table && e.alteration.SetType? && e.alteration.name == o.column {
      TypesOfAlterations(c.src.tables[o.table], c.tgt.tables[o.table]);
      TypeIsSet(Alterations(c.src.tables[o.table], c.tgt.tables[o.table]), o.column, e.alteration.typ);
    }
  }

  lemma RetypeMustFit(c: Pair, k: QName, o: ColumnRef, typ: string)
    requires Listed(c) && ExecuteAll(Load(c.src), Script(c, 0, 4)).Some? && k in c.src.sequences
    requires HasCols(c.tgt, o.table, {o.column}) && DistinctNames(c.tgt.tables[o.table].columns)
    requires o.table in c.src.tables && TypeChange(c.src.tables[o.table], c.tgt.tables[o.table], o.column) == Some(typ)
    requires Rooted(Load(c.src), k, o)
    ensures SequenceOk(RetypedBy(c.src.sequences[k], o, typ))
  {
    LoadedSequence(c, k);
    assert Kept(Load(c.src), k, c.src.sequences[k], o);
    hide Listed, ExecuteAll, Load, Script, SequenceOk, RetypedBy, TypeChange, Early, Kept, Rooted, DistinctNames,
      HasCols;
    TypeInScript(c, o.table, o.column, typ);
    forall e | e in Script(c, 0, 4) ensures e == AlterTable(o.table, SetType(o.column, typ)) || Early(e, k, o) {
      EarlyInScript(c, k, o, typ, e);
    }
    TypeRun(Load(c.src), Script(c, 0, 4), k, c.src.sequences[k], o, typ);
  }

  lemma RetypesMustFit(c: Pair)
    requires Listed(c) && Closed(c.tgt) && ExecuteAll(Load(c.src), Everything(c)).Some?
    ensures RetypesFit(c)
  {
    var u := RunSplit(c, 4);
    forall k | Retypes(c, k) ensures SequenceOk(Followed(c, k)) {
      RetypesParts(c, k);
      var o := c.src.sequences[k].ownedBy.value;
      TablesDistinct(c.tgt, o.table);
      LoadedRoot(c, k, o);
      hide Listed, Closed, ExecuteAll, Load, Script, Everything, Retypes, Followed, SequenceOk, RetypedBy, TypeChange,
        Rooted, DistinctNames;
      RetypeMustFit(c, k, o, TypeChange(c.src.tables[o.table], c.tgt.tables[o.table], o.column).value);
    }
  }

  lemma LoadedSequence(c: Pair, k: QName)
    requires k in c.src.sequences
    ensures k in Load(c.src).sequences && Load(c.src).sequences[k] == c.src.sequences[k]
  {}
}
