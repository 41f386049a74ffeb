/** The generated DDL runs without error and reaches its target. */
module DdlProof {
  import opened Types
  import opened Catalog
  import opened SchemaMerge
  import opened Ddl
  import Setval

  // ---------- hypotheses ----------

  predicate HasCols(s: Schema, q: QName, cols: set<string>) {
    q in s.tables && cols <= ByName(s.tables[q].columns).Keys
  }

  /** What the catalog guarantees of a column: no empty default, and an identity column has
      no default, is NOT NULL and of an integer type. */
  ghost predicate ColumnOk(c: Column) {
    c.default != Some("") && (c.identity.Some? ==> c.default == None && c.notNull && c.typ in INTEGERS)
  }

  ghost predicate PkOk(t: Table) {
    t.pk.Some? ==>
      t.pk.value != [] && forall n :: n in t.pk.value ==> n in ByName(t.columns) && ByName(t.columns)[n].notNull
  }

  ghost predicate TableOk(t: Table) {
    && DistinctNames(t.columns) && PkOk(t)
    && forall n :: n in ByName(t.columns) ==> ColumnOk(ByName(t.columns)[n])
  }

  ghost predicate Disjoint(s: Schema) {
    && s.tables.Keys !! s.indexes.Keys !! s.views.Keys !! s.matviews.Keys !! s.sequences.Keys
  }

  /** An index is on columns of a table, or on a materialized view. */
  ghost predicate IndexOk(s: Schema, q: QName) requires q in s.indexes {
    var on := TableOfIndex(q, s.indexes[q]);
    q.schema in s.schemas && (HasCols(s, on, s.indexes[q].definition.cols) || on in s.matviews)
  }

  ghost predicate ConstraintOk(s: Schema, k: ConName) requires k in s.constraints {
    var d := s.constraints[k];
    HasCols(s, k.table, d.cols) && (d.refs.Some? ==> d.refs.value in s.tables)
  }

  ghost predicate OwnerOk(s: Schema, q: Sequence) {
    q.ownedBy.Some? ==> HasCols(s, q.ownedBy.value.table, {q.ownedBy.value.column})
  }

  /** Every reference of the dump is to something in the dump. */
  ghost predicate Closed(s: Schema) {
    && (forall q :: q in s.tables ==> q.schema in s.schemas && TableOk(s.tables[q]))
    && (forall q :: q in s.indexes ==> IndexOk(s, q))
    && (forall k :: k in s.constraints ==> ConstraintOk(s, k))
    && (forall q :: q in s.views ==> q.schema in s.schemas)
    && (forall q :: q in s.matviews ==> q.schema in s.schemas)
    && (forall f :: f in s.functions ==> f.schema in s.schemas)
    && (forall q :: q in s.sequences ==>
         q.schema in s.schemas && OwnerOk(s, s.sequences[q]) && SequenceOk(s.sequences[q]))
    && Disjoint(s)
  }

  /** The key columns of the old primary key stay, and stay NOT NULL. */
  ghost predicate PkColumnsStay(s: Table, t: Table) {
    s.pk.Some? ==> forall n :: n in s.pk.value ==> n in ByName(t.columns) && ByName(t.columns)[n].notNull
  }

  /** What identity demands of a column, also where BRANCH took it away. */
  ghost predicate IdentityFits(s: Column, t: Column) {
    s.identity.Some? ==> t.default == None && t.notNull && t.typ in INTEGERS
  }

  ghost predicate Alterable(s: Table, t: Table) {
    && PkColumnsStay(s, t)
    && forall n :: n in ByName(s.columns) && n in ByName(t.columns) ==>
         IdentityFits(ByName(s.columns)[n], ByName(t.columns)[n])
  }

  ghost predicate TablesAlterable(c: Pair) {
    forall q :: q in c.src.tables && q in c.tgt.tables ==> Alterable(c.src.tables[q], c.tgt.tables[q])
  }

  /** No existing index mentions a column that goes, or outlives what it is on under its name. */
  ghost predicate IndexesStay(c: Pair) {
    forall i :: i in c.src.indexes ==>
      var q := TableOfIndex(i, c.src.indexes[i]);
      if q in c.src.tables && q in c.tgt.tables then HasCols(c.tgt, q, c.src.indexes[i].definition.cols)
      else i in c.tgt.indexes ==> q in c.src.matviews && q in c.tgt.matviews
  }

  /** No new index is on a new materialized view: indexes are created first. */
  ghost predicate IndexHostsStand(c: Pair) {
    forall i :: i in c.tgt.indexes && i !in c.src.indexes ==>
      TableOfIndex(i, c.tgt.indexes[i]) in c.tgt.tables || TableOfIndex(i, c.tgt.indexes[i]) in c.src.matviews
  }

  /** No existing constraint mentions a column that goes. */
  ghost predicate ConstraintsStay(c: Pair) {
    forall k :: k in c.src.constraints && k.table in c.tgt.tables ==> HasCols(c.tgt, k.table, c.src.constraints[k].cols)
  }

  /** The owner of a sequence that stays is a column that stays. */
  ghost predicate OwnersStay(c: Pair) {
    forall k :: k in c.src.sequences && k in c.tgt.sequences ==> OwnerOk(c.tgt, c.src.sequences[k])
  }

  /** Columns new to a table have no identity. */
  ghost predicate NewPlain(s: map<string, Column>, t: Table) {
    forall n :: n in ByName(t.columns) && n !in s ==> ByName(t.columns)[n].identity == None
  }

  /** No new column is an identity column: it would bring a sequence of its own beside the
      one that is created for it. */
  ghost predicate NoNewIdentity(c: Pair) {
    forall q :: q in c.tgt.tables ==>
      NewPlain(if q in c.src.tables then ByName(c.src.tables[q].columns) else map[], c.tgt.tables[q])
  }

  /** The sequence of an identity column that stays is not dropped. */
  ghost predicate IdentitiesStay(c: Pair) {
    forall k :: k in c.src.sequences && k !in c.tgt.sequences && c.src.sequences[k].ownedBy.Some? ==>
      var o := c.src.sequences[k].ownedBy.value;
      HasCols(c.tgt, o.table, {o.column}) && HasCols(c.src, o.table, {o.column}) ==>
        ByName(c.src.tables[o.table].columns)[o.column].identity == None
  }

  /** The last value is set by the loop after the DML. */
  predicate IsSet(c: Pair, q: QName) {
    q in c.tgt.sequences && (q in c.src.sequences ==> c.src.sequences[q].lastValue != c.tgt.sequences[q].lastValue)
  }

  /** Every sequence whose value is set can be named without quotes. */
  ghost predicate SetValsRead(c: Pair) {
    forall q :: IsSet(c, q) ==> Setval.Plain(q.schema) && Setval.Plain(q.name)
  }

  /** An old sequence whose identity column takes another type. */
  predicate Retypes(c: Pair, k: QName) {
    && k in c.src.sequences && c.src.sequences[k].ownedBy.Some?
    && var o := c.src.sequences[k].ownedBy.value;
       && HasCols(c.src, o.table, {o.column}) && HasCols(c.tgt, o.table, {o.column})
       && ByName(c.src.tables[o.table].columns)[o.column].identity.Some?
       && ByName(c.src.tables[o.table].columns)[o.column].typ != ByName(c.tgt.tables[o.table].columns)[o.column].typ
  }

  /** The sequence once tables are altered. */
  function Followed(c: Pair, k: QName): Sequence requires k in c.src.sequences {
    var s := c.src.sequences[k];
    if Retypes(c, k) then
      var o := s.ownedBy.value;
      s.(params := Retype(s.params, ByName(c.tgt.tables[o.table].columns)[o.column].typ))
    else s
  }

  /** A sequence can take the type of its identity column. */
  ghost predicate RetypesFit(c: Pair) {
    forall k :: Retypes(c, k) ==> SequenceOk(Followed(c, k))
  }

  /** The value that an old sequence is set to is within the bounds that it still has. */
  ghost predicate SetValsFit(c: Pair) {
    forall q :: IsSet(c, q) && q in c.src.sequences ==>
      InBounds(Followed(c, q).params, SetTo(c.tgt.sequences[q].lastValue, c.tgt.sequences[q].params.start))
  }

  ghost predicate Named(s: Schema, q: QName) {
    q in s.tables || q in s.indexes || q in s.views || q in s.matviews || q in s.sequences
  }

  /** No name changes its kind: a new relation takes a name that is free. */
  ghost predicate KindsStay(c: Pair) {
    && (forall q :: q in c.tgt.tables && q !in c.src.tables ==> !Named(c.src, q))
    && (forall q :: q in c.tgt.indexes && q !in c.src.indexes ==> !Named(c.src, q))
    && (forall q :: q in c.tgt.views && q !in c.src.views ==> !Named(c.src, q))
    && (forall q :: q in c.tgt.matviews && q !in c.src.matviews ==> !Named(c.src, q))
    && (forall q :: q in c.tgt.sequences && q !in c.src.sequences ==> !Named(c.src, q))
  }

  ghost predicate Executable(c: Pair) {
    && TablesAlterable(c) && IndexesStay(c) && IndexHostsStand(c) && ConstraintsStay(c) && OwnersStay(c) && KindsStay(c)
    && NoNewIdentity(c) && IdentitiesStay(c) && RetypesFit(c) && SetValsRead(c) && SetValsFit(c)
  }

  ghost predicate KeyOfSchema(s: Schema, k: ObjectKey) {
    match k
    case SchemaKey(n) => n in s.schemas
    case TableKey(q) => q in s.tables
    case IndexKey(q) => q in s.indexes
    case ConstraintKey(n) => n in s.constraints
    case ViewKey(q) => q in s.views
    case MatviewKey(q) => q in s.matviews
    case FunctionKey(f) => f in s.functions
    case SequenceKey(q) => q in s.sequences
    case _ => false
  }

  /** The order lists every object of both schemas, each once. */
  ghost predicate Listed(c: Pair) {
    && (forall i, j :: 0 <= i < j < |c.order| ==> c.order[i] != c.order[j])
    && forall k :: KeyOfSchema(c.src, k) || KeyOfSchema(c.tgt, k) ==> k in c.order
  }

  ghost predicate Ok(c: Pair) {
    Closed(c.src) && Closed(c.tgt) && Listed(c)
  }

  // ---------- the target ----------

  /** Identity is not altered on existing columns. */
  function TargetColumn(s: map<string, Column>, c: Column): Column {
    if c.name in s then c.(identity := s[c.name].identity) else c
  }

  function TargetTable(s: Table, t: Table): TableState {
    TableState(map n | n in ByName(t.columns) :: TargetColumn(ByName(s.columns), ByName(t.columns)[n]), t.pk)
  }

  function KeepOld<K, V>(s: map<K, V>, t: map<K, V>): map<K, V> {
    map k | k in t :: if k in s then s[k] else t[k]
  }

  /** What the script is to reach: tgt, except for what the generator does not alter on
      objects that exist already (identity, index and matview definitions, sequence
      parameters and owners; the sequence of an identity column follows its type). */
  function Target(c: Pair): Db {
    Db(c.tgt.schemas,
       map q | q in c.tgt.tables ::
         if q in c.src.tables then TargetTable(c.src.tables[q], c.tgt.tables[q]) else LoadTable(c.tgt.tables[q]),
       KeepOld(c.src.indexes, c.tgt.indexes), c.tgt.constraints, c.tgt.views,
       KeepOld(c.src.matviews, c.tgt.matviews), c.tgt.functions,
       map q | q in c.tgt.sequences ::
         if q in c.src.sequences then Followed(c, q).(lastValue := c.tgt.sequences[q].lastValue)
         else c.tgt.sequences[q])
  }

  // ---------- one table ----------

  lemma {:induction false} AlterConcat(t: TableState, a: seq<Alteration>, b: seq<Alteration>)
    ensures ExecuteAlterations(t, a + b) == match ExecuteAlterations(t, a)
      case None => None
      case Some(u) => ExecuteAlterations(u, b)
  {
    hide ExecuteAlteration;
    if b == [] {
      assert a + b == a;
    } else {
      AlterConcat(t, a, b[..|b| - 1]);
      assert (a + b)[..|a + b| - 1] == a + b[..|b| - 1];
    }
  }

  lemma AlterOne(t: TableState, a: Alteration)
    ensures ExecuteAlterations(t, [a]) == ExecuteAlteration(t, a)
  {
    assert [a][..0] == [];
  }

  lemma SnocNew(cols: seq<Column>)
    requires DistinctNames(cols) && cols != []
    ensures DistinctNames(cols[..|cols| - 1]) && cols[|cols| - 1].name !in ByName(cols[..|cols| - 1])
  {
    var front, c := cols[..|cols| - 1], cols[|cols| - 1];
    forall i | 0 <= i < |front| ensures front[i].name != c.name {
      assert cols[i].name != cols[|cols| - 1].name;
    }
    if c.name in ByName(front) {
      var i := ByNameIsListed(front, c.name);
    }
  }

  ghost predicate AllOk(cols: seq<Column>) {
    forall n :: n in ByName(cols) ==> ColumnOk(ByName(cols)[n])
  }

  lemma FrontOk(cols: seq<Column>)
    requires DistinctNames(cols) && AllOk(cols) && cols != []
    ensures AllOk(cols[..|cols| - 1]) && ColumnOk(cols[|cols| - 1])
  {
    SnocNew(cols);
    var front, c := cols[..|cols| - 1], cols[|cols| - 1];
    assert ByName(cols)[c.name] == c;
    forall n | n in ByName(front) ensures ColumnOk(ByName(front)[n]) {
      assert n != c.name && ByName(cols)[n] == ByName(front)[n];
    }
  }

  lemma OneAdd(cols: map<string, Column>, pk: Option<seq<string>>, c: Column)
    requires c.name !in cols && ColumnOk(c)
    ensures ExecuteAlterations(TableState(cols, pk), [AddColumn(c)]) == Some(TableState(cols[c.name := c], pk))
  {
    AlterOne(TableState(cols, pk), AddColumn(c));
  }

  lemma OneDrop(cols: map<string, Column>, pk: Option<seq<string>>, n: string)
    requires n in cols && !InPk(pk, n)
    ensures ExecuteAlterations(TableState(cols, pk), [DropColumn(n)]) == Some(TableState(cols - {n}, pk))
  {
    AlterOne(TableState(cols, pk), DropColumn(n));
  }

  lemma {:induction false} RunAdds(s: map<string, Column>, pk: Option<seq<string>>, cols: seq<Column>)
    requires DistinctNames(cols) && AllOk(cols)
    ensures ExecuteAlterations(TableState(s, pk), AddColumns(cols, s)) == Some(TableState(ByName(cols) + s, pk))
  {
    hide ExecuteAlteration;
    if cols == [] {
      assert ByName(cols) + s == s;
    } else {
      var front, c := cols[..|cols| - 1], cols[|cols| - 1];
      SnocNew(cols);
      FrontOk(cols);
      RunAdds(s, pk, front);
      if c.name in s {
        assert ByName(cols) + s == ByName(front) + s;
        assert AddColumns(front, s) + [] == AddColumns(front, s);
      } else {
        AlterConcat(TableState(s, pk), AddColumns(front, s), [AddColumn(c)]);
        OneAdd(ByName(front) + s, pk, c);
        assert ByName(cols) + s == (ByName(front) + s)[c.name := c];
      }
    }
  }

  /** The three actions of one column take it to the target column, provided it may lose
      NOT NULL where it does and meets what its identity demands. */
  lemma RunAlterColumn(u: TableState, s: Column, t: Column)
    requires t.name == s.name && t.name in u.cols && u.cols[t.name] == s
    requires ColumnOk(s) && ColumnOk(t) && IdentityFits(s, t)
    requires s.notNull && !t.notNull ==> !InPk(u.pk, t.name)
    ensures ExecuteAlterations(u, AlterColumn(s, t)) == Some(With(u, t.name, t.(identity := s.identity)))
  {
    var n := t.name;
    var a := if s.typ != t.typ then [SetType(n, t.typ)] else [];
    var b := if OrNone(s.default) == OrNone(t.default) then []
      else if t.default == None then [DropDefault(n)] else [SetDefault(n, t.default.value)];
    var d := if s.notNull == t.notNull then [] else if t.notNull then [SetNotNull(n)] else [DropNotNull(n)];
    var c1 := s.(typ := t.typ);
    var c2 := c1.(default := t.default);
    var c3 := c2.(notNull := t.notNull);
    assert c3 == t.(identity := s.identity);
    WithTwice(u, n, c1, c2);
    WithTwice(u, n, c2, c3);
    StepOne(u, a, With(u, n, c1));
    StepOne(With(u, n, c1), b, With(u, n, c2));
    StepOne(With(u, n, c2), d, With(u, n, c3));
    AlterConcat(u, a, b);
    AlterConcat(u, a + b, d);
  }

  function With(u: TableState, n: string, c: Column): TableState {
    u.(cols := u.cols[n := c])
  }

  lemma WithTwice(u: TableState, n: string, a: Column, b: Column)
    ensures With(With(u, n, a), n, b) == With(u, n, b)
    ensures n in u.cols && u.cols[n] == a ==> With(u, n, a) == u
  {
    assert u.cols[n := a][n := b] == u.cols[n := b];
  }

  lemma StepOne(u: TableState, a: seq<Alteration>, v: TableState)
    requires |a| <= 1
    requires if a == [] then u.cols == v.cols && u.pk == v.pk else ExecuteAlteration(u, a[0]) == Some(v)
    ensures ExecuteAlterations(u, a) == Some(v)
  {
    if a != [] {
      assert a == [a[0]];
      AlterOne(u, a[0]);
    }
  }

  /** The columns after the first columns of the target were altered. */
  function Altered(s: map<string, Column>, t: map<string, Column>, done: map<string, Column>): map<string, Column> {
    map n | n in s.Keys + t.Keys ::
      if n !in s then t[n] else if n in done then done[n].(identity := s[n].identity) else s[n]
  }

  lemma AlteredSnoc(s: map<string, Column>, t: map<string, Column>, done: map<string, Column>, c: Column)
    requires c.name in t && t[c.name] == c
    ensures Altered(s, t, done[c.name := c]) == if c.name in s
      then Altered(s, t, done)[c.name := c.(identity := s[c.name].identity)] else Altered(s, t, done)
    ensures c.name in s && c.name !in done ==>
      c.name in Altered(s, t, done) && Altered(s, t, done)[c.name] == s[c.name]
  {}

  lemma {:induction false} RunAlters(s: map<string, Column>, pk: Option<seq<string>>, t: map<string, Column>,
                                     cols: seq<Column>)
    requires DistinctNames(cols) && AllOk(cols) && forall n :: n in ByName(cols) ==> n in t && t[n] == ByName(cols)[n]
    requires forall n :: n in s ==> ColumnOk(s[n]) && s[n].name == n
    requires forall n :: n in t && n in s ==> IdentityFits(s[n], t[n])
    requires forall n :: n in t && n in s && s[n].notNull && !t[n].notNull ==> !InPk(pk, n)
    ensures ExecuteAlterations(TableState(Altered(s, t, map[]), pk), AlterColumns(cols, s))
      == Some(TableState(Altered(s, t, ByName(cols)), pk))
  {
    hide ExecuteAlteration, AlterColumn, Altered;
    if cols != [] {
      var front, c := cols[..|cols| - 1], cols[|cols| - 1];
      SnocNew(cols);
      FrontOk(cols);
      assert forall n :: n in ByName(front) ==> ByName(cols)[n] == ByName(front)[n];
      RunAlters(s, pk, t, front);
      var u := TableState(Altered(s, t, ByName(front)), pk);
      assert t[c.name] == c by { assert ByName(cols)[c.name] == c; }
      AlteredSnoc(s, t, ByName(front), c);
      if c.name in s {
        RunAlterColumn(u, s[c.name], c);
        AlterConcat(TableState(Altered(s, t, map[]), pk), AlterColumns(front, s), AlterColumn(s[c.name], c));
      } else {
        assert AlterColumns(front, s) + [] == AlterColumns(front, s);
      }
    }
  }

  function DropAll(u: map<string, Column>, t: map<string, Column>, gone: map<string, Column>): map<string, Column> {
    map n | n in u && (n in t || n !in gone) :: u[n]
  }

  lemma DropAllSnoc(u: map<string, Column>, t: map<string, Column>, gone: map<string, Column>, c: Column)
    requires c.name in u && c.name !in gone
    ensures DropAll(u, t, gone[c.name := c]) ==
      if c.name in t then DropAll(u, t, gone) else DropAll(u, t, gone) - {c.name}
    ensures c.name in DropAll(u, t, gone)
  {}

  lemma {:induction false} RunDrops(u: map<string, Column>, pk: Option<seq<string>>, t: map<string, Column>,
                                    cols: seq<Column>)
    requires DistinctNames(cols) && forall n :: n in ByName(cols) ==> n in u
    requires forall n :: n in ByName(cols) && n !in t ==> !InPk(pk, n)
    ensures ExecuteAlterations(TableState(u, pk), DropColumns(cols, t)) ==
      Some(TableState(DropAll(u, t, ByName(cols)), pk))
  {
    hide ExecuteAlteration;
    if cols == [] {
      assert DropAll(u, t, map[]) == u;
    } else {
      var front, c := cols[..|cols| - 1], cols[|cols| - 1];
      SnocNew(cols);
      hide DistinctNames, DropAll;
      RunDrops(u, pk, t, front);
      assert c.name in ByName(cols);
      DropAllSnoc(u, t, ByName(front), c);
      if c.name in t {
        assert DropColumns(front, t) + [] == DropColumns(front, t);
      } else {
        AlterConcat(TableState(u, pk), DropColumns(front, t), [DropColumn(c.name)]);
        OneDrop(DropAll(u, t, ByName(front)), pk, c.name);
      }
    }
  }

  lemma RunChangePk(u: TableState, t: Option<seq<string>>)
    requires u.pk != Some([]) && t != Some([])
    requires t.Some? ==> forall n :: n in t.value ==> n in u.cols && u.cols[n].notNull
    ensures ExecuteAlterations(u, ChangePk(u.pk, t)) == Some(TableState(u.cols, t))
  {
    if u.pk != t {
      var a := if u.pk.Some? then [DropPk] else [];
      var b := if t.Some? then [AddPk(t.value)] else [];
      var v := TableState(u.cols, None);
      StepOne(u, a, v);
      if t.Some? {
        assert (map n | n in u.cols :: if n in t.value then u.cols[n].(notNull := true) else u.cols[n]) == u.cols;
      }
      StepOne(v, b, TableState(u.cols, t));
      AlterConcat(u, a, b);
    }
  }

  lemma {:induction false} NamesMatch(cols: seq<Column>)
    ensures forall n :: n in ByName(cols) ==> ByName(cols)[n].name == n
  {
    if cols != [] {
      NamesMatch(cols[..|cols| - 1]);
    }
  }

  /** The ALTER TABLE actions of one table take it to its target when its old key columns
      stay NOT NULL columns and its identity columns meet what identity demands. */
  lemma TableConverges(s: Table, t: Table)
    requires TableOk(s) && TableOk(t) && Alterable(s, t)
    ensures ExecuteAlterations(LoadTable(s), Alterations(s, t)) == Some(TargetTable(s, t))
  {
    hide AddColumns, AlterColumns, DropColumns, ChangePk, Alterations, ExecuteAlterations, Altered, DropAll, ColumnOk;
    var sc, tc := ByName(s.columns), ByName(t.columns);
    NamesMatch(s.columns);
    RunAdds(sc, s.pk, t.columns);
    Between(s, t);
    RunAlters(sc, s.pk, tc, t.columns);
    var altered := Altered(sc, tc, tc);
    RunDrops(altered, s.pk, tc, s.columns);
    RunChangePk(TableState(TargetTable(s, t).cols, s.pk), t.pk);
    AlterParts(s, t, TableState(tc + sc, s.pk), TableState(altered, s.pk), TableState(TargetTable(s, t).cols, s.pk));
  }

  /** The columns between the steps. */
  lemma Between(s: Table, t: Table)
    ensures var (sc, tc) := (ByName(s.columns), ByName(t.columns));
      && Altered(sc, tc, map[]) == tc + sc && Altered(sc, tc, tc).Keys == sc.Keys + tc.Keys
      && DropAll(Altered(sc, tc, tc), tc, sc) == TargetTable(s, t).cols
  {
    NamesMatch(t.columns);
  }

  lemma AlterParts(s: Table, t: Table, u1: TableState, u2: TableState, u3: TableState)
    requires ExecuteAlterations(LoadTable(s), AddColumns(t.columns, ByName(s.columns))) == Some(u1)
    requires ExecuteAlterations(u1, AlterColumns(t.columns, ByName(s.columns))) == Some(u2)
    requires ExecuteAlterations(u2, DropColumns(s.columns, ByName(t.columns))) == Some(u3)
    requires ExecuteAlterations(u3, ChangePk(s.pk, t.pk)) == Some(TargetTable(s, t))
    ensures ExecuteAlterations(LoadTable(s), Alterations(s, t)) == Some(TargetTable(s, t))
  {
    hide AddColumns, AlterColumns, DropColumns, ChangePk, ExecuteAlterations;
    var a, b := AddColumns(t.columns, ByName(s.columns)), AlterColumns(t.columns, ByName(s.columns));
    var d, e := DropColumns(s.columns, ByName(t.columns)), ChangePk(s.pk, t.pk);
    AlterConcat(LoadTable(s), a, b);
    AlterConcat(LoadTable(s), a + b, d);
    AlterConcat(LoadTable(s), a + b + d, e);
  }
}
