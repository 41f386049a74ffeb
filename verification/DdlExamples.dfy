/** Small pairs of closed schemas for which the generated script does not reach its target. */
module DdlExamples {
  import opened Types
  import opened Catalog
  import opened SchemaMerge
  import opened Ddl
  import opened DdlProof
  import opened DdlIff
  import opened SchemaLaws
  import opened DdlLimits
  import opened DdlDrift
  import opened DdlAgain
  import opened SchemaClosed
  import Setval

  const PUBLIC := "public"
  const T := QName(PUBLIC, "t")
  const I := QName(PUBLIC, "i")
  const M := QName(PUBLIC, "m")
  const U := QName(PUBLIC, "u")
  const S := QName(PUBLIC, "s")
  const UPPER := QName(PUBLIC, "S")
  const K := ConName(T, "k")

  /** The script of the pair does not reach its target. */
  ghost predicate Fails(c: Pair) {
    Ok(c) && ExecuteAll(Load(c.src), Script(c, 0, PRE) + Script(c, PRE, |PHASES|)) != Some(Target(c))
  }

  lemma NotExecutableFails(c: Pair)
    requires Ok(c) && !Executable(c)
    ensures Fails(c)
  {
    hide ExecuteAll, Load, Target, Script, Ok, Executable;
    ScriptConvergesIff(c);
  }

  // ---------- the schemas ----------

  function Empty(): Schema {
    Schema({PUBLIC}, map[], map[], map[], map[], map[], map[], map[])
  }

  function OneTable(cols: seq<Column>, pk: Option<seq<string>>): Schema {
    Empty().(tables := map[T := Table(cols, pk)])
  }

  function TextColumn(n: string): Column {
    Column(n, "text", true, None, None)
  }

  function IdentityColumn(): Column {
    Column("a", "bigint", true, None, Some('d'))
  }

  function Counter(last: Option<int>, owner: Option<ColumnRef>): Sequence {
    Sequence(IdentityParams("bigint"), last, owner)
  }

  lemma OneName(a: Column)
    ensures ByName([a]) == map[a.name := a]
  {
    assert [a][..0] == [];
  }

  lemma TwoNames(a: Column, b: Column)
    ensures ByName([a, b]) == map[a.name := a][b.name := b]
  {
    OneName(a);
    assert [a, b][..1] == [a];
  }

  lemma OneColumnOk(a: Column)
    requires ColumnOk(a)
    ensures TableOk(Table([a], None))
  {
    OneName(a);
  }

  lemma TwoColumnsOk(a: Column, b: Column, pk: Option<seq<string>>)
    requires ColumnOk(a) && ColumnOk(b) && a.name != b.name && a.notNull && (pk == None || pk == Some([a.name]))
    ensures TableOk(Table([a, b], pk))
  {
    TwoNames(a, b);
  }

  /** A schema with no more than the names above. */
  ghost predicate IsSmall(s: Schema) {
    && s == Empty().(tables := s.tables, indexes := s.indexes, matviews := s.matviews, sequences := s.sequences,
         constraints := s.constraints)
    && s.tables.Keys <= {T, U} && s.indexes.Keys <= {I} && s.matviews.Keys <= {M} && s.sequences.Keys <= {S, UPPER}
    && s.constraints.Keys <= {K}
  }

  lemma NamesApart()
    ensures {T, U} !! {I} && {T, U, I} !! {M} && {T, U, I, M} !! {S, UPPER}
  {
    assert T.name[0] == 't' && U.name[0] == 'u' && I.name[0] == 'i' && M.name[0] == 'm';
    assert S.name[0] == 's' && UPPER.name[0] == 'S';
  }

  lemma SmallClosed(s: Schema)
    requires IsSmall(s)
    requires forall q :: q in s.tables ==> TableOk(s.tables[q])
    requires forall i :: i in s.indexes ==> IndexOk(s, i)
    requires forall k :: k in s.constraints ==> ConstraintOk(s, k)
    requires forall k :: k in s.sequences ==> OwnerOk(s, s.sequences[k]) && SequenceOk(s.sequences[k])
    ensures Closed(s)
  {
    NamesApart();
    hide TableOk, IndexOk, OwnerOk, ConstraintOk, SequenceOk;
    assert Disjoint(s);
    assert forall q :: q in {T, U, I, M, S, UPPER} ==> q.schema in s.schemas;
    hide Disjoint;
  }

  const ORDER := [SchemaKey(PUBLIC), TableKey(T), TableKey(U), IndexKey(I), ConstraintKey(K), MatviewKey(M),
    SequenceKey(S), SequenceKey(UPPER)]

  lemma SmallListed(c: Pair)
    requires c.order == ORDER && IsSmall(c.src) && IsSmall(c.tgt)
    ensures Listed(c)
  {
    assert T.name[0] == 't' && U.name[0] == 'u' && S.name[0] == 's' && UPPER.name[0] == 'S';
    forall k | KeyOfSchema(c.src, k) || KeyOfSchema(c.tgt, k) ensures k in c.order {
      SmallKey(if KeyOfSchema(c.src, k) then c.src else c.tgt, k);
    }
  }

  lemma SmallKey(s: Schema, k: ObjectKey)
    requires IsSmall(s) && KeyOfSchema(s, k)
    ensures k in ORDER
  {
    match k
    case SchemaKey(_) => assert ORDER[0] == k;
    case TableKey(_) => assert ORDER[1] == k || ORDER[2] == k;
    case IndexKey(_) => assert ORDER[3] == k;
    case ConstraintKey(_) => assert ORDER[4] == k;
    case MatviewKey(_) => assert ORDER[5] == k;
    case SequenceKey(_) => assert ORDER[6] == k || ORDER[7] == k;
    case _ =>
  }

  function Small(src: Schema, tgt: Schema): Pair {
    Pair(src, tgt, ORDER)
  }

  // ---------- the failing pairs ----------

  function KeyColumnGoes(): Pair {
    Small(OneTable([TextColumn("a"), TextColumn("b")], Some(["a"])), OneTable([TextColumn("b")], None))
  }

  /** Dropping a column together with the primary key on it. */
  lemma KeyColumnGoesFails()
    ensures Fails(KeyColumnGoes())
  {
    var c := KeyColumnGoes();
    TwoColumnsOk(TextColumn("a"), TextColumn("b"), Some(["a"]));
    OneColumnOk(TextColumn("b"));
    OneName(TextColumn("b"));
    hide TableOk, Closed, Listed, Executable, Fails, ByName;
    SmallClosed(c.src);
    SmallClosed(c.tgt);
    SmallListed(c);
    assert !Executable(c) by { KeyColumnGoesStuck(); }
    NotExecutableFails(c);
  }

  lemma KeyColumnGoesStuck()
    ensures !Executable(KeyColumnGoes())
  {
    var c := KeyColumnGoes();
    OneName(TextColumn("b"));
    hide ByName;
    assert "a" in c.src.tables[T].pk.value && !PkColumnsStay(c.src.tables[T], c.tgt.tables[T]);
    assert !TablesAlterable(c);
  }

  function IndexedColumnGoes(): Pair {
    Small(OneTable([TextColumn("a"), TextColumn("b")], None).(
        indexes := map[I := Index("t", Definition("", {"a"}, None))]),
      OneTable([TextColumn("b")], None))
  }

  /** Dropping a column together with the index on it. */
  lemma IndexedColumnGoesFails()
    ensures Fails(IndexedColumnGoes())
  {
    var c := IndexedColumnGoes();
    TwoColumnsOk(TextColumn("a"), TextColumn("b"), None);
    OneColumnOk(TextColumn("b"));
    IndexedColumnGoesStuck();
    hide TableOk, Closed, Listed, Executable, Fails, ByName;
    SmallClosed(c.src);
    SmallClosed(c.tgt);
    SmallListed(c);
    NotExecutableFails(c);
  }

  lemma IndexedColumnGoesStuck()
    ensures !Executable(IndexedColumnGoes()) && IndexOk(IndexedColumnGoes().src, I)
  {
    var c := IndexedColumnGoes();
    TwoNames(TextColumn("a"), TextColumn("b"));
    OneName(TextColumn("b"));
    hide ByName;
    assert "a" in {"a"} && "a"[0] != "b"[0];
    assert I in c.src.indexes && !IndexesStay(c);
  }

  function IndexedMatviewComes(): Pair {
    Small(Empty(), Empty().(matviews := map[M := "select 1 as a"],
        indexes := map[I := Index("m", Definition("", {"a"}, None))]))
  }

  /** Creating a materialized view and an index on it. */
  lemma IndexedMatviewComesFails()
    ensures Fails(IndexedMatviewComes())
  {
    var c := IndexedMatviewComes();
    assert IndexOk(c.tgt, I) && I in c.tgt.indexes && !IndexHostsStand(c);
    hide Closed, Listed, Fails, IndexOk;
    SmallClosed(c.src);
    SmallClosed(c.tgt);
    SmallListed(c);
    NotExecutableFails(c);
  }

  function IdentityColumnComes(): Pair {
    Small(Empty(), OneTable([IdentityColumn()], None).(sequences := map[S := Counter(None, Some(ColumnRef(T, "a")))]))
  }

  /** Creating a table with an identity column: the server makes it a second sequence. */
  lemma IdentityColumnComesFails()
    ensures Fails(IdentityColumnComes())
  {
    var c := IdentityColumnComes();
    OneColumnOk(IdentityColumn());
    OneName(IdentityColumn());
    assert !NewPlain(map[], c.tgt.tables[T]) by { assert "a" in ByName(c.tgt.tables[T].columns); }
    assert OwnerOk(c.tgt, c.tgt.sequences[S]) && !NoNewIdentity(c);
    hide TableOk, Closed, Listed, Fails, OwnerOk, ByName, NoNewIdentity;
    SmallClosed(c.src);
    SmallClosed(c.tgt);
    SmallListed(c);
    NotExecutableFails(c);
  }

  function IdentityGoes(): Pair {
    Small(OneTable([IdentityColumn()], None).(sequences := map[S := Counter(None, Some(ColumnRef(T, "a")))]),
      OneTable([IdentityColumn().(identity := None)], None))
  }

  /** Taking identity away from a column: its sequence cannot be dropped. */
  lemma IdentityGoesFails()
    ensures Fails(IdentityGoes())
  {
    var c := IdentityGoes();
    IdentityGoesStuck();
    hide TableOk, Closed, Listed, Fails, OwnerOk, Executable;
    SmallClosed(c.src);
    SmallClosed(c.tgt);
    SmallListed(c);
    NotExecutableFails(c);
  }

  lemma IdentityGoesStuck()
    ensures var c := IdentityGoes();
      !Executable(c) && TableOk(c.src.tables[T]) && TableOk(c.tgt.tables[T]) && OwnerOk(c.src, c.src.sequences[S])
  {
    var c := IdentityGoes();
    OneColumnOk(IdentityColumn());
    OneColumnOk(IdentityColumn().(identity := None));
    OneName(IdentityColumn());
    OneName(IdentityColumn().(identity := None));
    hide TableOk, ByName;
    assert S in c.src.sequences && !IdentitiesStay(c);
  }

  function IdentityBecomesSerial(): Pair {
    var owned := map[S := Counter(None, Some(ColumnRef(T, "a")))];
    Small(OneTable([IdentityColumn()], None).(sequences := owned),
      OneTable([SerialColumn()], None).(sequences := owned))
  }

  function SerialColumn(): Column {
    Column("a", "bigint", true, Some("nextval('s')"), None)
  }

  /** Replacing identity by a default over a sequence of the same name: the server refuses
      the default while the column still has identity. */
  lemma IdentityBecomesSerialFails()
    ensures Fails(IdentityBecomesSerial())
  {
    var c := IdentityBecomesSerial();
    IdentityBecomesSerialStuck();
    hide TableOk, Closed, Listed, Fails, OwnerOk, Executable;
    SmallClosed(c.src);
    SmallClosed(c.tgt);
    SmallListed(c);
    NotExecutableFails(c);
  }

  lemma IdentityBecomesSerialStuck()
    ensures var c := IdentityBecomesSerial();
      && !Executable(c) && TableOk(c.src.tables[T]) && TableOk(c.tgt.tables[T])
      && OwnerOk(c.src, c.src.sequences[S]) && OwnerOk(c.tgt, c.tgt.sequences[S])
  {
    var c := IdentityBecomesSerial();
    assert SerialColumn().default.value[0] == 'n';
    OneColumnOk(IdentityColumn());
    OneColumnOk(SerialColumn());
    OneName(IdentityColumn());
    OneName(SerialColumn());
    hide TableOk, ByName;
    assert !IdentityFits(IdentityColumn(), SerialColumn());
    assert "a" in ByName(c.src.tables[T].columns) && "a" in ByName(c.tgt.tables[T].columns);
    assert !Alterable(c.src.tables[T], c.tgt.tables[T]);
    assert !TablesAlterable(c);
  }

  function MixedCaseIsSet(): Pair {
    Small(Empty().(sequences := map[UPPER := Counter(None, None)]),
      Empty().(sequences := map[UPPER := Counter(Some(7), None)]))
  }

  /** Setting a sequence whose name is not lower case. */
  lemma MixedCaseIsSetFails()
    ensures Fails(MixedCaseIsSet())
  {
    var c := MixedCaseIsSet();
    assert UPPER.name[0] == 'S' && Setval.IsUpper('S');
    assert IsSet(c, UPPER) && !SetValsRead(c);
    hide Closed, Listed, Fails, SetValsRead;
    SmallClosed(c.src);
    SmallClosed(c.tgt);
    SmallListed(c);
    NotExecutableFails(c);
  }

  /** BRANCH made the sequence a bigint and went past the end of integer. */
  function SetPastTheEnd(): Pair {
    Small(Empty().(sequences := map[S := Sequence(IdentityParams("integer"), Some(1), None)]),
      Empty().(sequences := map[S := Sequence(IdentityParams("bigint"), Some(3000000000), None)]))
  }

  /** Setting a sequence past the bounds that it still has. */
  lemma SetPastTheEndFails()
    ensures Fails(SetPastTheEnd())
  {
    var c := SetPastTheEnd();
    assert "smallint"[0] == 's' && "integer"[0] == 'i' && "bigint"[0] == 'b';
    assert IsSet(c, S) && !SetValsFit(c);
    assert SequenceOk(c.src.sequences[S]) && SequenceOk(c.tgt.sequences[S]);
    hide Closed, Listed, Fails, SetValsFit, SequenceOk;
    SmallClosed(c.src);
    SmallClosed(c.tgt);
    SmallListed(c);
    NotExecutableFails(c);
  }

  // ---------- diffing again ----------

  /** BRANCH changed the parameters of a sequence and used it; MAIN did neither. */
  function SequenceChanges(): Three {
    var base := Empty().(sequences := map[S := Counter(Some(1), None)]);
    Three(base, base, Empty().(sequences := map[S := Sequence(IdentityParams("integer"), Some(2), None)]))
  }

  /** The first diff has no conflict and its script reaches its target, the second conflicts. */
  lemma SequenceChangesConflictAgain()
    ensures var t := SequenceChanges();
      && Conflicts(t) == {} && Ok(AgainstMain(t, ORDER)) && Executable(AgainstMain(t, ORDER))
      && Conflicts(Again(t)) != {}
  {
    hide SequenceChanges, Conflicts, Ok, Executable, Merged, Again, MixedAt, MixedTable, SchemaOk;
    var t := SequenceChanges();
    var c := AgainstMain(t, ORDER);
    MergedIsBranch();
    SequenceChangesRun();
    SequenceIsMixed();
    assert !Unmixed(t);
    AgainConflictsIff(t);
  }

  lemma SequenceIsMixed()
    ensures MixedAt(SequenceChanges(), S)
  {
    hide Merged;
    assert IdentityParams("bigint").dataType[0] == 'b' && IdentityParams("integer").dataType[0] == 'i';
  }

  lemma MergedIsBranch()
    ensures Merged(SequenceChanges()) == SequenceChanges().branch && Conflicts(SequenceChanges()) == {}
    ensures SchemaOk(SequenceChanges())
  {
    var t := SequenceChanges();
    UnchangedMainTakesBranch(t.base, t.branch);
    assert Merged(t).tables == map[];
    hide Merged, Conflicts;
  }

  lemma SequenceChangesRun()
    ensures var c := Small(SequenceChanges().main, SequenceChanges().branch); Ok(c) && Executable(c)
  {
    var c := Small(SequenceChanges().main, SequenceChanges().branch);
    SequenceChangesExecutable();
    hide Executable, Closed, Listed;
    SmallClosed(c.src);
    SmallClosed(c.tgt);
    SmallListed(c);
  }

  lemma SequenceChangesExecutable()
    ensures Executable(Small(SequenceChanges().main, SequenceChanges().branch))
  {
    assert PUBLIC == ['p', 'u', 'b', 'l', 'i', 'c'] && S.name == ['s'];
    assert Setval.Plain(PUBLIC) && Setval.Plain(S.name);
    hide Setval.Plain;
  }

  // ---------- merging closed schemas ----------

  /** MAIN drops a table that BRANCH begins to refer to. */
  function ReferenceAndDrop(): Three {
    var t, u := Table([TextColumn("a")], None), Table([TextColumn("b")], None);
    Three(Empty().(tables := map[T := t, U := u]), Empty().(tables := map[T := t]),
      Empty().(tables := map[T := t, U := u], constraints := map[K := Definition("", {"a"}, Some(U))]))
  }

  /** Merging closed schemas without conflict need not give a closed schema. */
  lemma ReferenceAndDropDangles()
    ensures var t := ReferenceAndDrop(); ClosedSides(t) && !Compatible(t) && !Closed(Merged(t))
  {
    hide Merged, Conflicts, HasCols, Closed, ReferenceAndDrop, Compatible;
    ReferenceAndDropMerges();
    ReferenceAndDropClosed();
    NotClosed(Merged(ReferenceAndDrop()), K);
    MergedClosedIff(ReferenceAndDrop());
  }

  lemma ReferenceAndDropClosed()
    ensures var t := ReferenceAndDrop(); Closed(t.base) && Closed(t.main) && Closed(t.branch)
  {
    var t := ReferenceAndDrop();
    OneColumnOk(TextColumn("a"));
    OneColumnOk(TextColumn("b"));
    OneName(TextColumn("a"));
    hide TableOk, Closed, ByName;
    assert ConstraintOk(t.branch, K);
    hide ConstraintOk;
    SmallClosed(t.base);
    SmallClosed(t.main);
    SmallClosed(t.branch);
  }

  lemma NotClosed(s: Schema, k: ConName)
    requires k in s.constraints && s.constraints[k].refs.Some? && s.constraints[k].refs.value !in s.tables
    ensures !Closed(s)
  {
    assert !ConstraintOk(s, k);
  }

  lemma ReferenceAndDropMerges()
    ensures var t := ReferenceAndDrop();
      Conflicts(t) == {} && K in Merged(t).constraints &&
      Merged(t).constraints[K].refs == Some(U) && U !in Merged(t).tables
  {
    var t := ReferenceAndDrop();
    EntryIsMerged(t, U);
    LookupMerged(t.base.constraints, t.main.constraints, t.branch.constraints, K);
    ReferenceAndDropFree();
    hide MergeMaps, MergedTableMap, Conflicts;
  }

  lemma ReferenceAndDropFree()
    ensures Conflicts(ReferenceAndDrop()) == {}
  {
    var t := ReferenceAndDrop();
    ConflictFreeIff(t);
    TablesConflictFreeIff(t);
    assert T.name[0] == 't' && U.name[0] == 'u';
    forall q ensures ConflictsAt(t, q) == {} {}
    hide Conflicts, ConflictsAt, AllTableConflicts;
  }
}
