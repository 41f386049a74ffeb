/** When the three-way merge of referentially closed schemas is closed: a condition on the
    three schemas themselves. */
module SchemaClosed {
  import opened Types
  import opened Catalog
  import opened SchemaMerge
  import opened SchemaLaws
  import opened Ddl
  import opened DdlProof
  import opened DdlRun
  import opened DdlKinds
  import opened DdlDrift

  // ---------- the condition ----------

  // b is BASE, a one side and o the other.

  /** Only side a added or changed the entry. */
  predicate OnlyOn<V(==)>(b: Option<V>, a: Option<V>, o: Option<V>) {
    a.Some? && a != b && o == b
  }

  predicate SchemaDropped(b: Schema, o: Schema, n: string) {
    n in b.schemas && n !in o.schemas
  }

  predicate TableDropped(b: Schema, o: Schema, q: QName) {
    q in b.tables && q !in o.tables
  }

  /** The other side dropped the table or one of the columns. */
  predicate ColumnsDropped(b: Schema, o: Schema, q: QName, cols: set<string>) {
    q in b.tables && (q !in o.tables ||
      exists n :: n in cols && n in ByName(b.tables[q].columns) && n !in ByName(o.tables[q].columns))
  }

  predicate MatviewDropped(b: Schema, o: Schema, q: QName) {
    q in b.matviews && q !in o.matviews
  }

  /** What carries an index: a table with its columns, or a materialized view. */
  predicate Carries(s: Schema, q: QName, cols: set<string>) {
    HasCols(s, q, cols) || q in s.matviews
  }

  /** The other side dropped what the index is on, and put nothing in its place. */
  predicate HostDropped(b: Schema, a: Schema, o: Schema, q: QName, cols: set<string>) {
    && !Carries(o, q, cols)
    && ((HasCols(a, q, cols) && ColumnsDropped(b, o, q, cols)) || (q in a.matviews && MatviewDropped(b, o, q)))
  }

  /** A column that a key can have. */
  predicate Firm(t: Table, n: string) {
    n in ByName(t.columns) && ByName(t.columns)[n].notNull
  }

  /** Side a alone changed the primary key, and a column of it is one that the other side
      dropped or made nullable. */
  predicate KeyLost(b: Table, a: Table, o: Table) {
    && a.pk.Some? && a.pk != b.pk && o.pk == b.pk
    && exists n :: n in a.pk.value && Firm(b, n) && !Firm(o, n)
  }

  predicate TableStands(b: Schema, a: Schema, o: Schema, q: QName) {
    && (OnlyOn(Lookup(b.tables, q), Lookup(a.tables, q), Lookup(o.tables, q)) ==> !SchemaDropped(b, o, q.schema))
    && (q in b.tables && q in a.tables && q in o.tables ==> !KeyLost(b.tables[q], a.tables[q], o.tables[q]))
  }

  predicate IndexStands(b: Schema, a: Schema, o: Schema, i: QName) {
    OnlyOn(Lookup(b.indexes, i), Lookup(a.indexes, i), Lookup(o.indexes, i)) ==>
      !SchemaDropped(b, o, i.schema) &&
      !HostDropped(b, a, o, TableOfIndex(i, a.indexes[i]), a.indexes[i].definition.cols)
  }

  predicate ConstraintStands(b: Schema, a: Schema, o: Schema, k: ConName) {
    OnlyOn(Lookup(b.constraints, k), Lookup(a.constraints, k), Lookup(o.constraints, k)) ==>
      var d := a.constraints[k];
      !ColumnsDropped(b, o, k.table, d.cols) && (d.refs.Some? ==> !TableDropped(b, o, d.refs.value))
  }

  predicate ViewStands(b: Schema, a: Schema, o: Schema, q: QName) {
    && (OnlyOn(Lookup(b.views, q), Lookup(a.views, q), Lookup(o.views, q)) ==> !SchemaDropped(b, o, q.schema))
    && (OnlyOn(Lookup(b.matviews, q), Lookup(a.matviews, q), Lookup(o.matviews, q)) ==>
         !SchemaDropped(b, o, q.schema))
  }

  predicate FunctionStands(b: Schema, a: Schema, o: Schema, f: FnName) {
    OnlyOn(Lookup(b.functions, f), Lookup(a.functions, f), Lookup(o.functions, f)) ==> !SchemaDropped(b, o, f.schema)
  }

  predicate SequenceStands(b: Schema, a: Schema, o: Schema, q: QName) {
    OnlyOn(Lookup(b.sequences, q), Lookup(a.sequences, q), Lookup(o.sequences, q)) ==>
      var w := a.sequences[q].ownedBy;
      !SchemaDropped(b, o, q.schema) && (w.Some? ==> !ColumnsDropped(b, o, w.value.table, {w.value.column}))
  }

  /** Nothing that side a alone added or changed refers to what the other side dropped. */
  ghost predicate Stands(b: Schema, a: Schema, o: Schema) {
    && (forall q :: TableStands(b, a, o, q)) && (forall i :: IndexStands(b, a, o, i))
    && (forall k :: ConstraintStands(b, a, o, k)) && (forall q :: ViewStands(b, a, o, q))
    && (forall f :: FunctionStands(b, a, o, f)) && (forall q :: SequenceStands(b, a, o, q))
  }

  ghost predicate Added(b: Schema, a: Schema, x: Kind, q: QName) {
    HoldsIn(a, x, q) && !HoldsIn(b, x, q)
  }

  ghost predicate KindsAgreeAt(t: Three, q: QName) {
    forall x, y :: Added(t.base, t.main, x, q) && Added(t.base, t.branch, y, q) ==> x == y
  }

  /** The two sides do not give one name to relations of different kinds. */
  ghost predicate KindsAgree(t: Three) {
    forall q :: KindsAgreeAt(t, q)
  }

  ghost predicate Compatible(t: Three) {
    Stands(t.base, t.main, t.branch) && Stands(t.base, t.branch, t.main) && KindsAgree(t)
  }

  // ---------- what the merge holds ----------

  /** Presence in the merge. */
  predicate Stays(b: bool, a: bool, o: bool) {
    (a && o) || ((a || o) && !b)
  }

  ghost predicate ClosedSides(t: Three) {
    Closed(t.base) && Closed(t.main) && Closed(t.branch) && Conflicts(t) == {}
  }

  lemma SidesOk(t: Three)
    requires ClosedSides(t)
    ensures SchemaOk(t)
  {}

  /** a and o are the two sides. */
  ghost predicate Sides(t: Three, a: Schema, o: Schema) {
    (a == t.main && o == t.branch) || (a == t.branch && o == t.main)
  }

  lemma EntryFacts(q: QName, b: Option<Table>, m: Option<Table>, r: Option<Table>)
    requires TableConflicts(q, b, m, r) == {}
    ensures var x := MergeTableEntry(b, m, r);
      && (x.Some? <==> Stays(b.Some?, m.Some?, r.Some?))
      && (x.Some? && b.None? ==> x == if m.Some? then m else r)
      && (x.Some? && b.None? && m.Some? && r.Some? ==> m == r)
      && (x.Some? && b.Some? ==>
           && m.Some? && r.Some? && x.value.pk == MergedPk(b.value.pk, m.value.pk, r.value.pk)
           && !Clash(Some(b.value.pk), Some(m.value.pk), Some(r.value.pk)))
  {
    if b.Some? && m.Some? && r.Some? && b != r && (b == m || r != m) {
      NoColumnClash(q, b.value, m.value, r.value, "");
    }
    hide MergedColumns, ByName, Clashes;
  }

  lemma ColumnFacts(q: QName, b: Option<Table>, m: Option<Table>, r: Option<Table>, n: string)
    requires TableConflicts(q, b, m, r) == {} && MergeTableEntry(b, m, r).Some?
    ensures var (x, y, z) := (ColOf(b, n), ColOf(m, n), ColOf(r, n));
      ColOf(MergeTableEntry(b, m, r), n) == Pick(x, y, z) && !Clash(x, y, z)
  {
    EntryFacts(q, b, m, r);
    if b.Some? && m.Some? && r.Some? && b != r && (b == m || r != m) {
      NoColumnClash(q, b.value, m.value, r.value, n);
      MergedColumn(b.value, m.value, r.value, n);
    }
    hide MergedColumns, ByName, Clashes, MergeTables;
  }

  /** An object that is merged as a whole: one side's, or the same on both. */
  lemma WholeFacts<K, V>(b: map<K, V>, m: map<K, V>, r: map<K, V>, k: K)
    requires Clashes(b, m, r) == {}
    ensures var (x, y, z, w) := (Lookup(b, k), Lookup(m, k), Lookup(r, k), Lookup(MergeMaps(b, m, r), k));
      && (w.Some? <==> Stays(x.Some?, y.Some?, z.Some?))
      && (OnlyOn(x, y, z) ==> w == y) && (OnlyOn(x, z, y) ==> w == z)
      && (w.Some? && !OnlyOn(x, y, z) && !OnlyOn(x, z, y) ==> w == y == z)
  {
    LookupMerged(b, m, r, k);
    hide MergeMaps, Clashes;
  }

  lemma SchemaStays(t: Three, a: Schema, o: Schema, n: string)
    requires ClosedSides(t) && Sides(t, a, o)
    ensures n in a.schemas ==> (n in Merged(t).schemas <==> !SchemaDropped(t.base, o, n))
    ensures n in Merged(t).schemas ==> n in a.schemas || n in o.schemas
  {
    PartsConflictFree(t);
    WholeFacts(AsMap(t.base.schemas), AsMap(t.main.schemas), AsMap(t.branch.schemas), n);
    hide Closed, Conflicts, MergeMaps, Clashes, MergedTableMap;
  }

  lemma MatviewStays(t: Three, q: QName)
    requires ClosedSides(t)
    ensures q in Merged(t).matviews <==> Stays(q in t.base.matviews, q in t.main.matviews, q in t.branch.matviews)
  {
    PartsConflictFree(t);
    WholeFacts(t.base.matviews, t.main.matviews, t.branch.matviews, q);
    hide Closed, Conflicts, MergeMaps, Clashes, MergedTableMap;
  }

  lemma TableEntry(t: Three, q: QName)
    requires ClosedSides(t)
    ensures var (b, m, r) := (Lookup(t.base.tables, q), Lookup(t.main.tables, q), Lookup(t.branch.tables, q));
      TableConflicts(q, b, m, r) == {} && Lookup(Merged(t).tables, q) == MergeTableEntry(b, m, r)
  {
    EntryIsMerged(t, q);
    ConflictsAtCounted(t, q);
    hide Conflicts, Closed, TableConflicts, MergeTableEntry, MergedTableMap;
  }

  lemma ColumnsStay(t: Three, a: Schema, o: Schema, q: QName, cols: set<string>)
    requires ClosedSides(t) && Sides(t, a, o) && HasCols(a, q, cols)
    ensures HasCols(Merged(t), q, cols) <==> !ColumnsDropped(t.base, o, q, cols)
  {
    TableEntry(t, q);
    var b, m, r := Lookup(t.base.tables, q), Lookup(t.main.tables, q), Lookup(t.branch.tables, q);
    EntryFacts(q, b, m, r);
    hide ClosedSides, Merged, MergeTableEntry, TableConflicts, ByName, Pick, Clash;
    if q in Merged(t).tables {
      forall n | n in cols
        ensures n in ByName(Merged(t).tables[q].columns) <==>
          !(q in t.base.tables && n in ByName(t.base.tables[q].columns) && n !in ByName(o.tables[q].columns))
      {
        ColumnFacts(q, b, m, r, n);
        ColumnStays(ColOf(b, n), ColOf(Lookup(a.tables, q), n), ColOf(Lookup(o.tables, q), n));
      }
    }
  }

  lemma ColumnStays(b: Option<Column>, a: Option<Column>, o: Option<Column>)
    requires a.Some? && !Clash(b, a, o)
    ensures Pick(b, a, o).Some? <==> !(b.Some? && o.None?)
    ensures Pick(b, o, a) == Pick(b, a, o)
  {}

  lemma SidesDisjoint(t: Three)
    requires ClosedSides(t)
    ensures Disjoint(t.base) && Disjoint(t.main) && Disjoint(t.branch)
  {}

  lemma TableStays(t: Three, q: QName)
    requires ClosedSides(t)
    ensures q in Merged(t).tables <==> Stays(q in t.base.tables, q in t.main.tables, q in t.branch.tables)
    ensures q in Merged(t).tables && q !in t.base.tables ==>
      (q in t.main.tables ==> Merged(t).tables[q] == t.main.tables[q]) &&
      (q in t.branch.tables ==> Merged(t).tables[q] == t.branch.tables[q])
  {
    TableEntry(t, q);
    EntryFacts(q, Lookup(t.base.tables, q), Lookup(t.main.tables, q), Lookup(t.branch.tables, q));
    hide ClosedSides, Merged, MergeTableEntry, TableConflicts;
  }

  /** What carries an index still does, unless the other side dropped it without replacing it. */
  lemma CarrierStays(t: Three, a: Schema, o: Schema, q: QName, cols: set<string>)
    requires ClosedSides(t) && Sides(t, a, o) && Carries(a, q, cols)
    ensures Carries(Merged(t), q, cols) <==> !HostDropped(t.base, a, o, q, cols)
  {
    hide ClosedSides, Merged, Disjoint, ByName, HasCols, ColumnsDropped;
    SidesDisjoint(t);
    MatviewStays(t, q);
    if HasCols(a, q, cols) {
      ColumnsStay(t, a, o, q, cols);
    }
    if HasCols(o, q, cols) {
      ColumnsStay(t, o, a, q, cols);
    }
    if q !in a.tables && HasCols(Merged(t), q, cols) {
      NoColumnsThere(t, a, o, q, cols);
    }
    NoColumnsDropped(t, o, q, cols);
    NoColumnsDropped(t, a, q, cols);
    NotBoth(t.base, q);
    NotBoth(a, q);
    NotBoth(o, q);
    CarrierLogic(HasCols(a, q, cols), HasCols(o, q, cols), q in t.base.matviews, q in a.matviews, q in o.matviews,
      ColumnsDropped(t.base, o, q, cols), ColumnsDropped(t.base, a, q, cols), HasCols(Merged(t), q, cols),
      q in t.base.tables);
  }

  lemma NotBoth(s: Schema, q: QName)
    requires Disjoint(s)
    ensures !(q in s.tables && q in s.matviews)
  {}

  /** ha, ho, hx: a side or the merge has the columns; mb, ma, mo: the materialized view;
      da, do': the columns are dropped by the other side of a, of o; tb: BASE has the table. */
  lemma CarrierLogic(ha: bool, ho: bool, mb: bool, ma: bool, mo: bool, da: bool, do': bool, hx: bool, tb: bool)
    requires ha || ma
    requires (ha ==> (hx <==> !da)) && (ho ==> (hx <==> !do')) && (ma && hx ==> ho)
    requires (da ==> tb && !ho) && (do' ==> tb && !ha) && !(tb && mb) && !(ha && ma) && !(ho && mo)
    ensures hx || Stays(mb, ma, mo) <==> !(!(ho || mo) && ((ha && da) || (ma && mb && !mo)))
  {}

  lemma NoColumnsDropped(t: Three, o: Schema, q: QName, cols: set<string>)
    ensures ColumnsDropped(t.base, o, q, cols) ==> q in t.base.tables && !HasCols(o, q, cols)
    ensures HasCols(o, q, cols) ==> q in o.tables
  {}

  /** A table that neither side has with these columns is not in the merge with them. */
  lemma NoColumnsThere(t: Three, a: Schema, o: Schema, q: QName, cols: set<string>)
    requires ClosedSides(t) && Sides(t, a, o) && q !in a.tables && HasCols(Merged(t), q, cols)
    ensures HasCols(o, q, cols)
  {
    TableStays(t, q);
    hide ClosedSides, Merged, ByName;
  }

  // ---------- kind by kind ----------

  // What an object of the merge needs, kind by kind.

  ghost predicate TableFine(x: Schema, q: QName) {
    q in x.tables ==> q.schema in x.schemas && TableOk(x.tables[q])
  }

  ghost predicate IndexFine(x: Schema, i: QName) {
    i in x.indexes ==> IndexOk(x, i)
  }

  ghost predicate ConstraintFine(x: Schema, k: ConName) {
    k in x.constraints ==> ConstraintOk(x, k)
  }

  ghost predicate ViewFine(x: Schema, q: QName) {
    q in x.views || q in x.matviews ==> q.schema in x.schemas
  }

  ghost predicate FunctionFine(x: Schema, f: FnName) {
    f in x.functions ==> f.schema in x.schemas
  }

  ghost predicate SequenceFine(x: Schema, q: QName) {
    q in x.sequences ==> q.schema in x.schemas && OwnerOk(x, x.sequences[q]) && SequenceOk(x.sequences[q])
  }

  lemma ClosedIff(x: Schema)
    ensures Closed(x) <==>
      && (forall q :: TableFine(x, q)) && (forall i :: IndexFine(x, i)) && (forall k :: ConstraintFine(x, k))
      && (forall q :: ViewFine(x, q)) && (forall f :: FunctionFine(x, f)) && (forall q :: SequenceFine(x, q))
      && Disjoint(x)
  {
    hide TableOk, IndexOk, ConstraintOk, OwnerOk, SequenceOk, Disjoint;
    if Closed(x) {
      assert forall q :: TableFine(x, q);
    } else if (forall q :: TableFine(x, q)) && (forall i :: IndexFine(x, i)) && (forall k :: ConstraintFine(x, k))
      && (forall q :: ViewFine(x, q)) && (forall f :: FunctionFine(x, f)) && (forall q :: SequenceFine(x, q)) {
      forall q | q in x.tables ensures q.schema in x.schemas && TableOk(x.tables[q]) { assert TableFine(x, q); }
      forall i | i in x.indexes ensures IndexOk(x, i) { assert IndexFine(x, i); }
      forall k | k in x.constraints ensures ConstraintOk(x, k) { assert ConstraintFine(x, k); }
      forall q | q in x.views || q in x.matviews ensures q.schema in x.schemas { assert ViewFine(x, q); }
      forall f | f in x.functions ensures f.schema in x.schemas { assert FunctionFine(x, f); }
      forall q | q in x.sequences
        ensures q.schema in x.schemas && OwnerOk(x, x.sequences[q]) && SequenceOk(x.sequences[q]) {
        assert SequenceFine(x, q);
      }
    }
  }

  lemma IndexIff(t: Three, i: QName)
    requires ClosedSides(t)
    ensures IndexFine(Merged(t), i) <==>
      IndexStands(t.base, t.main, t.branch, i) && IndexStands(t.base, t.branch, t.main, i)
  {
    var b, m, r := t.base, t.main, t.branch;
    PartsConflictFree(t);
    WholeFacts(b.indexes, m.indexes, r.indexes, i);
    assert Lookup(Merged(t).indexes, i) == Lookup(MergeMaps(b.indexes, m.indexes, r.indexes), i);
    if i in m.indexes {
      IndexOnSide(t, m, r, i);
    }
    if i in r.indexes {
      IndexOnSide(t, r, m, i);
    }
    hide ClosedSides, Merged, MergeMaps, Clashes, IndexOk, HostDropped, SchemaDropped;
  }

  /** The merge holds the index as one side has it. */
  lemma IndexOnSide(t: Three, a: Schema, o: Schema, i: QName)
    requires ClosedSides(t) && Sides(t, a, o) && i in a.indexes
    ensures var stands := !SchemaDropped(t.base, o, i.schema) &&
        !HostDropped(t.base, a, o, TableOfIndex(i, a.indexes[i]), a.indexes[i].definition.cols);
      && (i in Merged(t).indexes && Merged(t).indexes[i] == a.indexes[i] ==> (IndexOk(Merged(t), i) <==> stands))
      && (i in o.indexes && o.indexes[i] == a.indexes[i] ==> stands)
  {
    assert IndexOk(a, i);
    assert i in o.indexes ==> IndexOk(o, i);
    SchemaStays(t, a, o, i.schema);
    CarrierStays(t, a, o, TableOfIndex(i, a.indexes[i]), a.indexes[i].definition.cols);
    hide ClosedSides, Merged, HasCols;
  }

  lemma ConstraintIff(t: Three, k: ConName)
    requires ClosedSides(t)
    ensures ConstraintFine(Merged(t), k) <==>
      ConstraintStands(t.base, t.main, t.branch, k) && ConstraintStands(t.base, t.branch, t.main, k)
  {
    var b, m, r := t.base, t.main, t.branch;
    PartsConflictFree(t);
    WholeFacts(b.constraints, m.constraints, r.constraints, k);
    assert Lookup(Merged(t).constraints, k) == Lookup(MergeMaps(b.constraints, m.constraints, r.constraints), k);
    if k in m.constraints {
      ConstraintOnSide(t, m, r, k);
    }
    if k in r.constraints {
      ConstraintOnSide(t, r, m, k);
    }
    hide ClosedSides, Merged, MergeMaps, Clashes, ConstraintOk, ColumnsDropped, TableDropped;
  }

  lemma ConstraintOnSide(t: Three, a: Schema, o: Schema, k: ConName)
    requires ClosedSides(t) && Sides(t, a, o) && k in a.constraints
    ensures var d := a.constraints[k];
      var stands := !ColumnsDropped(t.base, o, k.table, d.cols) &&
        (d.refs.Some? ==> !TableDropped(t.base, o, d.refs.value));
      && (k in Merged(t).constraints && Merged(t).constraints[k] == d ==> (ConstraintOk(Merged(t), k) <==> stands))
      && (k in o.constraints && o.constraints[k] == d ==> stands)
  {
    var d := a.constraints[k];
    assert ConstraintOk(a, k);
    assert k in o.constraints ==> ConstraintOk(o, k);
    ColumnsStay(t, a, o, k.table, d.cols);
    if d.refs.Some? {
      TableStays(t, d.refs.value);
    }
    hide ClosedSides, Merged, ByName;
  }

  lemma SequenceIff(t: Three, q: QName)
    requires ClosedSides(t)
    ensures SequenceFine(Merged(t), q) <==>
      SequenceStands(t.base, t.main, t.branch, q) && SequenceStands(t.base, t.branch, t.main, q)
  {
    var b, m, r := t.base, t.main, t.branch;
    PartsConflictFree(t);
    WholeFacts(b.sequences, m.sequences, r.sequences, q);
    assert Lookup(Merged(t).sequences, q) == Lookup(MergeMaps(b.sequences, m.sequences, r.sequences), q);
    if q in m.sequences {
      SequenceOnSide(t, m, r, q);
    }
    if q in r.sequences {
      SequenceOnSide(t, r, m, q);
    }
    hide ClosedSides, Merged, MergeMaps, Clashes, OwnerOk, SequenceOk, ColumnsDropped, SchemaDropped;
  }

  lemma SequenceOnSide(t: Three, a: Schema, o: Schema, q: QName)
    requires ClosedSides(t) && Sides(t, a, o) && q in a.sequences
    ensures var (s, x) := (a.sequences[q], Merged(t));
      var stands := !SchemaDropped(t.base, o, q.schema) &&
        (s.ownedBy.Some? ==> !ColumnsDropped(t.base, o, s.ownedBy.value.table, {s.ownedBy.value.column}));
      && (q in x.sequences && x.sequences[q] == s ==> (SequenceFine(x, q) <==> stands))
      && (q in o.sequences && o.sequences[q] == s ==> stands)
  {
    var w := a.sequences[q].ownedBy;
    assert q.schema in a.schemas && OwnerOk(a, a.sequences[q]) && SequenceOk(a.sequences[q]);
    assert q in o.sequences ==> q.schema in o.schemas && OwnerOk(o, o.sequences[q]);
    SchemaStays(t, a, o, q.schema);
    if w.Some? {
      ColumnsStay(t, a, o, w.value.table, {w.value.column});
    }
    hide ClosedSides, Merged, ByName, SequenceOk;
  }

  /** An object that needs no more than its schema. */
  lemma PlainIff<K, V>(t: Three, b: map<K, V>, m: map<K, V>, r: map<K, V>, k: K, n: string)
    requires ClosedSides(t) && Clashes(b, m, r) == {}
    requires (k in m ==> n in t.main.schemas) && (k in r ==> n in t.branch.schemas)
    ensures (k in MergeMaps(b, m, r) ==> n in Merged(t).schemas) <==>
      && (OnlyOn(Lookup(b, k), Lookup(m, k), Lookup(r, k)) ==> !SchemaDropped(t.base, t.branch, n))
      && (OnlyOn(Lookup(b, k), Lookup(r, k), Lookup(m, k)) ==> !SchemaDropped(t.base, t.main, n))
  {
    WholeFacts(b, m, r, k);
    SchemaStays(t, t.main, t.branch, n);
    SchemaStays(t, t.branch, t.main, n);
    hide ClosedSides, Merged, MergeMaps, Clashes;
  }

  lemma ViewIff(t: Three, q: QName)
    requires ClosedSides(t)
    ensures ViewFine(Merged(t), q) <==>
      ViewStands(t.base, t.main, t.branch, q) && ViewStands(t.base, t.branch, t.main, q)
  {
    PartsConflictFree(t);
    MergedParts(t);
    PlainSchemas(t);
    hide ClosedSides, Merged, SchemaDropped, OnlyOn, MergeMaps, Clashes;
    PlainIff(t, t.base.views, t.main.views, t.branch.views, q, q.schema);
    PlainIff(t, t.base.matviews, t.main.matviews, t.branch.matviews, q, q.schema);
  }

  lemma FunctionIff(t: Three, f: FnName)
    requires ClosedSides(t)
    ensures FunctionFine(Merged(t), f) <==>
      FunctionStands(t.base, t.main, t.branch, f) && FunctionStands(t.base, t.branch, t.main, f)
  {
    PartsConflictFree(t);
    MergedParts(t);
    PlainSchemas(t);
    hide ClosedSides, Merged, SchemaDropped, OnlyOn, MergeMaps, Clashes;
    PlainIff(t, t.base.functions, t.main.functions, t.branch.functions, f, f.schema);
  }

  lemma KeyKept(t: Three, a: Schema, o: Schema, q: QName, n: string)
    requires ClosedSides(t) && Sides(t, a, o)
    requires q in t.base.tables && q in a.tables && q in o.tables && q in Merged(t).tables && Firm(a.tables[q], n)
    ensures Firm(Merged(t).tables[q], n) <==> !(Firm(t.base.tables[q], n) && !Firm(o.tables[q], n))
  {
    hide ClosedSides, Merged, MergeTableEntry, TableConflicts, ByName;
    var b, m, r := Lookup(t.base.tables, q), Lookup(t.main.tables, q), Lookup(t.branch.tables, q);
    TableEntry(t, q);
    ColumnFacts(q, b, m, r, n);
  }

  lemma PkFirm(t: Table)
    ensures PkOk(t) <==> (t.pk.Some? ==> t.pk.value != [] && forall n :: n in t.pk.value ==> Firm(t, n))
  {}

  /** A key that is one side's, on a table where columns are kept unless the other side let
      go of them. */
  lemma KeyLogic(b: Table, a: Table, o: Table, x: Table)
    requires PkOk(a) && PkOk(o) && x.pk == a.pk && (a.pk == o.pk || o.pk == b.pk)
    requires forall n :: Firm(a, n) ==> (Firm(x, n) <==> !(Firm(b, n) && !Firm(o, n)))
    ensures PkOk(x) <==> !KeyLost(b, a, o) && !KeyLost(b, o, a)
  {
    PkFirm(a);
    PkFirm(o);
    PkFirm(x);
    hide PkOk, Firm;
  }

  /** The key of a merged table is one side's; it stands unless it is lost. */
  lemma KeyIff(t: Three, q: QName)
    requires ClosedSides(t) && q in t.base.tables && q in t.main.tables && q in t.branch.tables
    ensures q in Merged(t).tables
    ensures var (b, m, r) := (t.base.tables[q], t.main.tables[q], t.branch.tables[q]);
      PkOk(Merged(t).tables[q]) <==> !KeyLost(b, m, r) && !KeyLost(b, r, m)
  {
    var b, m, r := t.base.tables[q], t.main.tables[q], t.branch.tables[q];
    TableEntry(t, q);
    EntryFacts(q, Some(b), Some(m), Some(r));
    assert PkOk(m) && PkOk(r);
    hide ClosedSides, MergeTableEntry, TableConflicts, PkOk, Firm, KeyLost;
    var x := Merged(t).tables[q];
    forall n | Firm(m, n) ensures Firm(x, n) <==> !(Firm(b, n) && !Firm(r, n)) { KeyKept(t, t.main, t.branch, q, n); }
    forall n | Firm(r, n) ensures Firm(x, n) <==> !(Firm(b, n) && !Firm(m, n)) { KeyKept(t, t.branch, t.main, q, n); }
    hide Merged;
    if x.pk == m.pk && (m.pk == r.pk || r.pk == b.pk) {
      KeyLogic(b, m, r, x);
    } else {
      KeyLogic(b, r, m, x);
    }
  }

  lemma SideTablesOk(t: Three, q: QName)
    requires ClosedSides(t)
    ensures q in t.main.tables ==> TableOk(t.main.tables[q])
    ensures q in t.branch.tables ==> TableOk(t.branch.tables[q])
  {
    hide TableOk;
  }

  lemma ColumnsOk(t: Three, q: QName)
    requires ClosedSides(t) && q in Merged(t).tables
    ensures forall n :: n in ByName(Merged(t).tables[q].columns) ==> ColumnOk(ByName(Merged(t).tables[q].columns)[n])
  {
    hide ClosedSides, Merged, MergeTableEntry, TableConflicts, ByName, ColumnOk, PkOk, DistinctNames;
    var b, m, r := Lookup(t.base.tables, q), Lookup(t.main.tables, q), Lookup(t.branch.tables, q);
    SideTablesOk(t, q);
    TableEntry(t, q);
    forall n | n in ByName(Merged(t).tables[q].columns)
      ensures ColumnOk(ByName(Merged(t).tables[q].columns)[n]) { ColumnFacts(q, b, m, r, n); }
  }

  /** A table of the merge is sound iff its key is not lost. */
  lemma TableOkIff(t: Three, q: QName)
    requires ClosedSides(t) && q in Merged(t).tables
    ensures TableOk(Merged(t).tables[q]) <==>
      (q in t.base.tables && q in t.main.tables && q in t.branch.tables ==>
        !KeyLost(t.base.tables[q], t.main.tables[q], t.branch.tables[q]) &&
        !KeyLost(t.base.tables[q], t.branch.tables[q], t.main.tables[q]))
  {
    TableStays(t, q);
    ColumnsOk(t, q);
    SidesOk(t);
    MergedTableOk(t, q);
    if q in t.base.tables {
      KeyIff(t, q);
      hide ClosedSides, Merged, KeyLost, PkOk;
    } else {
      SideTablesOk(t, q);
      hide ClosedSides, Merged, TableOk;
    }
  }

  lemma TableIff(t: Three, q: QName)
    requires ClosedSides(t)
    ensures TableFine(Merged(t), q) <==>
      TableStands(t.base, t.main, t.branch, q) && TableStands(t.base, t.branch, t.main, q)
  {
    hide ClosedSides, Merged, KeyLost, TableOk;
    TableStays(t, q);
    SchemaStays(t, t.main, t.branch, q.schema);
    SchemaStays(t, t.branch, t.main, q.schema);
    TableSchemas(t, q);
    if q in Merged(t).tables {
      TableOkIff(t, q);
    }
  }

  lemma TableSchemas(t: Three, q: QName)
    requires ClosedSides(t)
    ensures q in t.main.tables ==> q.schema in t.main.schemas
    ensures q in t.branch.tables ==> q.schema in t.branch.schemas
  {}

  lemma KindStays(t: Three, x: Kind, q: QName)
    requires ClosedSides(t)
    ensures HoldsIn(Merged(t), x, q) <==>
      Stays(HoldsIn(t.base, x, q), HoldsIn(t.main, x, q), HoldsIn(t.branch, x, q))
  {
    PartsConflictFree(t);
    match x
    case ATable => TableStays(t, q);
    case AnIndex => WholeFacts(t.base.indexes, t.main.indexes, t.branch.indexes, q);
    case AView => WholeFacts(t.base.views, t.main.views, t.branch.views, q);
    case AMatview => WholeFacts(t.base.matviews, t.main.matviews, t.branch.matviews, q);
    case ASequence => WholeFacts(t.base.sequences, t.main.sequences, t.branch.sequences, q);
    hide ClosedSides, MergeMaps, Clashes, MergedTableMap;
  }

  ghost predicate OneKind(s: Schema, q: QName) {
    forall x, y :: HoldsIn(s, x, q) && HoldsIn(s, y, q) ==> x == y
  }

  /** Disjointness, name by name. */
  lemma DisjointIff(s: Schema)
    ensures Disjoint(s) <==> forall q :: OneKind(s, q)
  {
    if Disjoint(s) {
      forall q, x, y | HoldsIn(s, x, q) && HoldsIn(s, y, q) ensures x == y { OneKindIn(s, x, y, q); }
    }
    if forall q :: OneKind(s, q) {
      forall q { KindsOf(s, q); }
      hide HoldsIn;
    }
  }

  lemma KindsOf(s: Schema, q: QName)
    requires OneKind(s, q)
    ensures q in s.tables ==> q !in s.indexes && q !in s.views && q !in s.matviews && q !in s.sequences
    ensures q in s.indexes ==> q !in s.views && q !in s.matviews && q !in s.sequences
    ensures q in s.views ==> q !in s.matviews && q !in s.sequences
    ensures q in s.matviews ==> q !in s.sequences
  {
    assert q in s.tables ==> HoldsIn(s, ATable, q);
    assert q in s.indexes ==> HoldsIn(s, AnIndex, q);
    assert q in s.views ==> HoldsIn(s, AView, q);
    assert q in s.matviews ==> HoldsIn(s, AMatview, q);
    assert q in s.sequences ==> HoldsIn(s, ASequence, q);
  }

  lemma KindsAtIff(t: Three, q: QName)
    requires ClosedSides(t) && OneKind(t.main, q) && OneKind(t.branch, q)
    ensures OneKind(Merged(t), q) <==> KindsAgreeAt(t, q)
  {
    forall x ensures HoldsIn(Merged(t), x, q) <==>
      Stays(HoldsIn(t.base, x, q), HoldsIn(t.main, x, q), HoldsIn(t.branch, x, q)) { KindStays(t, x, q); }
    hide ClosedSides, Merged, HoldsIn;
    if OneKind(Merged(t), q) {
      forall x, y | Added(t.base, t.main, x, q) && Added(t.base, t.branch, y, q) ensures x == y {
        assert HoldsIn(Merged(t), x, q) && HoldsIn(Merged(t), y, q);
      }
    }
    if KindsAgreeAt(t, q) {
      forall x, y | HoldsIn(Merged(t), x, q) && HoldsIn(Merged(t), y, q) ensures x == y {
        TwoKinds(t, q, x, y);
      }
    }
  }

  lemma TwoKinds(t: Three, q: QName, x: Kind, y: Kind)
    requires OneKind(t.main, q) && OneKind(t.branch, q) && KindsAgreeAt(t, q)
    requires Stays(HoldsIn(t.base, x, q), HoldsIn(t.main, x, q), HoldsIn(t.branch, x, q))
    requires Stays(HoldsIn(t.base, y, q), HoldsIn(t.main, y, q), HoldsIn(t.branch, y, q))
    ensures x == y
  {
    hide HoldsIn;
    assert Added(t.base, t.main, x, q) && Added(t.base, t.branch, y, q) ==> x == y;
    assert Added(t.base, t.main, y, q) && Added(t.base, t.branch, x, q) ==> x == y;
  }

  lemma KindsIff(t: Three)
    requires ClosedSides(t)
    ensures Disjoint(Merged(t)) <==> KindsAgree(t)
  {
    hide ClosedSides, Merged, Disjoint, OneKind, KindsAgreeAt;
    SidesDisjoint(t);
    DisjointIff(t.main);
    DisjointIff(t.branch);
    DisjointIff(Merged(t));
    forall q ensures OneKind(Merged(t), q) <==> KindsAgreeAt(t, q) { KindsAtIff(t, q); }
  }

  lemma CompatibleIsFine(t: Three)
    requires ClosedSides(t) && Compatible(t)
    ensures var x := Merged(t);
      && (forall q :: TableFine(x, q)) && (forall i :: IndexFine(x, i)) && (forall k :: ConstraintFine(x, k))
      && (forall q :: ViewFine(x, q)) && (forall f :: FunctionFine(x, f)) && (forall q :: SequenceFine(x, q))
  {
    hide ClosedSides, Merged, TableFine, IndexFine, ConstraintFine, ViewFine, FunctionFine, SequenceFine, TableStands,
      IndexStands, ConstraintStands, ViewStands, FunctionStands, SequenceStands, KindsAgree;
    var x := Merged(t);
    forall q ensures TableFine(x, q) { TableIff(t, q); }
    forall i ensures IndexFine(x, i) { IndexIff(t, i); }
    forall k ensures ConstraintFine(x, k) { ConstraintIff(t, k); }
    forall q ensures ViewFine(x, q) { ViewIff(t, q); }
    forall f ensures FunctionFine(x, f) { FunctionIff(t, f); }
    forall q ensures SequenceFine(x, q) { SequenceIff(t, q); }
  }

  lemma FineStands(t: Three, a: Schema, o: Schema)
    requires ClosedSides(t) && Sides(t, a, o)
    requires var x := Merged(t);
      && (forall q :: TableFine(x, q)) && (forall i :: IndexFine(x, i)) && (forall k :: ConstraintFine(x, k))
      && (forall q :: ViewFine(x, q)) && (forall f :: FunctionFine(x, f)) && (forall q :: SequenceFine(x, q))
    ensures Stands(t.base, a, o)
  {
    hide ClosedSides, Merged, TableFine, IndexFine, ConstraintFine, ViewFine, FunctionFine, SequenceFine, TableStands,
      IndexStands, ConstraintStands, ViewStands, FunctionStands, SequenceStands;
    var b := t.base;
    forall q ensures TableStands(b, a, o, q) { TableIff(t, q); }
    forall i ensures IndexStands(b, a, o, i) { IndexIff(t, i); }
    forall k ensures ConstraintStands(b, a, o, k) { ConstraintIff(t, k); }
    forall q ensures ViewStands(b, a, o, q) { ViewIff(t, q); }
    forall f ensures FunctionStands(b, a, o, f) { FunctionIff(t, f); }
    forall q ensures SequenceStands(b, a, o, q) { SequenceIff(t, q); }
  }

  /** For closed schemas that merge without conflict: the merge is closed if and only if
      nothing that one side alone added or changed refers to what only the other dropped, no
      key of one side is on a column that the other dropped or made nullable, and no name
      is given two kinds. */
  lemma MergedClosedIff(t: Three)
    requires ClosedSides(t)
    ensures Closed(Merged(t)) <==> Compatible(t)
  {
    ClosedIff(Merged(t));
    KindsIff(t);
    hide ClosedSides, Merged, TableFine, IndexFine, ConstraintFine, ViewFine, FunctionFine, SequenceFine, TableStands,
      IndexStands, ConstraintStands, ViewStands, FunctionStands, SequenceStands, Disjoint, KindsAgree, Closed, Stands;
    if Compatible(t) {
      CompatibleIsFine(t);
    }
    if Closed(Merged(t)) {
      FineStands(t, t.main, t.branch);
      FineStands(t, t.branch, t.main);
    }
  }

  lemma MergedParts(t: Three)
    ensures Merged(t).views == MergeMaps(t.base.views, t.main.views, t.branch.views)
    ensures Merged(t).matviews == MergeMaps(t.base.matviews, t.main.matviews, t.branch.matviews)
    ensures Merged(t).functions == MergeMaps(t.base.functions, t.main.functions, t.branch.functions)
  {}

  lemma PlainSchemas(t: Three)
    requires ClosedSides(t)
    ensures forall q :: q in t.main.views || q in t.main.matviews ==> q.schema in t.main.schemas
    ensures forall q :: q in t.branch.views || q in t.branch.matviews ==> q.schema in t.branch.schemas
    ensures forall f :: f in t.main.functions ==> f.schema in t.main.schemas
    ensures forall f :: f in t.branch.functions ==> f.schema in t.branch.schemas
  {}
}
