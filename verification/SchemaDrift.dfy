/** The drift report of the three-way schema merge: what it says and what it leaves out. */
module SchemaDrift {
  import opened Types
  import opened Catalog
  import opened SchemaMerge
  import opened SchemaLaws

  lemma DriftLookup<K, V>(b: map<K, V>, m: map<K, V>, r: map<K, V>, k: K)
    ensures k in Drifts(b, m, r) <==> Drift(Lookup(b, k), Lookup(m, k), Lookup(r, k))
    ensures k in Clashes(b, m, r) <==> Clash(Lookup(b, k), Lookup(m, k), Lookup(r, k))
  {}

  /** The key names neither a table nor a part of one. */
  ghost predicate Whole(k: ObjectKey) {
    !k.TableKey? && !k.ColumnKey? && !k.PkKey?
  }

  // ---------- tables ----------

  /** The table of the key, if it is about a table, a column or a primary key. */
  ghost predicate OfTable(k: ObjectKey, q: QName) {
    (k.TableKey? || k.ColumnKey? || k.PkKey?) && k.table == q
  }

  lemma OfItsTable(t: Three, q: QName, k: ObjectKey)
    requires k in DriftsAt(t, q) || k in ConflictsAt(t, q)
    ensures OfTable(k, q)
  {}

  lemma OnlyOfTables(t: Three, k: ObjectKey)
    requires k in AllTableDrifts(t) || k in AllTableConflicts(t)
    ensures k.TableKey? || k.ColumnKey? || k.PkKey?
    ensures k in AllTableDrifts(t) ==> k in DriftsAt(t, k.table)
    ensures k in AllTableConflicts(t) ==> k in ConflictsAt(t, k.table)
  {
    hide DriftsAt, ConflictsAt;
    if k in AllTableDrifts(t) {
      var p :| k in DriftsAt(t, p);
      OfItsTable(t, p, k);
    }
    if k in AllTableConflicts(t) {
      var p :| k in ConflictsAt(t, p);
      OfItsTable(t, p, k);
    }
  }

  lemma NotInTables(t: Three, k: ObjectKey)
    requires Whole(k)
    ensures k !in AllTableDrifts(t) && k !in AllTableConflicts(t)
  {
    hide AllTableDrifts, AllTableConflicts;
    if k in AllTableDrifts(t) || k in AllTableConflicts(t) {
      OnlyOfTables(t, k);
    }
  }

  /** The entries of a list, kind by kind. */
  lemma InReport(schemas: set<string>, tables: set<ObjectKey>, indexes: set<QName>, constraints: set<ConName>,
                 views: set<QName>, matviews: set<QName>, functions: set<FnName>, sequences: set<QName>, k: ObjectKey)
    ensures var list := (set n | n in schemas :: SchemaKey(n)) + tables +
        (set x | x in indexes :: IndexKey(x)) + (set x | x in constraints :: ConstraintKey(x)) +
        (set x | x in views :: ViewKey(x)) + (set x | x in matviews :: MatviewKey(x)) +
        (set x | x in functions :: FunctionKey(x)) + (set x | x in sequences :: SequenceKey(x));
      k in list <==> k in tables || match k
        case SchemaKey(n) => n in schemas
        case IndexKey(i) => i in indexes
        case ConstraintKey(c) => c in constraints
        case ViewKey(v) => v in views
        case MatviewKey(v) => v in matviews
        case FunctionKey(f) => f in functions
        case SequenceKey(n) => n in sequences
        case _ => false
  {}

  lemma DriftsByKind(t: Three, k: ObjectKey)
    ensures k in AllDrifts(t) <==> match k
      case SchemaKey(n) => n in Drifts(AsMap(t.base.schemas), AsMap(t.main.schemas), AsMap(t.branch.schemas))
      case IndexKey(i) => i in Drifts(t.base.indexes, t.main.indexes, t.branch.indexes)
      case ConstraintKey(c) => c in Drifts(t.base.constraints, t.main.constraints, t.branch.constraints)
      case ViewKey(v) => v in Drifts(t.base.views, t.main.views, t.branch.views)
      case MatviewKey(v) => v in Drifts(t.base.matviews, t.main.matviews, t.branch.matviews)
      case FunctionKey(f) => f in Drifts(t.base.functions, t.main.functions, t.branch.functions)
      case SequenceKey(n) => n in Drifts(t.base.sequences, t.main.sequences, t.branch.sequences)
      case _ => k in AllTableDrifts(t)
  {
    if Whole(k) {
      NotInTables(t, k);
    }
    hide AllTableDrifts, Drifts;
    InReport(Drifts(AsMap(t.base.schemas), AsMap(t.main.schemas), AsMap(t.branch.schemas)), AllTableDrifts(t),
      Drifts(t.base.indexes, t.main.indexes, t.branch.indexes),
      Drifts(t.base.constraints, t.main.constraints, t.branch.constraints),
      Drifts(t.base.views, t.main.views, t.branch.views),
      Drifts(t.base.matviews, t.main.matviews, t.branch.matviews),
      Drifts(t.base.functions, t.main.functions, t.branch.functions),
      Drifts(t.base.sequences, t.main.sequences, t.branch.sequences), k);
  }

  lemma ConflictsByKind(t: Three, k: ObjectKey)
    ensures k in Conflicts(t) <==> match k
      case SchemaKey(n) => n in Clashes(AsMap(t.base.schemas), AsMap(t.main.schemas), AsMap(t.branch.schemas))
      case IndexKey(i) => i in Clashes(t.base.indexes, t.main.indexes, t.branch.indexes)
      case ConstraintKey(c) => c in Clashes(t.base.constraints, t.main.constraints, t.branch.constraints)
      case ViewKey(v) => v in Clashes(t.base.views, t.main.views, t.branch.views)
      case MatviewKey(v) => v in Clashes(t.base.matviews, t.main.matviews, t.branch.matviews)
      case FunctionKey(f) => f in Clashes(t.base.functions, t.main.functions, t.branch.functions)
      case SequenceKey(n) => n in Clashes(t.base.sequences, t.main.sequences, t.branch.sequences)
      case _ => k in AllTableConflicts(t)
  {
    if Whole(k) {
      NotInTables(t, k);
    }
    hide AllTableConflicts, Clashes;
    InReport(Clashes(AsMap(t.base.schemas), AsMap(t.main.schemas), AsMap(t.branch.schemas)), AllTableConflicts(t),
      Clashes(t.base.indexes, t.main.indexes, t.branch.indexes),
      Clashes(t.base.constraints, t.main.constraints, t.branch.constraints),
      Clashes(t.base.views, t.main.views, t.branch.views),
      Clashes(t.base.matviews, t.main.matviews, t.branch.matviews),
      Clashes(t.base.functions, t.main.functions, t.branch.functions),
      Clashes(t.base.sequences, t.main.sequences, t.branch.sequences), k);
  }

  lemma InTableReports(t: Three, k: ObjectKey)
    requires !Whole(k)
    ensures k in AllDrifts(t) <==> k in DriftsAt(t, k.table)
    ensures k in Conflicts(t) <==> k in ConflictsAt(t, k.table)
  {
    hide Conflicts, AllDrifts, Drifts, Clashes;
    AtTable(t, k);
    DriftsByKind(t, k);
    ConflictsByKind(t, k);
    hide AllTableDrifts, AllTableConflicts, DriftsAt, ConflictsAt;
    if k in AllTableDrifts(t) || k in AllTableConflicts(t) {
      OnlyOfTables(t, k);
    }
  }

  lemma AtTable(t: Three, k: ObjectKey)
    requires !Whole(k)
    ensures k in DriftsAt(t, k.table) ==> k in AllTableDrifts(t)
    ensures k in ConflictsAt(t, k.table) ==> k in AllTableConflicts(t)
  {
    var q := k.table;
    if q !in AllKeys(t.base.tables, t.main.tables, t.branch.tables) {
      assert DriftsAt(t, q) == {} && ConflictsAt(t, q) == {};
    }
    hide DriftsAt, ConflictsAt;
  }

  // ---------- other objects ----------

  ghost predicate DriftsAtKey<K(!new), V>(b: map<K, V>, m: map<K, V>, r: map<K, V>, k: K) {
    Drift(Lookup(b, k), Lookup(m, k), Lookup(r, k))
  }

  ghost predicate ClashesAtKey<K(!new), V>(b: map<K, V>, m: map<K, V>, r: map<K, V>, k: K) {
    Clash(Lookup(b, k), Lookup(m, k), Lookup(r, k))
  }

  /** Only MAIN changed the object. */
  ghost predicate WholeDrift(t: Three, k: ObjectKey)
    requires Whole(k)
  {
    match k
    case SchemaKey(n) => DriftsAtKey(AsMap(t.base.schemas), AsMap(t.main.schemas), AsMap(t.branch.schemas), n)
    case IndexKey(i) => DriftsAtKey(t.base.indexes, t.main.indexes, t.branch.indexes, i)
    case ConstraintKey(c) => DriftsAtKey(t.base.constraints, t.main.constraints, t.branch.constraints, c)
    case ViewKey(v) => DriftsAtKey(t.base.views, t.main.views, t.branch.views, v)
    case MatviewKey(v) => DriftsAtKey(t.base.matviews, t.main.matviews, t.branch.matviews, v)
    case FunctionKey(f) => DriftsAtKey(t.base.functions, t.main.functions, t.branch.functions, f)
    case SequenceKey(n) => DriftsAtKey(t.base.sequences, t.main.sequences, t.branch.sequences, n)
  }

  /** Both sides changed the object, to different results. */
  ghost predicate WholeClash(t: Three, k: ObjectKey)
    requires Whole(k)
  {
    match k
    case SchemaKey(n) => ClashesAtKey(AsMap(t.base.schemas), AsMap(t.main.schemas), AsMap(t.branch.schemas), n)
    case IndexKey(i) => ClashesAtKey(t.base.indexes, t.main.indexes, t.branch.indexes, i)
    case ConstraintKey(c) => ClashesAtKey(t.base.constraints, t.main.constraints, t.branch.constraints, c)
    case ViewKey(v) => ClashesAtKey(t.base.views, t.main.views, t.branch.views, v)
    case MatviewKey(v) => ClashesAtKey(t.base.matviews, t.main.matviews, t.branch.matviews, v)
    case FunctionKey(f) => ClashesAtKey(t.base.functions, t.main.functions, t.branch.functions, f)
    case SequenceKey(n) => ClashesAtKey(t.base.sequences, t.main.sequences, t.branch.sequences, n)
  }

  lemma InWholeDrifts(t: Three, k: ObjectKey)
    requires Whole(k)
    ensures k in AllDrifts(t) <==> WholeDrift(t, k)
  {
    hide AllDrifts, Drifts, Clashes, Drift, Clash;
    DriftsByKind(t, k);
    match k
    case SchemaKey(n) =>
      DriftLookup(AsMap(t.base.schemas), AsMap(t.main.schemas), AsMap(t.branch.schemas), n);
    case IndexKey(i) => DriftLookup(t.base.indexes, t.main.indexes, t.branch.indexes, i);
    case ConstraintKey(c) => DriftLookup(t.base.constraints, t.main.constraints, t.branch.constraints, c);
    case ViewKey(v) => DriftLookup(t.base.views, t.main.views, t.branch.views, v);
    case MatviewKey(v) => DriftLookup(t.base.matviews, t.main.matviews, t.branch.matviews, v);
    case FunctionKey(f) => DriftLookup(t.base.functions, t.main.functions, t.branch.functions, f);
    case SequenceKey(n) => DriftLookup(t.base.sequences, t.main.sequences, t.branch.sequences, n);
  }

  lemma InWholeConflicts(t: Three, k: ObjectKey)
    requires Whole(k)
    ensures k in Conflicts(t) <==> WholeClash(t, k)
  {
    hide Conflicts, Drifts, Clashes, Drift, Clash;
    ConflictsByKind(t, k);
    match k
    case SchemaKey(n) =>
      DriftLookup(AsMap(t.base.schemas), AsMap(t.main.schemas), AsMap(t.branch.schemas), n);
    case IndexKey(i) => DriftLookup(t.base.indexes, t.main.indexes, t.branch.indexes, i);
    case ConstraintKey(c) => DriftLookup(t.base.constraints, t.main.constraints, t.branch.constraints, c);
    case ViewKey(v) => DriftLookup(t.base.views, t.main.views, t.branch.views, v);
    case MatviewKey(v) => DriftLookup(t.base.matviews, t.main.matviews, t.branch.matviews, v);
    case FunctionKey(f) => DriftLookup(t.base.functions, t.main.functions, t.branch.functions, f);
    case SequenceKey(n) => DriftLookup(t.base.sequences, t.main.sequences, t.branch.sequences, n);
  }

  // ---------- what MAIN changed is told ----------

  /** The key is in one of the two lists, or its whole table is. */
  ghost predicate Told(t: Three, k: ObjectKey) {
    || k in Conflicts(t) || k in AllDrifts(t)
    || ((k.ColumnKey? || k.PkKey?) && (TableKey(k.table) in Conflicts(t) || TableKey(k.table) in AllDrifts(t)))
  }

  /** MAIN changed what the key names, and BRANCH does not have the same. */
  ghost predicate MainMoved(t: Three, k: ObjectKey) {
    EntryOf(t.main, k) != EntryOf(t.base, k) && EntryOf(t.branch, k) != EntryOf(t.main, k)
  }

  /** A primary key that BRANCH left alone, of a table that it changed elsewhere. */
  ghost predicate QuietKey(t: Three, k: ObjectKey) {
    && k.PkKey? && k.table in t.base.tables && k.table in t.main.tables && k.table in t.branch.tables
    && t.branch.tables[k.table].pk == t.base.tables[k.table].pk
    && t.branch.tables[k.table] != t.base.tables[k.table]
  }

  /** The tables are merged column by column. */
  ghost predicate Columnwise(b: Option<Table>, m: Option<Table>, r: Option<Table>) {
    b != r && b.Some? && m.Some? && r.Some? && (b == m || r != m)
  }

  lemma InTableDrifts(k: ObjectKey, b: Option<Table>, m: Option<Table>, r: Option<Table>)
    requires !Whole(k)
    ensures k in TableDrifts(k.table, b, m, r) <==> match k
      case TableKey(_) => Drift(b, m, r)
      case ColumnKey(_, n) => Columnwise(b, m, r) && Drift(ColOf(b, n), ColOf(m, n), ColOf(r, n))
      case _ => false
  {
    if k.ColumnKey? && Columnwise(b, m, r) {
      DriftLookup(ByName(b.value.columns), ByName(m.value.columns), ByName(r.value.columns), k.column);
      hide Drifts, ByName;
    }
  }

  lemma InTableConflicts(k: ObjectKey, b: Option<Table>, m: Option<Table>, r: Option<Table>)
    requires !Whole(k)
    ensures k in TableConflicts(k.table, b, m, r) <==> match k
      case TableKey(_) => !Columnwise(b, m, r) && Clash(b, m, r)
      case ColumnKey(_, n) => Columnwise(b, m, r) && Clash(ColOf(b, n), ColOf(m, n), ColOf(r, n))
      case PkKey(_) => Columnwise(b, m, r) && Clash(Some(b.value.pk), Some(m.value.pk), Some(r.value.pk))
  {
    if k.ColumnKey? && Columnwise(b, m, r) {
      DriftLookup(ByName(b.value.columns), ByName(m.value.columns), ByName(r.value.columns), k.column);
      hide Clashes, ByName;
    }
  }

  lemma TableTold(t: Three, k: ObjectKey)
    requires MainMoved(t, k) && !Whole(k)
    ensures Told(t, k) <==> !QuietKey(t, k)
  {
    hide AllDrifts, Conflicts, TableDrifts, TableConflicts, ByName;
    var q := k.table;
    var b, m, r := Lookup(t.base.tables, q), Lookup(t.main.tables, q), Lookup(t.branch.tables, q);
    InTableReports(t, k);
    InTableReports(t, TableKey(q));
    InTableDrifts(k, b, m, r);
    InTableConflicts(k, b, m, r);
    InTableDrifts(TableKey(q), b, m, r);
    InTableConflicts(TableKey(q), b, m, r);
  }

  /** Everything that MAIN changed and BRANCH does not have is reported, as drift or as a
      conflict, except exactly primary keys that only MAIN changed, of tables that BRANCH
      changed elsewhere. */
  lemma MainIsToldIff(t: Three, k: ObjectKey)
    requires MainMoved(t, k)
    ensures Told(t, k) <==> !QuietKey(t, k)
  {
    hide AllDrifts, Conflicts;
    if Whole(k) {
      InWholeDrifts(t, k);
      InWholeConflicts(t, k);
    } else {
      hide Told, MainMoved, QuietKey;
      TableTold(t, k);
    }
  }

  // ---------- what is told is true ----------

  /** BRANCH has what BASE has, MAIN something else; tables are compared as a whole. */
  ghost predicate OnlyMainMoved(t: Three, k: ObjectKey) {
    if k.TableKey? then
      Drift(Lookup(t.base.tables, k.table), Lookup(t.main.tables, k.table), Lookup(t.branch.tables, k.table))
    else EntryOf(t.main, k) != EntryOf(t.base, k) && EntryOf(t.branch, k) == EntryOf(t.base, k)
  }

  lemma TableDriftIsTrue(t: Three, k: ObjectKey)
    requires k in AllDrifts(t) && !Whole(k)
    ensures OnlyMainMoved(t, k) && k !in Conflicts(t)
  {
    hide AllDrifts, Conflicts, TableDrifts, TableConflicts, ByName;
    var b, m, r := Lookup(t.base.tables, k.table), Lookup(t.main.tables, k.table), Lookup(t.branch.tables, k.table);
    InTableReports(t, k);
    InTableDrifts(k, b, m, r);
    InTableConflicts(k, b, m, r);
  }

  /** No reported drift is about anything that BRANCH changed, and none is in conflict. */
  lemma DriftIsTrue(t: Three, k: ObjectKey)
    requires k in AllDrifts(t)
    ensures OnlyMainMoved(t, k) && k !in Conflicts(t)
  {
    hide AllDrifts, Conflicts;
    if Whole(k) {
      InWholeDrifts(t, k);
      InWholeConflicts(t, k);
    } else {
      hide OnlyMainMoved;
      TableDriftIsTrue(t, k);
    }
  }

  /** MAIN gives a table its key while BRANCH adds a column: MAIN's change is in no list. */
  lemma KeyChangeIsQuiet(q: QName, a: Column, c: Column)
    requires a.name != c.name
    ensures var none := Schema({}, map[], map[], map[], map[], map[], map[], map[]);
      var t := Three(none.(tables := map[q := Table([a], None)]), none.(tables := map[q := Table([a], Some([a.name]))]),
        none.(tables := map[q := Table([a, c], None)]));
      MainMoved(t, PkKey(q)) && !Told(t, PkKey(q))
  {
    var none := Schema({}, map[], map[], map[], map[], map[], map[], map[]);
    var t := Three(none.(tables := map[q := Table([a], None)]), none.(tables := map[q := Table([a], Some([a.name]))]),
      none.(tables := map[q := Table([a, c], None)]));
    assert |[a]| != |[a, c]|;
    assert MainMoved(t, PkKey(q)) && QuietKey(t, PkKey(q));
    MainIsToldIff(t, PkKey(q));
  }
}
