/** The three-way diff as a whole: schemas first, then table by table, and one script that is
    empty as soon as anything is in conflict. */
module CrossDiff {
  import opened Types
  import opened Catalog
  import opened SchemaMerge
  import Ddl
  import DdlLimits
  import DdlDrift
  import RowMerge
  import NoPkMerge

  /** A table that BRANCH alone has, with its rows. */
  datatype Fresh = Fresh(name: QName, rows: seq<Row>)

  /** A table on all three sides, with what the diff read of it. */
  datatype Part =
    | Keyed(name: QName, sides: RowMerge.Sides, candidates: seq<Key>)
    | Keyless(name: QName, added: set<string>, counts: NoPkMerge.Counts, rows: seq<Row>)

  /** A line of the script. */
  datatype Line =
    | SchemaLine(ddl: Ddl.Stmt)
    | FreshRow(table: QName, row: Row)
    | KeyedRow(table: QName, stmt: RowMerge.Stmt)
    | KeylessRow(table: QName, statement: NoPkMerge.Stmt)

  datatype Conflict =
    | OfSchema(key: ObjectKey)
    | OfRow(table: QName, conflict: RowMerge.RowConflict)
    | OfCount(table: QName, row: Row)

  // ---------- one table ----------

  function PartConflicts(p: Part): set<Conflict> {
    match p
    case Keyed(q, s, ks) => set x | x in RowMerge.Conflicts(s, ks) :: OfRow(q, x)
    case Keyless(q, added, c, rows) => set r | r in NoPkMerge.Reported(added, c, rows) :: OfCount(q, r)
  }

  function KeyedLines(q: QName, es: seq<RowMerge.Stmt>): seq<Line> {
    seq(|es|, i requires 0 <= i < |es| => KeyedRow(q, es[i]))
  }

  function KeylessLines(q: QName, es: seq<NoPkMerge.Stmt>): seq<Line> {
    seq(|es|, i requires 0 <= i < |es| => KeylessRow(q, es[i]))
  }

  /** The lines of a table, when nothing is in conflict. */
  function PartLines(p: Part): seq<Line> {
    match p
    case Keyed(q, s, ks) => KeyedLines(q, RowMerge.Statements(s, ks))
    case Keyless(q, added, c, rows) => KeylessLines(q, NoPkMerge.Written(added, c, rows))
  }

  method MergePart(p: Part, earlierConflicts: bool) returns (lines: seq<Line>, conflicts: set<Conflict>)
    ensures conflicts == PartConflicts(p)
    ensures !earlierConflicts && conflicts == {} ==> lines == PartLines(p)
    ensures conflicts != {} ==> lines == []
  {
    hide RowMerge.Conflicts, RowMerge.Statements, NoPkMerge.Reported, NoPkMerge.Written;
    match p
    case Keyed(q, s, ks) =>
      var stmts, found, _ := RowMerge.MergeTable(s, ks, earlierConflicts);
      lines := KeyedLines(q, stmts);
      conflicts := set x | x in found :: OfRow(q, x);
      assert found != [] ==> OfRow(q, found[0]) in conflicts;
    case Keyless(q, added, c, rows) =>
      var stmts, found, _, _ := NoPkMerge.MergeRows(added, c, rows);
      lines := KeylessLines(q, stmts);
      conflicts := set r | r in found :: OfCount(q, r);
  }

  // ---------- all tables ----------

  function RowConflicts(parts: seq<Part>): set<Conflict> {
    if parts == [] then {} else RowConflicts(parts[..|parts| - 1]) + PartConflicts(parts[|parts| - 1])
  }

  function RowLines(parts: seq<Part>): seq<Line> {
    if parts == [] then [] else RowLines(parts[..|parts| - 1]) + PartLines(parts[|parts| - 1])
  }

  function FreshLines(f: Fresh): seq<Line> {
    seq(|f.rows|, i requires 0 <= i < |f.rows| => FreshRow(f.name, f.rows[i]))
  }

  function AllFresh(arrivals: seq<Fresh>): seq<Line> {
    if arrivals == [] then [] else AllFresh(arrivals[..|arrivals| - 1]) + FreshLines(arrivals[|arrivals| - 1])
  }

  function SchemaLines(es: seq<Ddl.Stmt>): seq<Line> {
    seq(|es|, i requires 0 <= i < |es| => SchemaLine(es[i]))
  }

  /** What is reported: conflicts of the schemas alone, or else those of all tables. */
  function AllConflicts(t: Three, parts: seq<Part>): set<Conflict> {
    if Conflicts(t) != {} then SchemaConflicts(Conflicts(t)) else RowConflicts(parts)
  }

  function SchemaConflicts(keys: set<ObjectKey>): set<Conflict> {
    set k | k in keys :: OfSchema(k)
  }

  lemma SomeSchemaConflict(keys: set<ObjectKey>)
    ensures SchemaConflicts(keys) == {} <==> keys == {}
  {
    if keys != {} {
      var k :| k in keys;
      assert OfSchema(k) in SchemaConflicts(keys);
    }
  }

  /** The tables: rows of the new ones, then the merges one by one. */
  method MergeTables(arrivals: seq<Fresh>, parts: seq<Part>) returns (dml: seq<Line>, conflicts: set<Conflict>)
    ensures conflicts == RowConflicts(parts)
    ensures conflicts == {} ==> dml == AllFresh(arrivals) + RowLines(parts)
  {
    hide PartConflicts, PartLines, FreshLines;
    dml := [];
    for i := 0 to |arrivals|
      invariant dml == AllFresh(arrivals[..i])
    {
      assert arrivals[..i + 1][..i] == arrivals[..i];
      dml := dml + FreshLines(arrivals[i]);
    }
    assert arrivals[..|arrivals|] == arrivals;
    conflicts := {};
    for i := 0 to |parts|
      invariant conflicts == RowConflicts(parts[..i])
      invariant conflicts == {} ==> dml == AllFresh(arrivals) + RowLines(parts[..i])
    {
      assert parts[..i + 1][..i] == parts[..i];
      var lines, found := MergePart(parts[i], conflicts != {});
      dml := dml + lines;
      conflicts := conflicts + found;
    }
    assert parts[..|parts|] == parts;
  }

  /** The whole diff. A schema conflict ends it before any row is compared; a conflict in any
      table leaves the script empty, also when tables before it were written. */
  method CrossDiff3Way(t: Three, order: seq<ObjectKey>, arrivals: seq<Fresh>, parts: seq<Part>)
    returns (script: seq<Line>, pre: seq<Ddl.Stmt>, dml: seq<Line>, post: seq<Ddl.Stmt>, conflicts: set<Conflict>)
    requires TablesOk(t.main) && TablesOk(t.branch)
    ensures conflicts == AllConflicts(t, parts)
    ensures script == if conflicts == {} then SchemaLines(pre) + dml + SchemaLines(post) else []
    ensures conflicts == {} ==> dml == AllFresh(arrivals) + RowLines(parts)
    ensures Conflicts(t) != {} ==> dml == []
    ensures pre + post == DdlLimits.Everything(DdlDrift.AgainstMain(t, order))
    ensures forall e :: e in pre ==> Ddl.BeforeData(DdlDrift.AgainstMain(t, order), e)
    ensures forall e :: e in post ==> Ddl.AfterData(DdlDrift.AgainstMain(t, order), e)
  {
    hide Conflicts, DdlLimits.Everything, Ddl.BeforeData, Ddl.AfterData, RowConflicts, RowLines, AllFresh,
      SchemaConflicts, AllDrifts;
    var keys, drifts;
    pre, post, keys, drifts := DdlDrift.DiffSchemas3Way(t, order);
    SomeSchemaConflict(keys);
    if keys != {} {
      return [], pre, [], post, SchemaConflicts(keys);
    }
    dml, conflicts := MergeTables(arrivals, parts);
    script := if conflicts == {} then SchemaLines(pre) + dml + SchemaLines(post) else [];
  }

  // ---------- what it means ----------

  /** What the diff read of a table is enough to tell all its changes. */
  ghost predicate PartOk(p: Part, cols: set<string>, whole: NoPkMerge.Tables) {
    match p
    case Keyed(_, s, ks) => RowMerge.Shaped(s, cols) && RowMerge.Complete(s, ks) && RowMerge.Distinct(ks)
    case Keyless(_, added, c, rows) => NoPkMerge.Faithful(c, whole, rows)
  }

  /** Both sides changed the table in a way that cannot be merged. */
  ghost predicate Irreconcilable(p: Part, whole: NoPkMerge.Tables) {
    match p
    case Keyed(_, s, _) => exists k :: RowMerge.Disagree(s, k)
    case Keyless(_, added, _, _) => added == {} && exists r :: NoPkMerge.Opposite(whole, r)
  }

  lemma PartConflictsIff(p: Part, cols: set<string>, whole: NoPkMerge.Tables)
    requires PartOk(p, cols, whole)
    ensures PartConflicts(p) != {} <==> Irreconcilable(p, whole)
  {
    hide RowMerge.Conflicts, RowMerge.Shaped, RowMerge.Complete, RowMerge.Disagree, NoPkMerge.Clashes,
      NoPkMerge.Faithful, NoPkMerge.Opposite;
    match p
    case Keyed(q, s, ks) =>
      RowMerge.ConflictIff(s, cols, ks);
      assert RowMerge.Conflicts(s, ks) != [] ==> OfRow(q, RowMerge.Conflicts(s, ks)[0]) in PartConflicts(p);
    case Keyless(q, added, c, rows) =>
      NoPkMerge.ClashIff(c, whole, rows);
      var reported := NoPkMerge.Reported(added, c, rows);
      assert reported != [] ==> OfCount(q, reported[0]) in PartConflicts(p);
  }

  lemma {:induction false} SomePartConflicts(parts: seq<Part>)
    ensures RowConflicts(parts) != {} <==> exists i :: 0 <= i < |parts| && PartConflicts(parts[i]) != {}
  {
    hide PartConflicts;
    if parts != [] {
      var front := parts[..|parts| - 1];
      SomePartConflicts(front);
      assert forall i :: 0 <= i < |front| ==> front[i] == parts[i];
    }
  }

  /** The diff reports a conflict, and so writes nothing at all, iff the schemas are in conflict
      or some table was changed irreconcilably. */
  lemma ConflictAnywhere(t: Three, parts: seq<Part>, cols: seq<set<string>>, whole: seq<NoPkMerge.Tables>)
    requires |cols| == |parts| == |whole| && forall i :: 0 <= i < |parts| ==> PartOk(parts[i], cols[i], whole[i])
    ensures AllConflicts(t, parts) != {} <==>
      Conflicts(t) != {} || exists i :: 0 <= i < |parts| && Irreconcilable(parts[i], whole[i])
  {
    hide Conflicts, PartConflicts, PartOk, Irreconcilable, SchemaConflicts;
    SomeSchemaConflict(Conflicts(t));
    SomePartConflicts(parts);
    forall i | 0 <= i < |parts| ensures PartConflicts(parts[i]) != {} <==> Irreconcilable(parts[i], whole[i]) {
      PartConflictsIff(parts[i], cols[i], whole[i]);
    }
  }

  /** The statements that the script runs on one table with a key. */
  function KeyedOf(q: QName, lines: seq<Line>): seq<RowMerge.Stmt> {
    if lines == [] then []
    else
      var e := lines[|lines| - 1];
      KeyedOf(q, lines[..|lines| - 1]) + if e.KeyedRow? && e.table == q then [e.stmt] else []
  }

  lemma {:induction false} KeyedOfConcat(q: QName, a: seq<Line>, b: seq<Line>)
    ensures KeyedOf(q, a + b) == KeyedOf(q, a) + KeyedOf(q, b)
  {
    if b == [] {
      assert a + b == a;
    } else {
      KeyedOfConcat(q, a, b[..|b| - 1]);
      assert (a + b)[..|a + b| - 1] == a + b[..|b| - 1];
    }
  }

  lemma {:induction false} NoKeyedOf(q: QName, lines: seq<Line>)
    requires forall i :: 0 <= i < |lines| ==> !(lines[i].KeyedRow? && lines[i].table == q)
    ensures KeyedOf(q, lines) == []
  {
    if lines != [] {
      NoKeyedOf(q, lines[..|lines| - 1]);
    }
  }

  lemma {:induction false} KeyedOfOwn(q: QName, es: seq<RowMerge.Stmt>)
    ensures KeyedOf(q, KeyedLines(q, es)) == es
  {
    if es != [] {
      var n := |es| - 1;
      KeyedOfOwn(q, es[..n]);
      assert KeyedLines(q, es)[..n] == KeyedLines(q, es[..n]);
      assert es == es[..n] + [es[n]];
    }
  }

  ghost predicate DistinctParts(parts: seq<Part>) {
    forall i, j :: 0 <= i < j < |parts| ==> parts[i].name != parts[j].name
  }

  lemma {:induction false} KeyedOfRows(parts: seq<Part>, q: QName)
    requires DistinctParts(parts)
    ensures forall i :: 0 <= i < |parts| && parts[i].Keyed? && parts[i].name == q ==>
      KeyedOf(q, RowLines(parts)) == RowMerge.Statements(parts[i].sides, parts[i].candidates)
    ensures (forall i :: 0 <= i < |parts| ==> parts[i].name != q) ==> KeyedOf(q, RowLines(parts)) == []
  {
    hide KeyedOf, PartLines, RowMerge.Statements;
    if parts == [] {
      NoKeyedOf(q, []);
    } else {
      var front, p := parts[..|parts| - 1], parts[|parts| - 1];
      KeyedOfRows(front, q);
      KeyedOfConcat(q, RowLines(front), PartLines(p));
      KeyedOfPart(p, q);
      assert forall i :: 0 <= i < |front| ==> front[i] == parts[i];
      if p.name != q {
        assert KeyedOf(q, RowLines(front)) + [] == KeyedOf(q, RowLines(front));
      }
    }
  }

  lemma KeyedOfPart(p: Part, q: QName)
    ensures KeyedOf(q, PartLines(p)) ==
      if p.Keyed? && p.name == q then RowMerge.Statements(p.sides, p.candidates) else []
  {
    hide KeyedOf, RowMerge.Statements, NoPkMerge.Written;
    if p.Keyed? && p.name == q {
      KeyedOfOwn(q, RowMerge.Statements(p.sides, p.candidates));
    } else {
      NoKeyedOf(q, PartLines(p));
    }
  }

  lemma {:induction false} FreshAreNotKeyed(arrivals: seq<Fresh>)
    ensures forall i :: 0 <= i < |AllFresh(arrivals)| ==> AllFresh(arrivals)[i].FreshRow?
  {
    if arrivals != [] {
      FreshAreNotKeyed(arrivals[..|arrivals| - 1]);
    }
  }

  /** Of a conflict-free script each table with a key gets exactly its own statements, in order;
      run on MAIN they leave the merge of that table, or stop at a unique value. */
  lemma ScriptMergesEveryTable(arrivals: seq<Fresh>, parts: seq<Part>, i: nat, cols: set<string>, us: Uniques,
                               pre: seq<Ddl.Stmt>, post: seq<Ddl.Stmt>)
    requires DistinctParts(parts) && RowConflicts(parts) == {} && i < |parts| && parts[i].Keyed?
    requires RowMerge.Shaped(parts[i].sides, cols) && RowMerge.Complete(parts[i].sides, parts[i].candidates)
    requires RowMerge.Distinct(parts[i].candidates)
    ensures var p := parts[i];
      var script := SchemaLines(pre) + (AllFresh(arrivals) + RowLines(parts)) + SchemaLines(post);
      match RowMerge.ExecuteAll(RowMerge.Extended(p.sides.main, p.sides.defaults), KeyedOf(p.name, script),
        p.sides.pk, us)
      case None => !RowMerge.UniquesFree(p.sides, us, RowMerge.INSERTS_FIRST, p.candidates)
      case Some(u) =>
        && RowMerge.UniquesFree(p.sides, us, RowMerge.INSERTS_FIRST, p.candidates)
        && forall k :: Lookup(u, k) == RowMerge.Merged(p.sides, k)
  {
    hide KeyedOf, PartLines, RowLines, AllFresh, RowMerge.Statements, RowMerge.Shaped, RowMerge.Complete,
      RowMerge.Distinct, RowMerge.UniquesFree, RowMerge.Merged, RowMerge.ExecuteAll, RowMerge.Extended,
      RowConflicts, RowMerge.Conflicts, PartConflicts;
    var p := parts[i];
    OwnStatements(arrivals, parts, i, pre, post);
    SomePartConflicts(parts);
    NoRowConflicts(p);
    RowMerge.MergeExact(p.sides, cols, p.candidates, us);
  }

  lemma OwnStatements(arrivals: seq<Fresh>, parts: seq<Part>, i: nat, pre: seq<Ddl.Stmt>, post: seq<Ddl.Stmt>)
    requires DistinctParts(parts) && i < |parts| && parts[i].Keyed?
    ensures KeyedOf(parts[i].name, SchemaLines(pre) + (AllFresh(arrivals) + RowLines(parts)) + SchemaLines(post)) ==
      RowMerge.Statements(parts[i].sides, parts[i].candidates)
  {
    var q := parts[i].name;
    FreshAreNotKeyed(arrivals);
    NoKeyedOf(q, SchemaLines(pre));
    NoKeyedOf(q, SchemaLines(post));
    NoKeyedOf(q, AllFresh(arrivals));
    hide KeyedOf, PartLines, RowLines, AllFresh, SchemaLines, RowMerge.Statements;
    KeyedOfConcat(q, AllFresh(arrivals), RowLines(parts));
    KeyedOfConcat(q, SchemaLines(pre), AllFresh(arrivals) + RowLines(parts));
    KeyedOfConcat(q, SchemaLines(pre) + (AllFresh(arrivals) + RowLines(parts)), SchemaLines(post));
    KeyedOfRows(parts, q);
    var es := RowMerge.Statements(parts[i].sides, parts[i].candidates);
    assert [] + ([] + es) + [] == es;
  }

  lemma NoRowConflicts(p: Part)
    requires p.Keyed?
    ensures PartConflicts(p) == {} ==> RowMerge.Conflicts(p.sides, p.candidates) == []
  {
    hide RowMerge.Conflicts;
    var found := RowMerge.Conflicts(p.sides, p.candidates);
    assert found != [] ==> OfRow(p.name, found[0]) in PartConflicts(p);
  }
}
