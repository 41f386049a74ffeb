/** Three-way merge of the rows of one table with a primary key. */
module RowMerge {
  import opened Types

  type Table = map<Key, Row>

  /** One table on the three sides. `defaults` gives, for each column BRANCH added, the
      constant value of its DEFAULT expression. */
  datatype Sides = Sides(branch: Table, main: Table, base: Table, defaults: Row, pk: seq<string>)

  datatype Op = Noop | Insert | Update | Delete

  datatype Verdict = Skip | Drift(op: Op) | Apply(op: Op) | Conflict(branchOp: Op, mainOp: Op)

  /** A reported conflict, with what each side did to the row. */
  datatype RowConflict = RowConflict(key: Key, branchOp: Op, mainOp: Op)

  /** A reported change of MAIN alone. */
  datatype RowDrift = RowDrift(key: Key, mainOp: Op)

  datatype Stmt =
    | InsertRow(row: Row)
    | UpdateRow(key: Key, sets: Row)
    | DeleteRow(key: Key)

  // ---------- classification of one key ----------

  /** The added columns whose value differs from the default, as PostgreSQL reports them. */
  function Flagged(row: Row, defaults: Row): set<string> {
    set c | c in defaults && Get(row, c) != defaults[c]
  }

  predicate RowChanged(branch: Row, base: Row, flagged: set<string>) {
    (exists c :: c in base && Get(branch, c) != base[c]) || flagged != {}
  }

  function BranchOp(branch: Option<Row>, base: Option<Row>, defaults: Row): Op {
    match (branch, base)
    case (None, None) => Noop
    case (None, Some(_)) => Delete
    case (Some(_), None) => Insert
    case (Some(r), Some(b)) => if RowChanged(r, b, Flagged(r, defaults)) then Update else Noop
  }

  function MainOp(main: Option<Row>, base: Option<Row>): Op {
    match (main, base)
    case (None, None) => Noop
    case (None, Some(_)) => Delete
    case (Some(_), None) => Insert
    case (Some(m), Some(b)) => if exists c :: c in b && Get(m, c) != b[c] then Update else Noop
  }

  predicate SameChange(op: Op, branch: Option<Row>, main: Option<Row>, defaults: Row) {
    || op == Delete
    || (branch.Some? && main.Some?
        && (forall c :: c in main.value && c in branch.value ==> main.value[c] == branch.value[c])
        && Flagged(branch.value, defaults) == {})
  }

  function Judge(branch: Option<Row>, main: Option<Row>, base: Option<Row>, defaults: Row): Verdict {
    var b, m := BranchOp(branch, base, defaults), MainOp(main, base);
    if b == Noop then (if m == Noop then Skip else Drift(m))
    else if m == Noop then Apply(b)
    else if b == m && SameChange(b, branch, main, defaults) then Skip
    else Conflict(b, m)
  }

  function VerdictOf(s: Sides, k: Key): Verdict {
    Judge(Lookup(s.branch, k), Lookup(s.main, k), Lookup(s.base, k), s.defaults)
  }

  // ---------- emission ----------

  /** The keys of one operation, in candidate order. */
  function Chosen(s: Sides, keys: seq<Key>, op: Op): seq<Key> {
    if keys == [] then []
    else Chosen(s, keys[..|keys| - 1], op) +
         if VerdictOf(s, keys[|keys| - 1]) == Apply(op) then [keys[|keys| - 1]] else []
  }

  function Conflicts(s: Sides, keys: seq<Key>): seq<RowConflict> {
    if keys == [] then []
    else
      var k := keys[|keys| - 1];
      Conflicts(s, keys[..|keys| - 1]) +
      match VerdictOf(s, k) case Conflict(b, m) => [RowConflict(k, b, m)] case _ => []
  }

  function Drifts(s: Sides, keys: seq<Key>): seq<RowDrift> {
    if keys == [] then []
    else
      var k := keys[|keys| - 1];
      Drifts(s, keys[..|keys| - 1]) + match VerdictOf(s, k) case Drift(m) => [RowDrift(k, m)] case _ => []
  }

  /** The SET list: changed common columns outside the key, and flagged added columns. */
  function SetList(branch: Row, base: Row, defaults: Row, pk: seq<string>): Row {
    (map c | c in base && c !in pk && c in branch && branch[c] != base[c] :: branch[c]) +
    (map c | c in Flagged(branch, defaults) :: Get(branch, c))
  }

  /** The statements of one key; an UPDATE with an empty SET list is left out. */
  function StmtsFor(s: Sides, k: Key): seq<Stmt> {
    match VerdictOf(s, k)
    case Apply(Insert) => if k in s.branch then [InsertRow(s.branch[k])] else []
    case Apply(Update) =>
      if k in s.branch && k in s.base then
        var sets := SetList(s.branch[k], s.base[k], s.defaults, s.pk);
        if sets == map[] then [] else [UpdateRow(k, sets)]
      else []
    case Apply(Delete) => [DeleteRow(k)]
    case _ => []
  }

  /** No UPDATE without a SET list is written, whatever the tables hold. */
  lemma UpdatesSetSomething(s: Sides, k: Key, e: Stmt)
    requires e in StmtsFor(s, k) && e.UpdateRow?
    ensures e.key == k && e.sets != map[]
  {
    hide VerdictOf, SetList;
  }

  function Emit(s: Sides, keys: seq<Key>): seq<Stmt> {
    if keys == [] then [] else Emit(s, keys[..|keys| - 1]) + StmtsFor(s, keys[|keys| - 1])
  }

  /** INSERTs, then UPDATEs, then DELETEs. */
  function Statements(s: Sides, keys: seq<Key>): seq<Stmt> {
    Emit(s, Chosen(s, keys, Insert)) + Emit(s, Chosen(s, keys, Update)) + Emit(s, Chosen(s, keys, Delete))
  }

  /** Classifies the candidate keys and writes the statements of one table; nothing is
      written once any table has a conflict. */
  method MergeTable(s: Sides, candidates: seq<Key>, earlierConflicts: bool)
    returns (stmts: seq<Stmt>, conflicts: seq<RowConflict>, drifts: seq<RowDrift>)
    ensures conflicts == Conflicts(s, candidates)
    ensures drifts == Drifts(s, candidates)
    ensures stmts == if earlierConflicts || conflicts != [] then [] else Statements(s, candidates)
  {
    stmts, conflicts, drifts := [], [], [];
    var inserts, updates, deletes: seq<Key> := [], [], [];
    for i := 0 to |candidates|
      invariant conflicts == Conflicts(s, candidates[..i])
      invariant drifts == Drifts(s, candidates[..i])
      invariant inserts == Chosen(s, candidates[..i], Insert)
      invariant updates == Chosen(s, candidates[..i], Update)
      invariant deletes == Chosen(s, candidates[..i], Delete)
    {
      var k := candidates[i];
      assert candidates[..i + 1][..i] == candidates[..i];
      match VerdictOf(s, k)
      case Skip =>
      case Drift(m) => drifts := drifts + [RowDrift(k, m)];
      case Apply(Insert) => inserts := inserts + [k];
      case Apply(Update) => updates := updates + [k];
      case Apply(Delete) => deletes := deletes + [k];
      case Apply(Noop) =>
      case Conflict(b, m) => conflicts := conflicts + [RowConflict(k, b, m)];
    }
    assert candidates[..|candidates|] == candidates;
    if earlierConflicts || conflicts != [] {
      return;
    }
    var ins := EmitAll(s, inserts);
    var upd := EmitAll(s, updates);
    var del := EmitAll(s, deletes);
    stmts := ins + upd + del;
  }

  method EmitAll(s: Sides, keys: seq<Key>) returns (stmts: seq<Stmt>)
    ensures stmts == Emit(s, keys)
  {
    stmts := [];
    for i := 0 to |keys|
      invariant stmts == Emit(s, keys[..i])
    {
      assert keys[..i + 1][..i] == keys[..i];
      stmts := stmts + StmtsFor(s, keys[i]);
    }
    assert keys[..|keys|] == keys;
  }

  // ---------- meaning ----------

  /** A row under another key than k takes a unique value of r. */
  predicate Taken(t: Table, k: Key, r: Row, us: Uniques) {
    exists j :: j in t && j != k && Collide(us, r, t[j])
  }

  /** A row with a NULL in every unique column set is never in the way. */
  lemma NullsNeverCollide(t: Table, k: Key, r: Row, us: Uniques)
    requires forall u :: u in us ==> exists c :: c in u && Get(r, c) == None
    ensures !Taken(t, k, r, us)
  {
    forall j | j in t && j != k ensures !Collide(us, r, t[j]) {}
  }

  /** Running a statement; None is a duplicate-key error, of the primary key or of a UNIQUE
      constraint. An UPDATE or DELETE that matches no row does nothing. */
  function Execute(t: Table, e: Stmt, pk: seq<string>, us: Uniques): Option<Table> {
    match e
    case InsertRow(r) =>
      var k := KeyOf(pk, r);
      if k in t || Taken(t, k, r, us) then None else Some(t[k := r])
    case UpdateRow(k, sets) =>
      if k !in t then Some(t)
      else
        var r := t[k] + sets;
        var k' := KeyOf(pk, r);
        if (k' != k && k' in t) || Taken(t, k, r, us) then None else Some((t - {k})[k' := r])
    case DeleteRow(k) => Some(t - {k})
  }

  function ExecuteAll(t: Table, es: seq<Stmt>, pk: seq<string>, us: Uniques): Option<Table> {
    if es == [] then Some(t)
    else match ExecuteAll(t, es[..|es| - 1], pk, us)
      case None => None
      case Some(u) => Execute(u, es[|es| - 1], pk, us)
  }

  /** MAIN after the ADD COLUMN statements: every row carries the defaults. */
  function Extended(t: Table, defaults: Row): Table {
    map k | k in t :: t[k] + defaults
  }

  ghost predicate RowsShaped(t: Table, cols: set<string>, pk: seq<string>) {
    forall k :: k in t ==> t[k].Keys == cols && KeyOf(pk, t[k]) == k
  }

  /** MAIN and BASE share their columns, BRANCH has those and the added ones, and each
      row is stored under its own key. */
  ghost predicate Shaped(s: Sides, cols: set<string>) {
    && RowsShaped(s.base, cols, s.pk) && RowsShaped(s.main, cols, s.pk)
    && RowsShaped(s.branch, cols + s.defaults.Keys, s.pk)
    && cols !! s.defaults.Keys
    && forall c :: c in s.pk ==> c in cols
  }

  /** BRANCH did something to this key. */
  predicate Touched(s: Sides, k: Key) {
    Lookup(s.branch, k) != Lookup(Extended(s.base, s.defaults), k)
  }

  predicate MainTouched(s: Sides, k: Key) {
    Lookup(s.main, k) != Lookup(s.base, k)
  }

  /** The declarative merge: BRANCH's row where BRANCH touched it, MAIN's row elsewhere. */
  function Merged(s: Sides, k: Key): Option<Row> {
    if Touched(s, k) then Lookup(s.branch, k) else Lookup(Extended(s.main, s.defaults), k)
  }

  predicate Disagree(s: Sides, k: Key) {
    Touched(s, k) && MainTouched(s, k) && Lookup(s.branch, k) != Lookup(Extended(s.main, s.defaults), k)
  }

  // ---------- one key ----------

  lemma SameRow(a: Row, b: Row)
    requires a.Keys == b.Keys && forall c :: c in a ==> a[c] == b[c]
    ensures a == b
  {}

  /** The per-column test with its default flags is exactly row inequality. */
  lemma ChangedMeansDifferent(s: Sides, cols: set<string>, branch: Row, base: Row)
    requires base.Keys == cols && branch.Keys == cols + s.defaults.Keys && cols !! s.defaults.Keys
    ensures RowChanged(branch, base, Flagged(branch, s.defaults)) <==> branch != base + s.defaults
  {
    var ext := base + s.defaults;
    if !RowChanged(branch, base, Flagged(branch, s.defaults)) {
      forall c | c in branch ensures branch[c] == ext[c] {
        if c in s.defaults {
          assert c !in Flagged(branch, s.defaults);
        }
      }
      SameRow(branch, ext);
    }
    if branch == ext {
      assert forall c :: c in base ==> Get(branch, c) == base[c];
      assert forall c :: c in s.defaults ==> Get(branch, c) == s.defaults[c];
    }
  }

  /** What a touched key amounts to. */
  function BranchEffect(s: Sides, k: Key): Op {
    if k !in s.branch then Delete else if k in s.base then Update else Insert
  }

  function MainEffect(s: Sides, k: Key): Op {
    if k !in s.main then Delete else if k in s.base then Update else Insert
  }

  lemma BranchOpMeaning(s: Sides, cols: set<string>, k: Key)
    requires Shaped(s, cols)
    ensures BranchOp(Lookup(s.branch, k), Lookup(s.base, k), s.defaults) ==
      if Touched(s, k) then BranchEffect(s, k) else Noop
  {
    if k in s.branch && k in s.base {
      ChangedMeansDifferent(s, cols, s.branch[k], s.base[k]);
    }
  }

  lemma MainOpMeaning(s: Sides, cols: set<string>, k: Key)
    requires Shaped(s, cols)
    ensures MainOp(Lookup(s.main, k), Lookup(s.base, k)) ==
      if MainTouched(s, k) then MainEffect(s, k) else Noop
  {
    if k in s.main && k in s.base && forall c :: c in s.base[k] ==> Get(s.main[k], c) == s.base[k][c] {
      SameRow(s.main[k], s.base[k]);
    }
  }

  lemma SameChangeMeaning(s: Sides, cols: set<string>, k: Key)
    requires Shaped(s, cols) && k in s.branch && k in s.main
    ensures SameChange(Update, Lookup(s.branch, k), Lookup(s.main, k), s.defaults)
      <==> s.branch[k] == s.main[k] + s.defaults
    ensures SameChange(Insert, Lookup(s.branch, k), Lookup(s.main, k), s.defaults)
      <==> s.branch[k] == s.main[k] + s.defaults
  {
    ChangedMeansDifferent(s, cols, s.branch[k], s.main[k]);
    assert RowChanged(s.branch[k], s.main[k], Flagged(s.branch[k], s.defaults))
      <==> !SameChange(Update, Lookup(s.branch, k), Lookup(s.main, k), s.defaults);
  }

  lemma SameDelete(branch: Option<Row>, main: Option<Row>, defaults: Row)
    ensures SameChange(Delete, branch, main, defaults)
  {}

  /** A key is in conflict iff both sides touched it and disagree; it is applied iff
      only BRANCH touched it. */
  lemma VerdictMeaning(s: Sides, cols: set<string>, k: Key)
    requires Shaped(s, cols)
    ensures VerdictOf(s, k).Conflict? <==> Disagree(s, k)
    ensures VerdictOf(s, k).Apply? <==> Touched(s, k) && !MainTouched(s, k)
    ensures VerdictOf(s, k).Apply? ==> VerdictOf(s, k) == Apply(BranchEffect(s, k))
    ensures VerdictOf(s, k).Drift? <==> !Touched(s, k) && MainTouched(s, k)
    ensures VerdictOf(s, k).Conflict? ==> VerdictOf(s, k) == Conflict(BranchEffect(s, k), MainEffect(s, k))
    ensures VerdictOf(s, k).Drift? ==> VerdictOf(s, k) == Drift(MainEffect(s, k))
  {
    hide BranchOp, MainOp, SameChange, RowsShaped;
    BranchOpMeaning(s, cols, k);
    MainOpMeaning(s, cols, k);
    assert SameChange(Delete, Lookup(s.branch, k), Lookup(s.main, k), s.defaults) by {
      SameDelete(Lookup(s.branch, k), Lookup(s.main, k), s.defaults);
    }
    if k in s.branch && k in s.main {
      SameChangeMeaning(s, cols, k);
    }
  }

  /** The SET list alone turns the extended base row into BRANCH's row and keeps its key. */
  lemma SetListRebuilds(s: Sides, cols: set<string>, k: Key)
    requires Shaped(s, cols) && k in s.branch && k in s.base
    ensures (s.base[k] + s.defaults) + SetList(s.branch[k], s.base[k], s.defaults, s.pk) == s.branch[k]
  {
    var branch, base := s.branch[k], s.base[k];
    var ext, sets := base + s.defaults, SetList(branch, base, s.defaults, s.pk);
    forall c | c in branch ensures (ext + sets)[c] == branch[c] {
      if c in s.pk {
        KeyColumn(s.pk, c, branch, base);
      }
      if c in s.defaults {
        assert c in Flagged(branch, s.defaults) <==> branch[c] != s.defaults[c];
      }
    }
    SameRow(ext + sets, branch);
  }

  /** It names exactly the columns in which BRANCH's row differs from the extended base row,
      with BRANCH's values. */
  lemma SetListExact(s: Sides, cols: set<string>, k: Key, c: string)
    requires Shaped(s, cols) && k in s.branch && k in s.base
    ensures Lookup(SetList(s.branch[k], s.base[k], s.defaults, s.pk), c) ==
      if Lookup(s.branch[k], c) != Lookup(s.base[k] + s.defaults, c) then Lookup(s.branch[k], c) else None
  {
    var branch, base := s.branch[k], s.base[k];
    if c in s.pk {
      KeyColumn(s.pk, c, branch, base);
    }
    if c in s.defaults {
      assert c in Flagged(branch, s.defaults) <==> branch[c] != s.defaults[c];
    }
  }

  lemma KeyColumn(pk: seq<string>, c: string, a: Row, b: Row)
    requires c in pk && KeyOf(pk, a) == KeyOf(pk, b)
    ensures Get(a, c) == Get(b, c)
  {
    var i :| 0 <= i < |pk| && pk[i] == c;
    assert KeyOf(pk, a)[i] == Get(a, c) && KeyOf(pk, b)[i] == Get(b, c);
  }

  /** Executing the statements of one key that only BRANCH touched installs BRANCH's row
      under that key and changes nothing else, unless a unique value of that row is taken. */
  lemma OneKeyApplies(s: Sides, cols: set<string>, k: Key, t: Table, us: Uniques)
    requires Shaped(s, cols) && VerdictOf(s, k).Apply?
    requires Lookup(t, k) == Lookup(Extended(s.main, s.defaults), k)
    ensures match ExecuteAll(t, StmtsFor(s, k), s.pk, us)
      case None => k in s.branch && Taken(t, k, s.branch[k], us)
      case Some(u) => (k in s.branch ==> !Taken(t, k, s.branch[k], us)) && Installed(s, k, t, u)
  {
    VerdictMeaning(s, cols, k);
    var e := OneStmtFor(s, cols, k);
    hide VerdictOf, StmtsFor, SetList, Shaped, Execute, Taken, Installed;
    OneStmt(t, e, s.pk, us);
    if k in s.branch && k in s.base {
      SetListRebuilds(s, cols, k);
    }
    StmtInstalls(s, cols, k, t, e, us);
  }

  /** u holds BRANCH's row at k and is t at every other key. */
  ghost predicate Installed(s: Sides, k: Key, t: Table, u: Table) {
    Lookup(u, k) == Lookup(s.branch, k) && forall j :: j != k ==> Lookup(u, j) == Lookup(t, j)
  }

  /** A key that only BRANCH touched gives one statement; its SET list is never empty. */
  lemma OneStmtFor(s: Sides, cols: set<string>, k: Key) returns (e: Stmt)
    requires Shaped(s, cols) && VerdictOf(s, k) == Apply(BranchEffect(s, k)) && Touched(s, k)
    ensures StmtsFor(s, k) == [e] && (k in s.branch || k in s.base)
    ensures e == if k !in s.branch then DeleteRow(k)
      else if k !in s.base then InsertRow(s.branch[k])
      else UpdateRow(k, SetList(s.branch[k], s.base[k], s.defaults, s.pk))
  {
    hide VerdictOf, SetList, Shaped;
    if k !in s.branch {
      e := DeleteRow(k);
    } else if k !in s.base {
      e := InsertRow(s.branch[k]);
    } else {
      SetListNotEmpty(s, cols, k);
      e := UpdateRow(k, SetList(s.branch[k], s.base[k], s.defaults, s.pk));
    }
  }

  lemma SetListNotEmpty(s: Sides, cols: set<string>, k: Key)
    requires Shaped(s, cols) && Touched(s, k) && k in s.branch && k in s.base
    ensures SetList(s.branch[k], s.base[k], s.defaults, s.pk) != map[]
  {
    hide SetList, Shaped;
    SetListRebuilds(s, cols, k);
    assert (s.base[k] + s.defaults) + map[] == s.base[k] + s.defaults;
  }

  lemma StmtInstalls(s: Sides, cols: set<string>, k: Key, t: Table, e: Stmt, us: Uniques)
    requires Shaped(s, cols)
    requires match e
      case DeleteRow(j) => j == k && k !in s.branch
      case InsertRow(r) => k in s.branch && r == s.branch[k] && k !in t
      case UpdateRow(j, sets) => j == k && k in t && k in s.branch && t[k] + sets == s.branch[k]
    ensures match Execute(t, e, s.pk, us)
      case None => k in s.branch && Taken(t, k, s.branch[k], us)
      case Some(u) => (k in s.branch ==> !Taken(t, k, s.branch[k], us)) && Installed(s, k, t, u)
  {
    hide Taken;
  }

  lemma OneStmt(t: Table, e: Stmt, pk: seq<string>, us: Uniques)
    ensures ExecuteAll(t, [e], pk, us) == Execute(t, e, pk, us)
  {
    assert [e][..0] == [];
  }

  // ---------- all keys ----------

  ghost predicate Distinct(keys: seq<Key>) {
    forall i, j :: 0 <= i < j < |keys| ==> keys[i] != keys[j]
  }

  lemma {:induction false} ExecuteConcat(t: Table, a: seq<Stmt>, b: seq<Stmt>, pk: seq<string>, us: Uniques)
    ensures ExecuteAll(t, a + b, pk, us) == match ExecuteAll(t, a, pk, us)
      case None => None
      case Some(u) => ExecuteAll(u, b, pk, us)
  {
    hide Execute;
    if b == [] {
      assert a + b == a;
    } else {
      ExecuteConcat(t, a, b[..|b| - 1], pk, us);
      assert (a + b)[..|a + b| - 1] == a + b[..|b| - 1];
    }
  }

  /** t shows BRANCH's row at the given keys and MAIN's extended row at all others. */
  ghost predicate AppliedAt(s: Sides, keys: seq<Key>, t: Table) {
    forall k :: Lookup(t, k) ==
      if k in keys then Lookup(s.branch, k) else Lookup(Extended(s.main, s.defaults), k)
  }

  // ---------- unique values ----------

  /** The row at key j when the statement of key k runs, if keys are written in this order. */
  ghost function RowThen(s: Sides, keys: seq<Key>, k: Key, j: Key): Option<Row> {
    if Before(keys, j, k) then Lookup(s.branch, j) else Lookup(Extended(s.main, s.defaults), j)
  }

  ghost predicate Fit(us: Uniques, r: Row, other: Option<Row>) {
    other.Some? ==> !Collide(us, r, other.value)
  }

  /** No unique value of BRANCH's row at k is taken when it is written. */
  ghost predicate FreeAt(s: Sides, us: Uniques, keys: seq<Key>, k: Key) {
    k in s.branch ==> forall j :: j != k ==> Fit(us, s.branch[k], RowThen(s, keys, k, j))
  }

  ghost predicate AllFree(s: Sides, us: Uniques, keys: seq<Key>) {
    forall k :: k in keys ==> FreeAt(s, us, keys, k)
  }

  lemma BeforeLast(front: seq<Key>, k: Key, j: Key)
    requires k !in front
    ensures Before(front + [k], j, k) <==> j in front
  {
    var keys := front + [k];
    if j in front {
      var i :| 0 <= i < |front| && front[i] == j;
      assert keys[i] == j && keys[|front|] == k;
    }
  }

  lemma BeforeInFront(front: seq<Key>, k: Key, j: Key, l: Key)
    requires k !in front && l in front
    ensures Before(front + [k], j, l) <==> Before(front, j, l)
  {
    var keys := front + [k];
    if Before(front, j, l) {
      var a, b :| 0 <= a < b < |front| && front[a] == j && front[b] == l;
      assert keys[a] == j && keys[b] == l;
    }
    if Before(keys, j, l) {
      var a, b :| 0 <= a < b < |keys| && keys[a] == j && keys[b] == l;
      assert b < |front| && front[a] == j && front[b] == l;
    }
  }

  /** The condition on the keys in turn. */
  lemma FreeStep(s: Sides, us: Uniques, front: seq<Key>, k: Key)
    requires k !in front
    ensures AllFree(s, us, front + [k]) <==> AllFree(s, us, front) && FreeAt(s, us, front + [k], k)
  {
    hide Before, Fit;
    forall l | l in front ensures FreeAt(s, us, front + [k], l) <==> FreeAt(s, us, front, l) {
      forall j ensures RowThen(s, front + [k], l, j) == RowThen(s, front, l, j) {
        BeforeInFront(front, k, j, l);
      }
    }
    hide FreeAt;
    assert forall l :: l in front + [k] <==> l in front || l == k;
  }

  /** The table shows what is taken. */
  lemma TakenIff(s: Sides, us: Uniques, front: seq<Key>, k: Key, t: Table)
    requires k !in front && k in s.branch && AppliedAt(s, front, t)
    ensures Taken(t, k, s.branch[k], us) <==> !FreeAt(s, us, front + [k], k)
  {
    hide Before, Collide;
    forall j ensures RowThen(s, front + [k], k, j) == Lookup(t, j) {
      BeforeLast(front, k, j);
    }
    hide RowThen, AppliedAt;
    if Taken(t, k, s.branch[k], us) {
      var j :| j in t && j != k && Collide(us, s.branch[k], t[j]);
      assert !Fit(us, s.branch[k], RowThen(s, front + [k], k, j));
    }
    if !FreeAt(s, us, front + [k], k) {
      var j :| j != k && !Fit(us, s.branch[k], RowThen(s, front + [k], k, j));
      assert j in t && Collide(us, s.branch[k], t[j]);
    }
  }

  /** Running the statements of some keys stops iff one of them finds a unique value taken. */
  lemma {:induction false} EmitApplies(s: Sides, cols: set<string>, keys: seq<Key>, us: Uniques)
    requires Shaped(s, cols) && Distinct(keys)
    requires forall k :: k in keys ==> VerdictOf(s, k).Apply?
    ensures match ExecuteAll(Extended(s.main, s.defaults), Emit(s, keys), s.pk, us)
      case None => !AllFree(s, us, keys)
      case Some(t) => AllFree(s, us, keys) && AppliedAt(s, keys, t)
  {
    hide VerdictOf, Shaped, StmtsFor, AllFree, FreeAt, Taken, AppliedAt, Installed;
    var start := Extended(s.main, s.defaults);
    if keys == [] {
      NothingApplied(s, us);
    } else {
      var n := |keys| - 1;
      var front, k := keys[..n], keys[n];
      assert keys == front + [k] && k !in front;
      EmitApplies(s, cols, front, us);
      FreeStep(s, us, front, k);
      ExecuteConcat(start, Emit(s, front), StmtsFor(s, k), s.pk, us);
      match ExecuteAll(start, Emit(s, front), s.pk, us)
      case None =>
      case Some(t) => NextApplies(s, cols, front, k, t, us);
    }
  }

  lemma NothingApplied(s: Sides, us: Uniques)
    ensures AllFree(s, us, []) && AppliedAt(s, [], Extended(s.main, s.defaults))
  {}

  lemma NextApplies(s: Sides, cols: set<string>, front: seq<Key>, k: Key, t: Table, us: Uniques)
    requires Shaped(s, cols) && VerdictOf(s, k).Apply? && k !in front && AppliedAt(s, front, t)
    ensures match ExecuteAll(t, StmtsFor(s, k), s.pk, us)
      case None => !FreeAt(s, us, front + [k], k)
      case Some(u) => FreeAt(s, us, front + [k], k) && AppliedAt(s, front + [k], u)
  {
    hide VerdictOf, Shaped, StmtsFor, Taken, RowThen, Fit;
    OneKeyApplies(s, cols, k, t, us);
    if k in s.branch {
      TakenIff(s, us, front, k, t);
    }
  }

  lemma {:induction false} EmitConcat(s: Sides, a: seq<Key>, b: seq<Key>)
    ensures Emit(s, a + b) == Emit(s, a) + Emit(s, b)
  {
    hide StmtsFor;
    if b == [] {
      assert a + b == a;
    } else {
      EmitConcat(s, a, b[..|b| - 1]);
      assert (a + b)[..|a + b| - 1] == a + b[..|b| - 1];
    }
  }

  lemma {:induction false} ChosenExact(s: Sides, keys: seq<Key>, op: Op)
    requires Distinct(keys)
    ensures Distinct(Chosen(s, keys, op))
    ensures forall k :: k in Chosen(s, keys, op) <==> k in keys && VerdictOf(s, k) == Apply(op)
  {
    if keys != [] {
      var front := keys[..|keys| - 1];
      assert keys == front + [keys[|keys| - 1]];
      ChosenExact(s, front, op);
    }
  }

  lemma {:induction false} ConflictsExact(s: Sides, keys: seq<Key>)
    ensures forall x :: x in Conflicts(s, keys) <==>
      x.key in keys && VerdictOf(s, x.key) == Conflict(x.branchOp, x.mainOp)
    ensures Conflicts(s, keys) == [] <==> forall k :: k in keys ==> !VerdictOf(s, k).Conflict?
  {
    hide VerdictOf;
    if keys != [] {
      var front := keys[..|keys| - 1];
      assert keys == front + [keys[|keys| - 1]];
      ConflictsExact(s, front);
    }
  }

  lemma {:induction false} DriftsExact(s: Sides, keys: seq<Key>, x: RowDrift)
    ensures x in Drifts(s, keys) <==> x.key in keys && VerdictOf(s, x.key) == Drift(x.mainOp)
  {
    hide VerdictOf;
    if keys != [] {
      DriftsExact(s, keys[..|keys| - 1], x);
    }
  }

  /** What became of a row: gone, new, or another row. */
  predicate Became(op: Op, was: Option<Row>, now: Option<Row>) {
    match op
    case Noop => now == was
    case Insert => was.None? && now.Some?
    case Update => was.Some? && now.Some? && now != was
    case Delete => was.Some? && now.None?
  }

  /** A reported conflict names a key that both sides changed to different results, with what
      became of BASE's row, extended by the defaults, on BRANCH, and of BASE's row on MAIN. */
  lemma ConflictReport(s: Sides, cols: set<string>, candidates: seq<Key>, x: RowConflict)
    requires Shaped(s, cols)
    ensures x in Conflicts(s, candidates) <==>
      && x.key in candidates && Disagree(s, x.key)
      && Became(x.branchOp, Lookup(Extended(s.base, s.defaults), x.key), Lookup(s.branch, x.key))
      && Became(x.mainOp, Lookup(s.base, x.key), Lookup(s.main, x.key))
  {
    hide VerdictOf, Shaped, Conflicts;
    ConflictsExact(s, candidates);
    VerdictMeaning(s, cols, x.key);
  }

  /** A reported drift names a key that only MAIN changed, with what became of BASE's row. */
  lemma DriftReport(s: Sides, cols: set<string>, candidates: seq<Key>, x: RowDrift)
    requires Shaped(s, cols)
    ensures x in Drifts(s, candidates) <==>
      && x.key in candidates && !Touched(s, x.key) && MainTouched(s, x.key)
      && Became(x.mainOp, Lookup(s.base, x.key), Lookup(s.main, x.key))
  {
    hide VerdictOf, Shaped, Drifts;
    DriftsExact(s, candidates, x);
    VerdictMeaning(s, cols, x.key);
  }

  /** Every key BRANCH touched is a candidate. */
  ghost predicate Complete(s: Sides, candidates: seq<Key>) {
    forall k :: Touched(s, k) ==> k in candidates
  }

  /** A row conflict is reported iff, anywhere in the table, both sides changed a key to
      different results. */
  lemma ConflictIff(s: Sides, cols: set<string>, candidates: seq<Key>)
    requires Shaped(s, cols) && Complete(s, candidates)
    ensures Conflicts(s, candidates) != [] <==> exists k :: Disagree(s, k)
  {
    hide VerdictOf, Shaped, Touched, Disagree, Conflicts;
    ConflictsExact(s, candidates);
    forall k ensures VerdictOf(s, k).Conflict? <==> Disagree(s, k) {
      VerdictMeaning(s, cols, k);
    }
    forall k | Disagree(s, k) ensures k in candidates {
      DisagreeTouched(s, k);
    }
  }

  lemma DisagreeTouched(s: Sides, k: Key)
    requires Disagree(s, k)
    ensures Touched(s, k)
  {}

  /** The keys to apply, each once, in any order. */
  ghost predicate ToApply(s: Sides, candidates: seq<Key>, keys: seq<Key>) {
    Distinct(keys) && forall k :: k in keys <==>
      k in candidates && VerdictOf(s, k) in {Apply(Insert), Apply(Update), Apply(Delete)}
  }

  /** Without conflicts, the statements of the keys to apply, in whatever order, run iff each
      finds its unique values free; they then leave the declarative merge at every key of the
      whole table. */
  lemma AnyOrderMerges(s: Sides, cols: set<string>, candidates: seq<Key>, keys: seq<Key>, us: Uniques)
    requires Shaped(s, cols) && Complete(s, candidates) && Conflicts(s, candidates) == []
    requires ToApply(s, candidates, keys)
    ensures match ExecuteAll(Extended(s.main, s.defaults), Emit(s, keys), s.pk, us)
      case None => !AllFree(s, us, keys)
      case Some(t) => AllFree(s, us, keys) && forall k :: Lookup(t, k) == Merged(s, k)
  {
    hide VerdictOf, Merged, Shaped, Emit, Execute, Extended, AllFree;
    EmitApplies(s, cols, keys, us);
    ConflictsExact(s, candidates);
    match ExecuteAll(Extended(s.main, s.defaults), Emit(s, keys), s.pk, us)
    case None =>
    case Some(t) =>
      forall k ensures Lookup(t, k) == Merged(s, k) {
        AppliedIsMerged(s, cols, k, k in candidates, Lookup(t, k));
      }
  }

  lemma ChosenToApply(s: Sides, candidates: seq<Key>, a: Op, b: Op, c: Op)
    requires Distinct(candidates) && {a, b, c} == {Insert, Update, Delete}
    ensures ToApply(s, candidates, Chosen(s, candidates, a) + Chosen(s, candidates, b) + Chosen(s, candidates, c))
  {
    hide VerdictOf;
    assert a in {a, b, c} && b in {a, b, c} && c in {a, b, c};
    assert Insert in {a, b, c} && Update in {a, b, c} && Delete in {a, b, c};
    ChosenExact(s, candidates, a);
    ChosenExact(s, candidates, b);
    ChosenExact(s, candidates, c);
    hide Chosen;
    JoinDistinct(Chosen(s, candidates, a), Chosen(s, candidates, b));
    JoinDistinct(Chosen(s, candidates, a) + Chosen(s, candidates, b), Chosen(s, candidates, c));
  }

  lemma EmitThree(s: Sides, a: seq<Key>, b: seq<Key>, c: seq<Key>)
    ensures Emit(s, a + b + c) == Emit(s, a) + Emit(s, b) + Emit(s, c)
  {
    hide Emit;
    EmitConcat(s, a, b);
    EmitConcat(s, a + b, c);
  }

  // ---------- the order of the script ----------

  /** Operations in the order in which the three-way diff writes them. */
  const INSERTS_FIRST: seq<Op> := [Insert, Update, Delete]

  /** Only BRANCH changed the key, so the script writes it. */
  predicate Writes(s: Sides, k: Key) {
    Touched(s, k) && !MainTouched(s, k)
  }

  /** The script writes key j before key k. */
  ghost predicate Earlier(s: Sides, ops: seq<Op>, candidates: seq<Key>, j: Key, k: Key) {
    && Writes(s, j) && Writes(s, k)
    && (|| Before(ops, BranchEffect(s, j), BranchEffect(s, k))
        || (BranchEffect(s, j) == BranchEffect(s, k) && Before(candidates, j, k)))
  }

  /** The row at key j when the script writes key k. */
  ghost function Standing(s: Sides, ops: seq<Op>, candidates: seq<Key>, k: Key, j: Key): Option<Row> {
    if Earlier(s, ops, candidates, j, k) then Lookup(s.branch, j) else Lookup(Extended(s.main, s.defaults), j)
  }

  /** No row that BRANCH inserts or updates takes a unique value that another row still holds:
      a row of MAIN that is not rewritten or deleted before, or one of BRANCH's that is. */
  ghost predicate UniquesFree(s: Sides, us: Uniques, ops: seq<Op>, candidates: seq<Key>) {
    forall k, j :: Writes(s, k) && k in s.branch && j != k ==>
      Fit(us, s.branch[k], Standing(s, ops, candidates, k, j))
  }

  /** Selecting keeps the order. */
  lemma {:induction false} ChosenOrder(s: Sides, keys: seq<Key>, op: Op, j: Key, k: Key)
    requires Distinct(keys)
    ensures Before(Chosen(s, keys, op), j, k) <==>
      VerdictOf(s, j) == VerdictOf(s, k) == Apply(op) && Before(keys, j, k)
  {
    hide VerdictOf, Before;
    if keys == [] {
      NothingBefore(j, k);
    } else {
      var front, l := keys[..|keys| - 1], keys[|keys| - 1];
      var chosen := Chosen(s, front, op);
      assert keys == front + [l];
      ChosenOrder(s, front, op, j, k);
      ChosenExact(s, front, op);
      BeforeStep(front, l, j, k);
      BeforeStep(chosen, l, j, k);
      assert chosen + [] == chosen;
    }
  }

  lemma NothingBefore(j: Key, k: Key)
    ensures !Before([], j, k)
  {}

  lemma BeforeStep(front: seq<Key>, l: Key, j: Key, k: Key)
    requires l !in front
    ensures Before(front + [l], j, k) <==> if k == l then j in front else Before(front, j, k)
  {
    hide Before;
    if k == l {
      BeforeLast(front, k, j);
    } else if k in front {
      BeforeInFront(front, l, j, k);
    } else {
      NotBefore(front + [l], j, k);
      NotBefore(front, j, k);
    }
  }

  lemma NotBefore(keys: seq<Key>, j: Key, k: Key)
    requires j !in keys || k !in keys
    ensures !Before(keys, j, k)
  {}

  lemma BeforeJoin<T>(a: seq<T>, b: seq<T>, j: T, k: T)
    requires j in a && k in b
    ensures Before(a + b, j, k)
  {
    var x :| 0 <= x < |a| && a[x] == j;
    var y :| 0 <= y < |b| && b[y] == k;
    assert (a + b)[x] == j && (a + b)[|a| + y] == k;
  }

  lemma BeforeIn<T>(a: seq<T>, b: seq<T>, j: T, k: T)
    requires Before(a, j, k) || Before(b, j, k)
    ensures Before(a + b, j, k)
  {
    if Before(a, j, k) {
      var x, y :| 0 <= x < y < |a| && a[x] == j && a[y] == k;
      assert (a + b)[x] == j && (a + b)[y] == k;
    } else {
      var x, y :| 0 <= x < y < |b| && b[x] == j && b[y] == k;
      assert (a + b)[|a| + x] == j && (a + b)[|a| + y] == k;
    }
  }

  lemma BeforeOut<T>(a: seq<T>, b: seq<T>, j: T, k: T)
    requires Before(a + b, j, k)
    ensures Before(a, j, k) || Before(b, j, k) || (j in a && k in b)
  {
    var x, y :| 0 <= x < y < |a + b| && (a + b)[x] == j && (a + b)[y] == k;
    if y < |a| {
      assert a[x] == j && a[y] == k;
    } else if x >= |a| {
      assert b[x - |a|] == j && b[y - |a|] == k;
    } else {
      assert a[x] == j && b[y - |a|] == k;
    }
  }

  lemma ThreeOps(a: Op, b: Op, c: Op, x: Op, y: Op)
    ensures Before([a, b, c], x, y) <==> (x == a && y == b) || (x == a && y == c) || (x == b && y == c)
  {
    var ops := [a, b, c];
    assert ops[0] == a && ops[1] == b && ops[2] == c;
  }

  /** Candidates of one operation are the keys written by it, in candidate order. */
  lemma ChosenWrites(s: Sides, cols: set<string>, candidates: seq<Key>, op: Op, j: Key, k: Key)
    requires Shaped(s, cols) && Distinct(candidates) && Complete(s, candidates) && op in {Insert, Update, Delete}
    ensures k in Chosen(s, candidates, op) <==> Writes(s, k) && BranchEffect(s, k) == op
    ensures Before(Chosen(s, candidates, op), j, k) <==>
      && Writes(s, j) && Writes(s, k) && BranchEffect(s, j) == op && BranchEffect(s, k) == op
      && Before(candidates, j, k)
  {
    hide VerdictOf, Shaped, Touched, MainTouched, Before, Chosen, BranchEffect;
    ChosenExact(s, candidates, op);
    ChosenOrder(s, candidates, op, j, k);
    VerdictMeaning(s, cols, j);
    VerdictMeaning(s, cols, k);
  }

  /** The script's keys stand in the declared order. */
  lemma OrderIs(s: Sides, cols: set<string>, candidates: seq<Key>, a: Op, b: Op, c: Op, j: Key, k: Key)
    requires Shaped(s, cols) && Distinct(candidates) && Complete(s, candidates)
    requires {a, b, c} == {Insert, Update, Delete} && a != b && a != c && b != c
    ensures var keys := Chosen(s, candidates, a) + Chosen(s, candidates, b) + Chosen(s, candidates, c);
      && (Before(keys, j, k) <==> Earlier(s, [a, b, c], candidates, j, k))
      && (k in keys <==> Writes(s, k))
  {
    hide Shaped, Writes, Before, Chosen, Distinct, Complete;
    assert a in {a, b, c} && b in {a, b, c} && c in {a, b, c};
    assert BranchEffect(s, j) in {a, b, c} && BranchEffect(s, k) in {a, b, c};
    hide BranchEffect;
    var A, B, C := Chosen(s, candidates, a), Chosen(s, candidates, b), Chosen(s, candidates, c);
    ChosenWrites(s, cols, candidates, a, j, k);
    ChosenWrites(s, cols, candidates, b, j, k);
    ChosenWrites(s, cols, candidates, c, j, k);
    ChosenWrites(s, cols, candidates, a, k, j);
    ChosenWrites(s, cols, candidates, b, k, j);
    ChosenWrites(s, cols, candidates, c, k, j);
    ThreeOps(a, b, c, BranchEffect(s, j), BranchEffect(s, k));
    BeforeThree(A, B, C, j, k);
  }

  lemma BeforeThree(a: seq<Key>, b: seq<Key>, c: seq<Key>, j: Key, k: Key)
    ensures Before(a + b + c, j, k) <==>
      || Before(a, j, k) || Before(b, j, k) || Before(c, j, k)
      || (j in a && k in b) || (j in a && k in c) || (j in b && k in c)
  {
    hide Before;
    if Before(a + b + c, j, k) {
      BeforeOut(a + b, c, j, k);
      if Before(a + b, j, k) {
        BeforeOut(a, b, j, k);
      }
    }
    if Before(a, j, k) || Before(b, j, k) {
      BeforeIn(a, b, j, k);
    }
    if j in a && k in b {
      BeforeJoin(a, b, j, k);
    }
    if Before(a + b, j, k) || Before(c, j, k) {
      BeforeIn(a + b, c, j, k);
    }
    if j in a + b && k in c {
      BeforeJoin(a + b, c, j, k);
    }
  }

  /** The condition on the three tables is the condition on the statements in turn. */
  lemma FreeInOrder(s: Sides, cols: set<string>, candidates: seq<Key>, us: Uniques, a: Op, b: Op, c: Op)
    requires Shaped(s, cols) && Distinct(candidates) && Complete(s, candidates)
    requires {a, b, c} == {Insert, Update, Delete} && a != b && a != c && b != c
    ensures AllFree(s, us, Chosen(s, candidates, a) + Chosen(s, candidates, b) + Chosen(s, candidates, c))
      <==> UniquesFree(s, us, [a, b, c], candidates)
  {
    hide Shaped, Writes, Before, Chosen, Distinct, Complete, Fit, Earlier;
    var keys := Chosen(s, candidates, a) + Chosen(s, candidates, b) + Chosen(s, candidates, c);
    forall j, k
      ensures RowThen(s, keys, k, j) == Standing(s, [a, b, c], candidates, k, j) && (k in keys <==> Writes(s, k))
    {
      OrderIs(s, cols, candidates, a, b, c, j, k);
    }
    SameCondition(s, us, keys, [a, b, c], candidates);
  }

  lemma SameCondition(s: Sides, us: Uniques, keys: seq<Key>, ops: seq<Op>, candidates: seq<Key>)
    requires forall j, k ::
      RowThen(s, keys, k, j) == Standing(s, ops, candidates, k, j) && (k in keys <==> Writes(s, k))
    ensures AllFree(s, us, keys) <==> UniquesFree(s, us, ops, candidates)
  {
    hide Writes, RowThen, Standing, Fit;
    if AllFree(s, us, keys) {
      forall j, k | Writes(s, k) && k in s.branch && j != k
        ensures Fit(us, s.branch[k], Standing(s, ops, candidates, k, j))
      {
        assert RowThen(s, keys, k, j) == Standing(s, ops, candidates, k, j);
        assert FreeAt(s, us, keys, k);
      }
    }
    if UniquesFree(s, us, ops, candidates) {
      forall k | k in keys ensures FreeAt(s, us, keys, k) {
        forall j | k in s.branch && j != k ensures Fit(us, s.branch[k], RowThen(s, keys, k, j)) {
          assert RowThen(s, keys, k, j) == Standing(s, ops, candidates, k, j);
        }
      }
    }
  }

  /** Without conflicts, the emitted statements run on MAIN extended by the added columns iff
      no unique value is taken when it is written; they then leave the declarative merge at
      every key of the whole table. */
  lemma MergeExact(s: Sides, cols: set<string>, candidates: seq<Key>, us: Uniques)
    requires Shaped(s, cols) && Distinct(candidates) && Complete(s, candidates)
    requires Conflicts(s, candidates) == []
    ensures match ExecuteAll(Extended(s.main, s.defaults), Statements(s, candidates), s.pk, us)
      case None => !UniquesFree(s, us, INSERTS_FIRST, candidates)
      case Some(t) => UniquesFree(s, us, INSERTS_FIRST, candidates) && forall k :: Lookup(t, k) == Merged(s, k)
  {
    hide Merged, Shaped, Emit, Chosen, ExecuteAll, ToApply, Complete, Conflicts, AllFree, UniquesFree;
    ChosenToApply(s, candidates, Insert, Update, Delete);
    var ins, upd, del := Chosen(s, candidates, Insert), Chosen(s, candidates, Update), Chosen(s, candidates, Delete);
    EmitThree(s, ins, upd, del);
    AnyOrderMerges(s, cols, candidates, ins + upd + del, us);
    FreeInOrder(s, cols, candidates, us, Insert, Update, Delete);
  }

  /** BRANCH deleted the row with key 1 and inserted its mail under key 2. */
  function Moved(mail: string): Sides {
    var was := map[[Some("1")] := map["id" := Some("1"), "mail" := Some(mail)]];
    Sides(map[[Some("2")] := map["id" := Some("2"), "mail" := Some(mail)]], was, was, map[], ["id"])
  }

  /** The INSERT comes before the DELETE that frees its unique value, so the script fails where
      the other order would run. */
  lemma MovedValueFails(mail: string)
    ensures var (s, keys, us) := (Moved(mail), [[Some("1")], [Some("2")]], {{"mail"}});
      var (ins, del) := (InsertRow(s.branch[[Some("2")]]), DeleteRow([Some("1")]));
      && Shaped(s, {"id", "mail"}) && Distinct(keys) && Complete(s, keys)
      && Conflicts(s, keys) == [] && Statements(s, keys) == [ins, del]
      && ExecuteAll(s.main, [ins, del], s.pk, us) == None
      && ExecuteAll(s.main, [del, ins], s.pk, us) == Some(s.branch)
  {
    hide VerdictOf, Statements, Conflicts, ExecuteAll, Shaped, Touched, Collide;
    var s := Moved(mail);
    var k1: Key, k2: Key := [Some("1")], [Some("2")];
    assert "1"[0] != "2"[0] && k1[0] != k2[0];
    MovedIsShaped(mail);
    OnlyMoved(s, k1, k2);
    TwoKeys(s, k1, k2);
    MovedRuns(s, k1, k2, {{"mail"}});
  }

  lemma MovedIsShaped(mail: string)
    ensures var (s, k1, k2) := (Moved(mail), [Some("1")], [Some("2")]);
      && Shaped(s, {"id", "mail"}) && Complete(s, [k1, k2])
      && KeyOf(s.pk, s.branch[k2]) == k2 && Collide({{"mail"}}, s.branch[k2], s.main[k1])
  {
    var s := Moved(mail);
    assert KeyOf(s.pk, s.branch[[Some("2")]]) == [Some("2")] && KeyOf(s.pk, s.main[[Some("1")]]) == [Some("1")];
    assert {"mail"} in {{"mail"}} && SameOn({"mail"}, s.branch[[Some("2")]], s.main[[Some("1")]]);
  }

  lemma OnlyMoved(s: Sides, k1: Key, k2: Key)
    requires k1 != k2 && s.main == s.base && s.base.Keys == {k1} && s.branch.Keys == {k2}
    ensures VerdictOf(s, k1) == Apply(Delete) && VerdictOf(s, k2) == Apply(Insert)
  {}

  lemma TwoKeys(s: Sides, k1: Key, k2: Key)
    requires VerdictOf(s, k1) == Apply(Delete) && VerdictOf(s, k2) == Apply(Insert) && k2 in s.branch
    ensures Conflicts(s, [k1, k2]) == [] && Statements(s, [k1, k2]) == [InsertRow(s.branch[k2]), DeleteRow(k1)]
  {
    hide VerdictOf, Chosen, Conflicts, Emit;
    ChosenTwo(s, k1, k2, Insert);
    ChosenTwo(s, k1, k2, Update);
    ChosenTwo(s, k1, k2, Delete);
    assert Chosen(s, [k1, k2], Insert) == [k2] && Chosen(s, [k1, k2], Update) == [];
    assert Chosen(s, [k1, k2], Delete) == [k1];
    EmitOne(s, k1);
    EmitOne(s, k2);
  }

  lemma ChosenTwo(s: Sides, k1: Key, k2: Key, op: Op)
    ensures Chosen(s, [k1, k2], op) ==
      (if VerdictOf(s, k1) == Apply(op) then [k1] else []) + if VerdictOf(s, k2) == Apply(op) then [k2] else []
    ensures !VerdictOf(s, k1).Conflict? && !VerdictOf(s, k2).Conflict? ==> Conflicts(s, [k1, k2]) == []
  {
    hide VerdictOf;
    assert [k1, k2][..1] == [k1] && [k1][..0] == [];
    assert Chosen(s, [k1], op) == if VerdictOf(s, k1) == Apply(op) then [k1] else [];
    assert !VerdictOf(s, k1).Conflict? ==> Conflicts(s, [k1]) == [];
  }

  lemma EmitOne(s: Sides, k: Key)
    ensures Emit(s, [k]) == StmtsFor(s, k) && Emit(s, []) == []
  {
    hide StmtsFor;
    assert [k][..0] == [];
  }

  lemma MovedRuns(s: Sides, k1: Key, k2: Key, us: Uniques)
    requires k1 != k2 && s.main.Keys == {k1} && s.branch.Keys == {k2} && KeyOf(s.pk, s.branch[k2]) == k2
    requires Collide(us, s.branch[k2], s.main[k1])
    ensures var (ins, del) := (InsertRow(s.branch[k2]), DeleteRow(k1));
      && ExecuteAll(s.main, [ins, del], s.pk, us) == None
      && ExecuteAll(s.main, [del, ins], s.pk, us) == Some(s.branch)
  {
    var (ins, del) := (InsertRow(s.branch[k2]), DeleteRow(k1));
    hide Collide, KeyOf;
    OneStmt(s.main, ins, s.pk, us);
    OneStmt(s.main, del, s.pk, us);
    assert [ins, del][..1] == [ins] && [del, ins][..1] == [del];
    assert Taken(s.main, k2, s.branch[k2], us);
    assert s.main - {k1} == map[];
    assert s.branch == map[k2 := s.branch[k2]];
  }

  lemma AppliedIsMerged(s: Sides, cols: set<string>, k: Key, candidate: bool, r: Option<Row>)
    requires Shaped(s, cols)
    requires (candidate ==> !VerdictOf(s, k).Conflict?) && (Touched(s, k) ==> candidate)
    requires r == if candidate && VerdictOf(s, k) in {Apply(Insert), Apply(Update), Apply(Delete)}
      then Lookup(s.branch, k) else Lookup(Extended(s.main, s.defaults), k)
    ensures r == Merged(s, k)
  {
    hide VerdictOf;
    VerdictMeaning(s, cols, k);
  }

  lemma JoinDistinct(a: seq<Key>, b: seq<Key>)
    requires Distinct(a) && Distinct(b) && forall k :: k in a ==> k !in b
    ensures Distinct(a + b)
  {
    var s := a + b;
    forall i, j | 0 <= i < j < |s| ensures s[i] != s[j] {
      if i < |a| <= j {
        assert s[i] in a && s[j] in b;
      }
    }
  }

  function Target(e: Stmt, pk: seq<string>): Key {
    match e
    case InsertRow(r) => KeyOf(pk, r)
    case UpdateRow(k, _) => k
    case DeleteRow(k) => k
  }

  lemma {:induction false} EmitTargets(s: Sides, cols: set<string>, keys: seq<Key>, e: Stmt)
    requires Shaped(s, cols) && e in Emit(s, keys)
    ensures Touched(s, Target(e, s.pk)) && !MainTouched(s, Target(e, s.pk))
  {
    hide Shaped, StmtsFor, Touched, MainTouched, Target, VerdictOf;
    var n := |keys| - 1;
    if e in Emit(s, keys[..n]) {
      EmitTargets(s, cols, keys[..n], e);
    } else {
      StmtTarget(s, cols, keys[n], e);
      VerdictMeaning(s, cols, keys[n]);
    }
  }

  lemma StmtTarget(s: Sides, cols: set<string>, k: Key, e: Stmt)
    requires Shaped(s, cols) && e in StmtsFor(s, k)
    ensures Target(e, s.pk) == k && VerdictOf(s, k).Apply?
  {
    hide VerdictOf, SetList;
  }

  /** No statement targets a key that BRANCH left as in BASE or that MAIN changed, whatever
      the candidates are. */
  lemma DriftIsNeverTouched(s: Sides, cols: set<string>, candidates: seq<Key>, e: Stmt)
    requires Shaped(s, cols) && e in Statements(s, candidates)
    ensures Touched(s, Target(e, s.pk)) && !MainTouched(s, Target(e, s.pk))
  {
    var op :| (op == Insert || op == Update || op == Delete) && e in Emit(s, Chosen(s, candidates, op));
    EmitTargets(s, cols, Chosen(s, candidates, op), e);
  }

  // ---------- diffing again ----------

  /** The table as a second diff sees it: MAIN holds the merge and no column is missing. */
  ghost predicate Rediff(s: Sides, again: Sides) {
    && again == s.(main := again.main, defaults := map[])
    && forall k :: Lookup(again.main, k) == Merged(s, k)
  }

  lemma SecondVerdict(s: Sides, cols: set<string>, again: Sides, k: Key)
    requires Shaped(s, cols) && Rediff(s, again) && !Disagree(s, k)
    ensures VerdictOf(again, k).Skip? || VerdictOf(again, k).Drift?
  {
    assert Lookup(again.main, k) == Merged(s, k);
    if Touched(s, k) {
      AgreedVerdict(again, k);
    } else {
      UntouchedVerdict(s, cols, again, k);
    }
  }

  /** Where both sides hold the same row there is nothing to do. */
  lemma AgreedVerdict(s: Sides, k: Key)
    requires s.defaults == map[] && Lookup(s.main, k) == Lookup(s.branch, k)
    ensures VerdictOf(s, k).Skip? || VerdictOf(s, k).Drift?
  {
    if k in s.branch {
      assert Flagged(s.branch[k], map[]) == {};
    }
  }

  lemma UntouchedVerdict(s: Sides, cols: set<string>, again: Sides, k: Key)
    requires Shaped(s, cols) && Rediff(s, again) && !Touched(s, k)
    ensures VerdictOf(again, k).Skip? || VerdictOf(again, k).Drift?
  {
    hide MainOp;
    if k in s.branch {
      assert Flagged(s.branch[k], map[]) == {};
    }
  }

  /** After a conflict-free merge is applied, a second diff with the same BASE and BRANCH
      reports no conflict and writes nothing, for any candidates. */
  lemma {:induction false} RediffIsEmpty(s: Sides, cols: set<string>, again: Sides, keys: seq<Key>)
    requires Shaped(s, cols) && Rediff(s, again)
    requires forall k :: !Disagree(s, k)
    ensures Conflicts(again, keys) == [] && Statements(again, keys) == []
  {
    NothingChosen(s, cols, again, keys, Insert);
    NothingChosen(s, cols, again, keys, Update);
    NothingChosen(s, cols, again, keys, Delete);
  }

  lemma {:induction false} NothingChosen(s: Sides, cols: set<string>, again: Sides, keys: seq<Key>, op: Op)
    requires Shaped(s, cols) && Rediff(s, again)
    requires forall k :: !Disagree(s, k)
    ensures Conflicts(again, keys) == [] && Chosen(again, keys, op) == []
  {
    if keys != [] {
      NothingChosen(s, cols, again, keys[..|keys| - 1], op);
      SecondVerdict(s, cols, again, keys[|keys| - 1]);
    }
  }
}
