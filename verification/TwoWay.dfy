/** The two-way diff on changed pages, against the naive diff of whole tables. */
module TwoWay {
  import opened Types
  import opened Heap
  import Candidates
  import RowMerge
  import NoPkMerge

  type Table = RowMerge.Table
  type Stmt = RowMerge.Stmt

  // ---------- the diff of two row maps ----------

  /** The columns an UPDATE sets: outside the key, changed, or added and not at their default. */
  function RowDiff(new_: Row, was: Row, defaults: Row, pk: seq<string>): Row {
    map c | c in new_ && c !in pk &&
      (if c in was then new_[c] != was[c] else c in defaults && new_[c] != defaults[c]) :: new_[c]
  }

  function InsertsFor(cur: Table, src: Table, keys: seq<Key>): seq<Stmt> {
    if keys == [] then []
    else
      var k := keys[|keys| - 1];
      InsertsFor(cur, src, keys[..|keys| - 1]) + if k in cur && k !in src then [RowMerge.InsertRow(cur[k])] else []
  }

  function UpdatesFor(cur: Table, src: Table, defaults: Row, pk: seq<string>, keys: seq<Key>): seq<Stmt> {
    if keys == [] then []
    else
      var k := keys[|keys| - 1];
      UpdatesFor(cur, src, defaults, pk, keys[..|keys| - 1]) +
      if k in cur && k in src && RowDiff(cur[k], src[k], defaults, pk) != map[]
      then [RowMerge.UpdateRow(k, RowDiff(cur[k], src[k], defaults, pk))] else []
  }

  function DeletesFor(cur: Table, src: Table, keys: seq<Key>): seq<Stmt> {
    if keys == [] then []
    else
      var k := keys[|keys| - 1];
      DeletesFor(cur, src, keys[..|keys| - 1]) + if k in src && k !in cur then [RowMerge.DeleteRow(k)] else []
  }

  /** The page diff of one table: the rows fetched from the changed blocks of both files. */
  method CrossDiffTable(cur: Table, src: Table, defaults: Row, pk: seq<string>, keys: seq<Key>)
    returns (stmts: seq<Stmt>)
    ensures stmts == InsertsFor(cur, src, keys) + UpdatesFor(cur, src, defaults, pk, keys) + DeletesFor(cur, src, keys)
  {
    var inserts, updates, deletes := DiffKeys(cur, src, defaults, pk, keys);
    stmts := inserts + updates + deletes;
  }

  /** Deletes, then inserts, then updates. */
  function NaiveDiff(left: Table, right: Table, pk: seq<string>, keys: seq<Key>): seq<Stmt> {
    DeletesFor(right, left, keys) + InsertsFor(right, left, keys) + UpdatesFor(right, left, map[], pk, keys)
  }

  /** The naive diff of one table: whole tables, deletes first. */
  method DmlDiffTable(left: Table, right: Table, pk: seq<string>, keys: seq<Key>) returns (stmts: seq<Stmt>)
    ensures stmts == NaiveDiff(left, right, pk, keys)
  {
    var inserts, updates, deletes := DiffKeys(right, left, map[], pk, keys);
    stmts := deletes + inserts + updates;
  }

  method DiffKeys(cur: Table, src: Table, defaults: Row, pk: seq<string>, keys: seq<Key>)
    returns (inserts: seq<Stmt>, updates: seq<Stmt>, deletes: seq<Stmt>)
    ensures inserts == InsertsFor(cur, src, keys)
    ensures updates == UpdatesFor(cur, src, defaults, pk, keys)
    ensures deletes == DeletesFor(cur, src, keys)
  {
    hide RowDiff;
    inserts, updates, deletes := [], [], [];
    for i := 0 to |keys|
      invariant inserts == InsertsFor(cur, src, keys[..i])
      invariant updates == UpdatesFor(cur, src, defaults, pk, keys[..i])
      invariant deletes == DeletesFor(cur, src, keys[..i])
    {
      var k := keys[i];
      assert keys[..i + 1][..i] == keys[..i];
      if k in cur && k !in src {
        inserts := inserts + [RowMerge.InsertRow(cur[k])];
      } else if k in cur && k in src {
        var sets := RowDiff(cur[k], src[k], defaults, pk);
        if sets != map[] {
          updates := updates + [RowMerge.UpdateRow(k, sets)];
        }
      } else if k in src {
        deletes := deletes + [RowMerge.DeleteRow(k)];
      }
    }
    assert keys[..|keys|] == keys;
  }

  // ---------- changed pages show the whole difference ----------

  /** The rows of a table whose keys were read from some blocks. */
  function Restricted(t: Table, ks: set<Key>): Table {
    map k | k in t && k in ks :: t[k]
  }

  /** CURRENT and SOURCE as files, SOURCE still as it was at branch time. */
  datatype Files = Files(cur: Pages, src: Pages, pk: seq<string>, defaults: Row, blocks: set<nat>)

  ghost predicate FilesOk(f: Files) {
    && Candidates.Unique(f.cur, f.pk) && Candidates.Unique(f.src, f.pk)
    && ChangesWithin(f.cur, f.src, f.blocks) && |f.src| <= |f.cur|
  }

  ghost function Cur(f: Files): Table {
    Candidates.TableOf(f.cur, f.pk, f.defaults)
  }

  /** SOURCE's rows without the added columns. */
  ghost function Src(f: Files): Table {
    Candidates.TableOf(f.src, f.pk, map[])
  }

  ghost function FetchedCur(f: Files): Table {
    Restricted(Cur(f), Candidates.KeysOn(f.cur, f.pk, f.blocks))
  }

  ghost function FetchedSrc(f: Files): Table {
    Restricted(Src(f), Candidates.KeysOn(f.src, f.pk, f.blocks))
  }

  /** A key is read from the changed blocks of both files, of the one file that has it, or
      of neither although both show the same stored row. */
  lemma ReadTogether(f: Files, k: Key)
    requires FilesOk(f)
    ensures k in Candidates.KeysOn(f.cur, f.pk, f.blocks) && k in Src(f) ==>
      k in Candidates.KeysOn(f.src, f.pk, f.blocks)
    ensures k in Candidates.KeysOn(f.src, f.pk, f.blocks) && k in Cur(f) ==>
      k in Candidates.KeysOn(f.cur, f.pk, f.blocks)
  {
    if k in Candidates.KeysOn(f.cur, f.pk, f.blocks) && k in Src(f) {
      var b, i := Candidates.TableRowIsSomewhere(f.src, f.pk, map[], k);
      if b in f.blocks {
        Candidates.OnBlock(f.src, f.pk, f.blocks, b, i);
      } else {
        Candidates.SamePlace(f.cur, f.src, f.pk, f.defaults, b, i);
      }
    }
    if k in Candidates.KeysOn(f.src, f.pk, f.blocks) && k in Cur(f) {
      var b, i := Candidates.TableRowIsSomewhere(f.cur, f.pk, f.defaults, k);
      if b in f.blocks {
        Candidates.OnBlock(f.cur, f.pk, f.blocks, b, i);
      } else {
        Candidates.SamePlace(f.cur, f.src, f.pk, f.defaults, b, i);
      }
    }
  }

  lemma UnreadIsSame(f: Files, k: Key)
    requires FilesOk(f)
    requires k !in Candidates.KeysOn(f.cur, f.pk, f.blocks) && k !in Candidates.KeysOn(f.src, f.pk, f.blocks)
    ensures k in Cur(f) <==> k in Src(f)
    ensures k in Cur(f) ==> Cur(f)[k] == f.defaults + Src(f)[k]
  {
    if k in Cur(f) {
      var b, i := Candidates.TableRowIsSomewhere(f.cur, f.pk, f.defaults, k);
      if b in f.blocks {
        Candidates.OnBlock(f.cur, f.pk, f.blocks, b, i);
      } else {
        UnreadPlace(f, b, i);
      }
    } else if k in Src(f) {
      var b, i := Candidates.TableRowIsSomewhere(f.src, f.pk, map[], k);
      if b in f.blocks {
        Candidates.OnBlock(f.src, f.pk, f.blocks, b, i);
      } else {
        UnreadPlace(f, b, i);
      }
    }
  }

  lemma UnreadPlace(f: Files, b: nat, i: nat)
    requires FilesOk(f) && b !in f.blocks && (Candidates.At(f.cur, b, i) || Candidates.At(f.src, b, i))
    ensures Candidates.At(f.cur, b, i) && Candidates.At(f.src, b, i)
    ensures Candidates.KeyAt(f.cur, f.pk, b, i) == Candidates.KeyAt(f.src, f.pk, b, i)
    ensures var k := Candidates.KeyAt(f.cur, f.pk, b, i);
      k in Cur(f) && k in Src(f) && Cur(f)[k] == f.defaults + Src(f)[k]
  {
    hide Candidates.KeysOn, Candidates.TableOf, Candidates.Unique;
    assert b < |f.cur| && f.cur[b].slots == SlotsAt(f.src, b);
    Candidates.SamePlace(f.cur, f.src, f.pk, f.defaults, b, i);
    Candidates.RowIsInTable(f.cur, f.pk, f.defaults, b, i);
    Candidates.RowIsInTable(f.src, f.pk, map[], b, i);
    assert map[] + Candidates.RowAt(f.src, b, i) == Candidates.RowAt(f.src, b, i);
  }

  /** An unread row that agrees up to defaults gives no UPDATE. */
  lemma SameRowNoDiff(new_: Row, was: Row, defaults: Row, pk: seq<string>)
    requires new_ == defaults + was
    ensures RowDiff(new_, was, defaults, pk) == map[]
  {}

  /** Diffing the changed pages gives exactly the inserts, updates and deletes of diffing
      the whole tables, in the same order. */
  lemma {:induction false} PageDiffIsWholeDiff(f: Files, keys: seq<Key>)
    requires FilesOk(f)
    ensures InsertsFor(FetchedCur(f), FetchedSrc(f), keys) == InsertsFor(Cur(f), Src(f), keys)
    ensures DeletesFor(FetchedCur(f), FetchedSrc(f), keys) == DeletesFor(Cur(f), Src(f), keys)
    ensures UpdatesFor(FetchedCur(f), FetchedSrc(f), f.defaults, f.pk, keys)
      == UpdatesFor(Cur(f), Src(f), f.defaults, f.pk, keys)
  {
    hide RowDiff, FilesOk, Cur, Src;
    if keys != [] {
      var k := keys[|keys| - 1];
      PageDiffIsWholeDiff(f, keys[..|keys| - 1]);
      ReadTogether(f, k);
      if k !in Candidates.KeysOn(f.cur, f.pk, f.blocks) && k !in Candidates.KeysOn(f.src, f.pk, f.blocks) {
        UnreadIsSame(f, k);
        if k in Cur(f) {
          SameRowNoDiff(Cur(f)[k], Src(f)[k], f.defaults, f.pk);
        }
      }
    }
  }

  // ---------- the two-way diff is the three-way diff of an unchanged parent ----------

  /** MAIN still as BASE. */
  function Undrifted(cur: Table, src: Table, defaults: Row, pk: seq<string>): RowMerge.Sides {
    RowMerge.Sides(cur, src, src, defaults, pk)
  }

  lemma RowDiffIsSetList(s: RowMerge.Sides, cols: set<string>, k: Key)
    requires RowMerge.Shaped(s, cols) && k in s.branch && k in s.base
    ensures RowDiff(s.branch[k], s.base[k], s.defaults, s.pk)
      == RowMerge.SetList(s.branch[k], s.base[k], s.defaults, s.pk)
  {
    var a := RowDiff(s.branch[k], s.base[k], s.defaults, s.pk);
    var b := RowMerge.SetList(s.branch[k], s.base[k], s.defaults, s.pk);
    assert forall c :: c in a <==> c in b;
  }

  lemma {:induction false} KeyStatements(s: RowMerge.Sides, cols: set<string>, k: Key)
    requires RowMerge.Shaped(s, cols) && s.main == s.base
    ensures RowMerge.VerdictOf(s, k) ==
      if RowMerge.Touched(s, k) then RowMerge.Apply(RowMerge.BranchEffect(s, k)) else RowMerge.Skip
    ensures k in s.branch && k in s.base ==>
      (RowMerge.Touched(s, k) <==> RowDiff(s.branch[k], s.base[k], s.defaults, s.pk) != map[])
  {
    hide RowMerge.VerdictOf, RowMerge.Shaped, RowMerge.Touched, RowMerge.Disagree, RowMerge.SetList,
      RowMerge.BranchEffect,
      RowDiff;
    RowMerge.VerdictMeaning(s, cols, k);
    UndriftedVerdict(s, k);
    if k in s.branch && k in s.base {
      RowDiffIsSetList(s, cols, k);
      if RowMerge.Touched(s, k) {
        RowMerge.SetListNotEmpty(s, cols, k);
      } else {
        UntouchedNoDiff(s, cols, k);
      }
    }
  }

  lemma UntouchedNoDiff(s: RowMerge.Sides, cols: set<string>, k: Key)
    requires RowMerge.Shaped(s, cols) && !RowMerge.Touched(s, k) && k in s.branch && k in s.base
    ensures RowDiff(s.branch[k], s.base[k], s.defaults, s.pk) == map[]
  {
    hide RowDiff, KeyOf;
    assert s.branch[k] == s.base[k] + s.defaults && s.base[k].Keys == cols;
    hide RowMerge.Shaped, RowMerge.Touched;
    SwapAdded(s.base[k], s.defaults);
    SameRowNoDiff(s.branch[k], s.base[k], s.defaults, s.pk);
  }

  lemma SwapAdded(r: Row, defaults: Row)
    requires r.Keys !! defaults.Keys
    ensures r + defaults == defaults + r
  {}

  lemma UndriftedVerdict(s: RowMerge.Sides, k: Key)
    requires s.main == s.base
    ensures !RowMerge.VerdictOf(s, k).Drift? && !RowMerge.VerdictOf(s, k).Conflict?
  {}

  /** When the parent did not move, the three-way merge writes what the two-way diff writes. */
  lemma TwoWayIsThreeWay(s: RowMerge.Sides, cols: set<string>, keys: seq<Key>)
    requires RowMerge.Shaped(s, cols) && s.main == s.base
    ensures RowMerge.Conflicts(s, keys) == []
    ensures RowMerge.Statements(s, keys) == InsertsFor(s.branch, s.base, keys)
      + UpdatesFor(s.branch, s.base, s.defaults, s.pk, keys) + DeletesFor(s.branch, s.base, keys)
  {
    NoConflicts(s, keys);
    InsertsMatch(s, cols, keys);
    UpdatesMatch(s, cols, keys);
    DeletesMatch(s, cols, keys);
  }

  lemma {:induction false} NoConflicts(s: RowMerge.Sides, keys: seq<Key>)
    requires s.main == s.base
    ensures RowMerge.Conflicts(s, keys) == []
  {
    if keys != [] {
      NoConflicts(s, keys[..|keys| - 1]);
      UndriftedVerdict(s, keys[|keys| - 1]);
    }
  }

  lemma {:induction false} InsertsMatch(s: RowMerge.Sides, cols: set<string>, keys: seq<Key>)
    requires RowMerge.Shaped(s, cols) && s.main == s.base
    ensures RowMerge.Emit(s, RowMerge.Chosen(s, keys, RowMerge.Insert)) == InsertsFor(s.branch, s.base, keys)
  {
    hide RowMerge.VerdictOf, RowMerge.Shaped, RowMerge.StmtsFor, RowDiff;
    if keys != [] {
      var front, k := keys[..|keys| - 1], keys[|keys| - 1];
      InsertsMatch(s, cols, front);
      KeyStatements(s, cols, k);
      ChosenStep(s, front, k, RowMerge.Insert);
      KeyStmts(s, cols, k);
      assert keys == front + [k];
      assert k in s.branch && k !in s.base ==> RowMerge.Touched(s, k);
      assert k !in s.branch && k in s.base ==> RowMerge.Touched(s, k);
    }
  }

  lemma {:induction false} UpdatesMatch(s: RowMerge.Sides, cols: set<string>, keys: seq<Key>)
    requires RowMerge.Shaped(s, cols) && s.main == s.base
    ensures RowMerge.Emit(s, RowMerge.Chosen(s, keys, RowMerge.Update))
      == UpdatesFor(s.branch, s.base, s.defaults, s.pk, keys)
  {
    hide RowMerge.VerdictOf, RowMerge.Shaped, RowMerge.StmtsFor, RowDiff;
    if keys != [] {
      var front, k := keys[..|keys| - 1], keys[|keys| - 1];
      UpdatesMatch(s, cols, front);
      KeyStatements(s, cols, k);
      ChosenStep(s, front, k, RowMerge.Update);
      KeyStmts(s, cols, k);
      assert keys == front + [k];
      assert k in s.branch && k !in s.base ==> RowMerge.Touched(s, k);
      assert k !in s.branch && k in s.base ==> RowMerge.Touched(s, k);
    }
  }

  lemma {:induction false} DeletesMatch(s: RowMerge.Sides, cols: set<string>, keys: seq<Key>)
    requires RowMerge.Shaped(s, cols) && s.main == s.base
    ensures RowMerge.Emit(s, RowMerge.Chosen(s, keys, RowMerge.Delete)) == DeletesFor(s.branch, s.base, keys)
  {
    hide RowMerge.VerdictOf, RowMerge.Shaped, RowMerge.StmtsFor, RowDiff;
    if keys != [] {
      var front, k := keys[..|keys| - 1], keys[|keys| - 1];
      DeletesMatch(s, cols, front);
      KeyStatements(s, cols, k);
      ChosenStep(s, front, k, RowMerge.Delete);
      KeyStmts(s, cols, k);
      assert keys == front + [k];
      assert k in s.branch && k !in s.base ==> RowMerge.Touched(s, k);
      assert k !in s.branch && k in s.base ==> RowMerge.Touched(s, k);
    }
  }

  lemma ChosenStep(s: RowMerge.Sides, front: seq<Key>, k: Key, op: RowMerge.Op)
    ensures RowMerge.Emit(s, RowMerge.Chosen(s, front + [k], op)) == RowMerge.Emit(s, RowMerge.Chosen(s, front, op))
      + if RowMerge.VerdictOf(s, k) == RowMerge.Apply(op) then RowMerge.StmtsFor(s, k) else []
  {
    hide RowMerge.VerdictOf, RowMerge.StmtsFor;
    assert (front + [k])[..|front|] == front;
    var chosen := RowMerge.Chosen(s, front, op);
    if RowMerge.VerdictOf(s, k) == RowMerge.Apply(op) {
      EmitSnoc(s, chosen, k);
    } else {
      assert chosen + [] == chosen;
    }
  }

  lemma EmitSnoc(s: RowMerge.Sides, ks: seq<Key>, k: Key)
    ensures RowMerge.Emit(s, ks + [k]) == RowMerge.Emit(s, ks) + RowMerge.StmtsFor(s, k)
  {
    assert (ks + [k])[..|ks|] == ks;
  }

  function StmtOf(s: RowMerge.Sides, k: Key): Stmt {
    if k !in s.branch then RowMerge.DeleteRow(k)
    else if k !in s.base then RowMerge.InsertRow(s.branch[k])
    else RowMerge.UpdateRow(k, RowDiff(s.branch[k], s.base[k], s.defaults, s.pk))
  }

  lemma KeyStmts(s: RowMerge.Sides, cols: set<string>, k: Key)
    requires RowMerge.Shaped(s, cols) && s.main == s.base
    ensures RowMerge.Touched(s, k) ==> (k in s.branch || k in s.base) && RowMerge.StmtsFor(s, k) == [StmtOf(s, k)]
  {
    hide RowMerge.VerdictOf;
    KeyStatements(s, cols, k);
    if RowMerge.Touched(s, k) {
      var e := RowMerge.OneStmtFor(s, cols, k);
      if k in s.branch && k in s.base {
        RowDiffIsSetList(s, cols, k);
      }
    }
  }

  /** Running the page diff on SOURCE, extended by the added columns, gives CURRENT, or stops
      because a unique value is taken when the INSERTs come first. */
  lemma PageDiffConverges(f: Files, cols: set<string>, keys: seq<Key>, us: Uniques)
    requires FilesOk(f)
    requires RowMerge.Shaped(Undrifted(Cur(f), Src(f), f.defaults, f.pk), cols)
    requires RowMerge.Distinct(keys) && forall k :: k in Cur(f) || k in Src(f) ==> k in keys
    ensures var stmts := InsertsFor(FetchedCur(f), FetchedSrc(f), keys)
        + UpdatesFor(FetchedCur(f), FetchedSrc(f), f.defaults, f.pk, keys)
        + DeletesFor(FetchedCur(f), FetchedSrc(f), keys);
      var s := Undrifted(Cur(f), Src(f), f.defaults, f.pk);
      RowMerge.ExecuteAll(RowMerge.Extended(Src(f), f.defaults), stmts, f.pk, us) ==
        if RowMerge.UniquesFree(s, us, RowMerge.INSERTS_FIRST, keys) then Some(Cur(f)) else None
  {
    hide FilesOk, Cur, Src, RowMerge.UniquesFree;
    var s := Undrifted(Cur(f), Src(f), f.defaults, f.pk);
    PageDiffIsWholeDiff(f, keys);
    TwoWayIsThreeWay(s, cols, keys);
    UndriftedMerge(s, cols, keys, us);
  }

  lemma UndriftedMerge(s: RowMerge.Sides, cols: set<string>, keys: seq<Key>, us: Uniques)
    requires RowMerge.Shaped(s, cols) && s.main == s.base && RowMerge.Conflicts(s, keys) == []
    requires RowMerge.Distinct(keys) && forall k :: k in s.branch || k in s.base ==> k in keys
    ensures RowMerge.ExecuteAll(RowMerge.Extended(s.main, s.defaults), RowMerge.Statements(s, keys), s.pk, us) ==
      if RowMerge.UniquesFree(s, us, RowMerge.INSERTS_FIRST, keys) then Some(s.branch) else None
  {
    hide RowMerge.Shaped, RowMerge.UniquesFree, RowMerge.ExecuteAll, RowMerge.Statements, RowMerge.Extended;
    AllComplete(s, keys);
    RowMerge.MergeExact(s, cols, keys, us);
    match RowMerge.ExecuteAll(RowMerge.Extended(s.main, s.defaults), RowMerge.Statements(s, keys), s.pk, us)
    case None =>
    case Some(t) => MergedIsCurrent(s, t);
  }

  lemma MergedIsCurrent(s: RowMerge.Sides, t: Table)
    requires s.main == s.base && forall k :: Lookup(t, k) == RowMerge.Merged(s, k)
    ensures t == s.branch
  {
    forall k ensures Lookup(t, k) == Lookup(s.branch, k) {
      MergedIsBranch(s, k);
    }
    SameMap(t, s.branch);
  }

  /** Operations in the order in which the naive diff writes them. */
  const DELETES_FIRST: seq<RowMerge.Op> := [RowMerge.Delete, RowMerge.Insert, RowMerge.Update]

  /** Without added columns the naive diff has the same statements as the two-way diff and
      turns SOURCE into CURRENT as well, or stops because a unique value is taken when the
      DELETEs come first. */
  lemma NaiveDiffConverges(s: RowMerge.Sides, cols: set<string>, keys: seq<Key>, us: Uniques)
    requires RowMerge.Shaped(s, cols) && s.main == s.base && s.defaults == map[]
    requires RowMerge.Distinct(keys) && forall k :: k in s.branch || k in s.base ==> k in keys
    ensures var naive := NaiveDiff(s.base, s.branch, s.pk, keys);
      && (RowMerge.ExecuteAll(s.base, naive, s.pk, us) ==
           if RowMerge.UniquesFree(s, us, DELETES_FIRST, keys) then Some(s.branch) else None)
      && multiset(naive) == multiset(InsertsFor(s.branch, s.base, keys)
           + UpdatesFor(s.branch, s.base, map[], s.pk, keys) + DeletesFor(s.branch, s.base, keys))
  {
    hide RowMerge.Shaped, RowMerge.Emit, RowMerge.Chosen, RowMerge.ToApply, RowMerge.Distinct, RowMerge.ExecuteAll,
      RowMerge.UniquesFree, RowMerge.AllFree, RowMerge.Merged, InsertsFor, UpdatesFor, DeletesFor;
    var del, ins := RowMerge.Chosen(s, keys, RowMerge.Delete), RowMerge.Chosen(s, keys, RowMerge.Insert);
    var upd := RowMerge.Chosen(s, keys, RowMerge.Update);
    NoConflicts(s, keys);
    RowMerge.ChosenToApply(s, keys, RowMerge.Delete, RowMerge.Insert, RowMerge.Update);
    InsertsMatch(s, cols, keys);
    UpdatesMatch(s, cols, keys);
    DeletesMatch(s, cols, keys);
    RowMerge.EmitThree(s, del, ins, upd);
    AllComplete(s, keys);
    RowMerge.AnyOrderMerges(s, cols, keys, del + ins + upd, us);
    RowMerge.FreeInOrder(s, cols, keys, us, RowMerge.Delete, RowMerge.Insert, RowMerge.Update);
    NothingAdded(s);
    match RowMerge.ExecuteAll(s.base, RowMerge.Emit(s, del + ins + upd), s.pk, us)
    case None =>
    case Some(t) => MergedIsCurrent(s, t);
  }

  lemma AllComplete(s: RowMerge.Sides, keys: seq<Key>)
    requires forall k :: k in s.branch || k in s.base ==> k in keys
    ensures RowMerge.Complete(s, keys)
  {}

  lemma NothingAdded(s: RowMerge.Sides)
    requires s.main == s.base && s.defaults == map[]
    ensures RowMerge.Extended(s.main, s.defaults) == s.base
  {
    forall k | k in s.base ensures s.base[k] + map[] == s.base[k] {}
  }

  lemma MergedIsBranch(s: RowMerge.Sides, k: Key)
    requires s.main == s.base
    ensures RowMerge.Merged(s, k) == Lookup(s.branch, k)
  {}

  // ---------- tables without a key ----------

  /** Surplus copies are inserted, missing copies are deleted one by one. */
  method CrossDiffNoPk(cur: multiset<Row>, src: multiset<Row>, rows: seq<Row>)
    returns (inserts: seq<Row>, deletes: seq<Row>)
    ensures inserts == NoPkMerge.Added(Against(cur, src), rows)
    ensures deletes == NoPkMerge.Removed(Against(cur, src), rows)
  {
    hide NoPkMerge.Repeat;
    inserts, deletes := [], [];
    for i := 0 to |rows|
      invariant inserts == NoPkMerge.Added(Against(cur, src), rows[..i])
      invariant deletes == NoPkMerge.Removed(Against(cur, src), rows[..i])
    {
      var r := rows[i];
      assert rows[..i + 1][..i] == rows[..i];
      var extra := NoPkMerge.Count(cur, r) - NoPkMerge.Count(src, r);
      if extra > 0 {
        inserts := inserts + NoPkMerge.Repeat(r, extra);
      }
      if -extra > 0 {
        deletes := deletes + NoPkMerge.Repeat(r, -extra);
      }
    }
    assert rows[..|rows|] == rows;
  }

  /** The counters of a diff against a source that did not move. */
  function Against(cur: multiset<Row>, src: multiset<Row>): NoPkMerge.Counts {
    NoPkMerge.Counts(cur, src, src, src)
  }

  /** The multiset diff of changed pages turns SOURCE into CURRENT, duplicates included, when
      both have the same columns and SOURCE has room for what is inserted. */
  lemma NoPkDiffConverges(cur: Pages, src: Pages, cols: set<string>, blocks: set<nat>, rows: seq<Row>, us: Uniques)
    requires NoPkMerge.InColumns(cur, cols) && NoPkMerge.InColumns(src, cols)
    requires ChangesWithin(cur, src, blocks) && |src| <= |cur| && forall b :: b in blocks ==> b < |cur|
    requires NoPkMerge.Distinct(rows)
    requires forall r :: r in NoPkMerge.Fetched(cur, blocks) || r in NoPkMerge.Fetched(src, blocks) ==> r in rows
    ensures var c := Against(NoPkMerge.Fetched(cur, blocks), NoPkMerge.Fetched(src, blocks));
      && NoPkMerge.ExecuteAll(NoPkMerge.Contents(src), NoPkMerge.Statements(c, rows)) == NoPkMerge.Contents(cur)
      && NoPkMerge.DeletesFind(NoPkMerge.Contents(src), NoPkMerge.Statements(c, rows))
      && (NoPkMerge.InsertsFit(us, NoPkMerge.Contents(src), NoPkMerge.Statements(c, rows)) <==>
           NoPkMerge.RoomForGains(us,
             NoPkMerge.Tables(NoPkMerge.Contents(cur), NoPkMerge.Contents(src), NoPkMerge.Contents(src))))
  {
    hide NoPkMerge.InsertsFit, NoPkMerge.RoomForGains, NoPkMerge.InColumns, NoPkMerge.Distinct, NoPkMerge.ExecuteAll,
      NoPkMerge.Statements, NoPkMerge.DeletesFind, NoPkMerge.Fetched, NoPkMerge.Contents, ChangesWithin, NoPkMerge.Tail;
    var c := Against(NoPkMerge.Fetched(cur, blocks), NoPkMerge.Fetched(src, blocks));
    var t := NoPkMerge.Tables(NoPkMerge.Contents(cur), NoPkMerge.Contents(src), NoPkMerge.Contents(src));
    NoTail(src, |cur|);
    forall r ensures c.BranchDelta(r) == NoPkMerge.Count(t.branch, r) - NoPkMerge.Count(t.base, r) {
      NoPkMerge.DeltaOnChangedBlocks(cur, src, blocks, r);
    }
    forall r | c.BranchDelta(r) != 0 ensures r in rows {
      CountedIsIn(c.branch, r);
      CountedIsIn(c.baseOfBranch, r);
    }
    AgainstConverges(c, t, rows, us);
  }

  lemma NoTail(h: Pages, n: nat)
    requires |h| <= n
    ensures NoPkMerge.Tail(h, n) == multiset{}
  {}

  lemma CountedIsIn(t: multiset<Row>, r: Row)
    ensures NoPkMerge.Count(t, r) != 0 <==> r in t
    ensures NoPkMerge.Count(multiset{}, r) == 0
  {
  }

  lemma AgainstConverges(c: NoPkMerge.Counts, t: NoPkMerge.Tables, rows: seq<Row>, us: Uniques)
    requires NoPkMerge.Faithful(c, t, rows) && t.main == t.base
    ensures NoPkMerge.ExecuteAll(t.main, NoPkMerge.Statements(c, rows)) == t.branch
    ensures NoPkMerge.DeletesFind(t.main, NoPkMerge.Statements(c, rows))
    ensures NoPkMerge.InsertsFit(us, t.main, NoPkMerge.Statements(c, rows)) <==> NoPkMerge.RoomForGains(us, t)
  {
    hide NoPkMerge.InsertsFit, NoPkMerge.RoomForGains, NoPkMerge.Faithful, NoPkMerge.Clashes, NoPkMerge.Statements,
      NoPkMerge.ExecuteAll, NoPkMerge.DeletesFind;
    NoPkMerge.ClashIff(c, t, rows);
    NoPkMerge.MergeExact(c, t, rows);
    NoPkMerge.InsertsFitIff(us, c, t, rows);
    var result := NoPkMerge.ExecuteAll(t.main, NoPkMerge.Statements(c, rows));
    forall r ensures NoPkMerge.Count(result, r) == NoPkMerge.Count(t.branch, r) {
      assert NoPkMerge.Count(result, r) == NoPkMerge.MergedCount(t, r);
    }
    NoPkMerge.SameCounts(result, t.branch);
  }
}
