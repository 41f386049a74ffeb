/** Three-way merge of a table without a primary key: multiset deltas taken on changed pages. */
module NoPkMerge {
  import opened Types
  import opened Heap
  import opened PageFormat
  import Candidates

  // ---------- pages as multisets ----------

  /** How often a row occurs. */
  function Count(m: multiset<Row>, r: Row): int {
    m[r]
  }

  lemma SameCounts(a: multiset<Row>, b: multiset<Row>)
    requires forall r :: Count(a, r) == Count(b, r)
    ensures a == b
  {
    forall r ensures a[r] == b[r] {
      assert Count(a, r) == Count(b, r);
    }
  }

  function RowsOfSlots(slots: seq<Option<Row>>): multiset<Row> {
    if slots == [] then multiset{}
    else RowsOfSlots(slots[..|slots| - 1]) +
         match slots[|slots| - 1] case None => multiset{} case Some(r) => multiset{r}
  }

  /** Rows on the blocks below n that belong to `blocks`. */
  ghost function RowsBelow(h: Pages, blocks: set<nat>, n: nat): multiset<Row> {
    if n == 0 then multiset{}
    else RowsBelow(h, blocks, n - 1) +
         if n - 1 in blocks then RowsOfSlots(SlotsAt(h, n - 1)) else multiset{}
  }

  ghost function AllBelow(h: Pages, n: nat): multiset<Row> {
    if n == 0 then multiset{} else AllBelow(h, n - 1) + RowsOfSlots(SlotsAt(h, n - 1))
  }

  /** What fetching the ctids of some blocks returns. */
  ghost function Fetched(h: Pages, blocks: set<nat>): multiset<Row> {
    RowsBelow(h, blocks, |h|)
  }

  ghost function Contents(h: Pages): multiset<Row> {
    AllBelow(h, |h|)
  }

  /** The rows in the blocks of h from n on. */
  ghost function Tail(h: Pages, n: nat): multiset<Row>
    decreases |h| - n
  {
    if n >= |h| then multiset{} else RowsOfSlots(h[n].slots) + Tail(h, n + 1)
  }

  lemma {:induction false} UnreadBlocksCancel(side: Pages, base: Pages, blocks: set<nat>, n: nat, r: Row)
    requires ChangesWithin(side, base, blocks) && n <= |side|
    ensures Count(RowsBelow(side, blocks, n), r) - Count(RowsBelow(base, blocks, n), r) ==
      Count(AllBelow(side, n), r) - Count(AllBelow(base, n), r)
  {
    hide RowsOfSlots, Count;
    if n > 0 {
      UnreadBlocksCancel(side, base, blocks, n - 1, r);
      var s, b := RowsOfSlots(SlotsAt(side, n - 1)), RowsOfSlots(SlotsAt(base, n - 1));
      CountPlus(AllBelow(side, n - 1), s, r);
      CountPlus(AllBelow(base, n - 1), b, r);
      if n - 1 in blocks {
        CountPlus(RowsBelow(side, blocks, n - 1), s, r);
        CountPlus(RowsBelow(base, blocks, n - 1), b, r);
      } else {
        CountPlus(RowsBelow(side, blocks, n - 1), multiset{}, r);
        CountPlus(RowsBelow(base, blocks, n - 1), multiset{}, r);
        assert side[n - 1].slots == SlotsAt(base, n - 1);
      }
    }
  }

  lemma CountPlus(a: multiset<Row>, b: multiset<Row>, r: Row)
    ensures Count(a + b, r) == Count(a, r) + Count(b, r)
  {}

  lemma {:induction false} NothingAbove(h: Pages, blocks: set<nat>, n: nat, m: nat)
    requires n <= m && forall b :: b in blocks && n <= b < m ==> b >= |h|
    ensures RowsBelow(h, blocks, m) == RowsBelow(h, blocks, n)
  {
    if m > n {
      NothingAbove(h, blocks, n, m - 1);
    }
  }

  lemma NoSlots()
    ensures RowsOfSlots([]) == multiset{}
  {}

  lemma {:induction false} AllSplits(h: Pages, n: nat)
    ensures AllBelow(h, n) + Tail(h, n) == Contents(h)
    decreases if n < |h| then |h| - n else n - |h|
  {
    hide RowsOfSlots;
    if n < |h| {
      AllSplits(h, n + 1);
    } else if n > |h| {
      AllSplits(h, n - 1);
      NoSlots();
    }
  }

  /** The delta taken on the changed blocks misses exactly the rows in BASE's truncated tail. */
  lemma DeltaOnChangedBlocks(side: Pages, base: Pages, blocks: set<nat>, r: Row)
    requires ChangesWithin(side, base, blocks) && forall b :: b in blocks ==> b < |side|
    ensures Count(Fetched(side, blocks), r) - Count(Fetched(base, blocks), r)
      == Count(Contents(side), r) - Count(Contents(base), r) + Count(Tail(base, |side|), r)
  {
    UnreadBlocksCancel(side, base, blocks, |side|, r);
    if |base| <= |side| {
      NothingAbove(base, blocks, |base|, |side|);
    } else {
      NothingAbove(base, blocks, |side|, |base|);
    }
    AllSplits(base, |side|);
    assert Count(AllBelow(base, |side|) + Tail(base, |side|), r) == Count(Contents(base), r);
  }

  /** The delta on changed pages is the whole-table delta iff no copy of the row was cut off. */
  lemma DeltaIsWholeTableIff(side: Pages, base: Pages, blocks: set<nat>, r: Row)
    requires ChangesWithin(side, base, blocks) && forall b :: b in blocks ==> b < |side|
    ensures Count(Fetched(side, blocks), r) - Count(Fetched(base, blocks), r) ==
      Count(Contents(side), r) - Count(Contents(base), r)
      <==> r !in Tail(base, |side|)
  {
    DeltaOnChangedBlocks(side, base, blocks, r);
  }

  // ---------- fetching them ----------

  lemma {:induction false} ShownRows(slots: seq<Option<Row>>)
    ensures multiset(Candidates.RowsShown(slots)) == RowsOfSlots(slots)
  {
    if slots != [] {
      ShownRows(slots[..|slots| - 1]);
    }
  }

  lemma {:induction false} OneMoreBlock(h: Pages, blocks: set<nat>, b: nat, n: nat)
    requires b !in blocks
    ensures RowsBelow(h, blocks + {b}, n) ==
      RowsBelow(h, blocks, n) + if b < n then RowsOfSlots(SlotsAt(h, b)) else multiset{}
  {
    hide RowsOfSlots;
    if n > 0 {
      OneMoreBlock(h, blocks, b, n - 1);
    }
  }

  lemma {:induction false} NoBlocks(h: Pages, n: nat)
    ensures RowsBelow(h, {}, n) == multiset{}
  {
    if n > 0 {
      NoBlocks(h, n - 1);
    }
  }

  /** The rows fetched by ctid from some blocks of one database, counted. */
  method CollectRows(images: seq<Bytes>, h: Pages, blocks: seq<nat>) returns (rows: multiset<Row>)
    requires Candidates.Imaged(images, h) && forall i, j :: 0 <= i < j < |blocks| ==> blocks[i] != blocks[j]
    ensures rows == Fetched(h, Candidates.Listed(blocks))
  {
    hide RowsBelow, RowsOfSlots, Candidates.RowsShown, Candidates.Image;
    rows := multiset{};
    NoBlocks(h, |h|);
    assert Candidates.Listed(blocks[..0]) == {};
    for i := 0 to |blocks|
      invariant rows == Fetched(h, Candidates.Listed(blocks[..i]))
    {
      var b := blocks[i];
      assert b !in Candidates.Listed(blocks[..i]);
      assert Candidates.Listed(blocks[..i + 1]) == Candidates.Listed(blocks[..i]) + {b};
      OneMoreBlock(h, Candidates.Listed(blocks[..i]), b, |h|);
      if b < |images| {
        var found := Candidates.FetchBlock(images[b], h[b], b);
        ShownRows(h[b].slots);
        rows := rows + multiset(found);
      }
    }
    assert blocks[..|blocks|] == blocks;
  }

  // ---------- the merge ----------

  /** The four counters the merge compares. */
  datatype Counts = Counts(
      branch: multiset<Row>, baseOfBranch: multiset<Row>, main: multiset<Row>, baseOfMain: multiset<Row>) {
    function BranchDelta(r: Row): int {
      Count(branch, r) - Count(baseOfBranch, r)
    }
    function MainDelta(r: Row): int {
      Count(main, r) - Count(baseOfMain, r)
    }
  }

  datatype Action = Nothing | DriftOnly | AddCopies(n: nat) | RemoveCopies(n: nat) | Clash

  function Decide(bD: int, mD: int): Action {
    if bD == 0 && mD == 0 then Nothing
    else if bD == 0 then DriftOnly
    else if mD == 0 then (if bD > 0 then AddCopies(bD) else RemoveCopies(-bD))
    else if (bD > 0) == (mD > 0) then
      if bD > 0 then AddCopies(if bD > mD then bD - mD else 0)
      else RemoveCopies(if -bD > -mD then (-bD) - (-mD) else 0)
    else Clash
  }

  function ActionOf(c: Counts, r: Row): Action {
    Decide(c.BranchDelta(r), c.MainDelta(r))
  }

  function Repeat(r: Row, n: nat): seq<Row> {
    if n == 0 then [] else Repeat(r, n - 1) + [r]
  }

  function Added(c: Counts, rows: seq<Row>): seq<Row> {
    if rows == [] then []
    else Added(c, rows[..|rows| - 1]) +
         match ActionOf(c, rows[|rows| - 1]) case AddCopies(n) => Repeat(rows[|rows| - 1], n) case _ => []
  }

  function Removed(c: Counts, rows: seq<Row>): seq<Row> {
    if rows == [] then []
    else Removed(c, rows[..|rows| - 1]) +
         match ActionOf(c, rows[|rows| - 1]) case RemoveCopies(n) => Repeat(rows[|rows| - 1], n) case _ => []
  }

  function Clashes(c: Counts, rows: seq<Row>): seq<Row> {
    if rows == [] then []
    else Clashes(c, rows[..|rows| - 1]) + if ActionOf(c, rows[|rows| - 1]) == Clash then [rows[|rows| - 1]] else []
  }

  /** A row that only MAIN added or removed, and by how many copies. */
  datatype Drift = Drift(row: Row, mainDelta: int)

  function Drifted(c: Counts, rows: seq<Row>): seq<Drift> {
    if rows == [] then []
    else
      var r := rows[|rows| - 1];
      Drifted(c, rows[..|rows| - 1]) + if ActionOf(c, r) == DriftOnly then [Drift(r, c.MainDelta(r))] else []
  }

  datatype Stmt = InsertRow(row: Row) | DeleteOne(row: Row)

  function InsertsOf(rows: seq<Row>): seq<Stmt> {
    seq(|rows|, i requires 0 <= i < |rows| => InsertRow(rows[i]))
  }

  function DeletesOf(rows: seq<Row>): seq<Stmt> {
    seq(|rows|, i requires 0 <= i < |rows| => DeleteOne(rows[i]))
  }

  function Statements(c: Counts, rows: seq<Row>): seq<Stmt> {
    InsertsOf(Added(c, rows)) + DeletesOf(Removed(c, rows))
  }

  /** Every visible row has exactly these columns, so that rows are equal when the value
      tuples are. */
  ghost predicate InColumns(h: Pages, cols: set<string>) {
    forall b, i :: 0 <= b < |h| && 0 <= i < |h[b].slots| && h[b].slots[i].Some? ==> h[b].slots[i].value.Keys == cols
  }

  /** The conflicts that are reported: none for a table with columns that BRANCH added. */
  function Reported(added: set<string>, c: Counts, rows: seq<Row>): seq<Row> {
    if added != {} then [] else Clashes(c, rows)
  }

  /** The statements that are written. */
  function Written(added: set<string>, c: Counts, rows: seq<Row>): seq<Stmt> {
    if added != {} || Clashes(c, rows) != [] then [] else Statements(c, rows)
  }

  /** The drift that is reported row by row: none for a table that is skipped, all of it when
      rows of the table clash. */
  function ReportedDrift(added: set<string>, c: Counts, rows: seq<Row>): seq<Drift> {
    if added != {} then [] else Drifted(c, rows)
  }

  /** Merges one table. A table with columns that BRANCH added is skipped and reported as
      drift; a clash leaves the whole table without statements. */
  method MergeRows(added: set<string>, c: Counts, rows: seq<Row>)
    returns (stmts: seq<Stmt>, conflicts: seq<Row>, drifts: seq<Drift>, skipped: bool)
    ensures skipped <==> added != {}
    ensures conflicts == Reported(added, c, rows) && stmts == Written(added, c, rows)
    ensures drifts == ReportedDrift(added, c, rows)
    ensures skipped || conflicts != [] ==> stmts == []
  {
    hide Added, Removed, Clashes, Drifted;
    stmts, conflicts, drifts, skipped := [], [], [], added != {};
    if skipped {
      return;
    }
    var inserts, deletes;
    inserts, deletes, conflicts, drifts := ClassifyRows(c, rows);
    if conflicts != [] {
      return;
    }
    for i := 0 to |inserts|
      invariant stmts == InsertsOf(inserts[..i])
    {
      stmts := stmts + [InsertRow(inserts[i])];
    }
    for i := 0 to |deletes|
      invariant stmts == InsertsOf(inserts) + DeletesOf(deletes[..i])
    {
      stmts := stmts + [DeleteOne(deletes[i])];
    }
  }

  method ClassifyRows(c: Counts, rows: seq<Row>)
    returns (inserts: seq<Row>, deletes: seq<Row>, conflicts: seq<Row>, drifts: seq<Drift>)
    ensures inserts == Added(c, rows) && deletes == Removed(c, rows)
    ensures conflicts == Clashes(c, rows) && drifts == Drifted(c, rows)
  {
    hide Repeat;
    inserts, deletes, conflicts, drifts := [], [], [], [];
    for i := 0 to |rows|
      invariant inserts == Added(c, rows[..i])
      invariant deletes == Removed(c, rows[..i])
      invariant conflicts == Clashes(c, rows[..i])
      invariant drifts == Drifted(c, rows[..i])
    {
      var r := rows[i];
      assert rows[..i + 1][..i] == rows[..i];
      var bD, mD := c.BranchDelta(r), c.MainDelta(r);
      if bD == 0 && mD == 0 {
      } else if bD == 0 {
        drifts := drifts + [Drift(r, mD)];
      } else if mD == 0 {
        if bD > 0 {
          inserts := inserts + Repeat(r, bD);
        } else {
          deletes := deletes + Repeat(r, -bD);
        }
      } else if (bD > 0) == (mD > 0) {
        if bD > 0 {
          inserts := inserts + Repeat(r, if bD > mD then bD - mD else 0);
        } else {
          deletes := deletes + Repeat(r, if -bD > -mD then (-bD) - (-mD) else 0);
        }
      } else {
        conflicts := conflicts + [r];
      }
    }
    assert rows[..|rows|] == rows;
  }

  // ---------- meaning ----------

  /** DELETE with a LIMIT 1 subselect: removes one copy, or nothing when there is none. */
  function Execute(t: multiset<Row>, e: Stmt): multiset<Row> {
    match e
    case InsertRow(r) => t + multiset{r}
    case DeleteOne(r) => t - multiset{r}
  }

  function ExecuteAll(t: multiset<Row>, es: seq<Stmt>): multiset<Row> {
    if es == [] then t else Execute(ExecuteAll(t, es[..|es| - 1]), es[|es| - 1])
  }

  /** Every delete finds a row to delete when it runs. */
  ghost predicate DeletesFind(t: multiset<Row>, es: seq<Stmt>) {
    forall i :: 0 <= i < |es| && es[i].DeleteOne? ==> es[i].row in ExecuteAll(t, es[..i])
  }

  /** No INSERT brings a unique value that a row holds when it runs. */
  ghost predicate InsertsFit(us: Uniques, t: multiset<Row>, es: seq<Stmt>) {
    forall i :: 0 <= i < |es| && es[i].InsertRow? ==> Room(us, ExecuteAll(t, es[..i]), es[i].row)
  }

  ghost predicate Room(us: Uniques, t: multiset<Row>, r: Row) {
    forall x :: x in t ==> !Collide(us, r, x)
  }

  lemma {:induction false} RunInserts(t: multiset<Row>, rows: seq<Row>)
    ensures ExecuteAll(t, InsertsOf(rows)) == t + multiset(rows)
  {
    if rows != [] {
      var n := |rows| - 1;
      RunInserts(t, rows[..n]);
      assert InsertsOf(rows)[..n] == InsertsOf(rows[..n]);
      assert rows == rows[..n] + [rows[n]];
    }
  }

  lemma {:induction false} RunDeletes(t: multiset<Row>, rows: seq<Row>)
    requires multiset(rows) <= t
    ensures ExecuteAll(t, DeletesOf(rows)) == t - multiset(rows)
  {
    if rows != [] {
      var n := |rows| - 1;
      LastRow(rows);
      RunDeletes(t, rows[..n]);
      LastDelete(rows);
      hide DeletesOf;
      OneMoreLess(t, multiset(rows[..n]), rows[n]);
    }
  }

  lemma LastRow(rows: seq<Row>)
    requires rows != []
    ensures multiset(rows) == multiset(rows[..|rows| - 1]) + multiset{rows[|rows| - 1]}
  {
    assert rows == rows[..|rows| - 1] + [rows[|rows| - 1]];
  }

  lemma LastDelete(rows: seq<Row>)
    requires rows != []
    ensures DeletesOf(rows) == DeletesOf(rows[..|rows| - 1]) + [DeleteOne(rows[|rows| - 1])]
    ensures DeletesOf(rows)[..|rows| - 1] == DeletesOf(rows[..|rows| - 1])
  {}

  lemma OneMoreLess(t: multiset<Row>, gone: multiset<Row>, r: Row)
    ensures t - gone - multiset{r} == t - (gone + multiset{r})
  {}

  lemma AllDeletesFind(t: multiset<Row>, rows: seq<Row>)
    requires multiset(rows) <= t
    ensures DeletesFind(t, DeletesOf(rows))
  {
    hide ExecuteAll;
    forall i | 0 <= i < |rows| ensures rows[i] in ExecuteAll(t, DeletesOf(rows)[..i]) {
      OneDeleteFinds(t, rows, i);
    }
  }

  lemma OneDeleteFinds(t: multiset<Row>, rows: seq<Row>, i: nat)
    requires multiset(rows) <= t && i < |rows|
    ensures rows[i] in ExecuteAll(t, DeletesOf(rows)[..i])
  {
    hide ExecuteAll;
    var before := rows[..i];
    assert rows == (before + [rows[i]]) + rows[i + 1..];
    assert multiset(before) + multiset{rows[i]} <= multiset(rows);
    RunDeletes(t, before);
    assert DeletesOf(rows)[..i] == DeletesOf(before);
  }

  lemma {:induction false} RunConcat(t: multiset<Row>, a: seq<Stmt>, b: seq<Stmt>)
    ensures ExecuteAll(t, a + b) == ExecuteAll(ExecuteAll(t, a), b)
  {
    hide Execute;
    if b == [] {
      assert a + b == a;
    } else {
      RunConcat(t, a, b[..|b| - 1]);
      assert (a + b)[..|a + b| - 1] == a + b[..|b| - 1];
    }
  }

  lemma {:induction false} RepeatCount(r: Row, n: nat, x: Row)
    ensures Count(multiset(Repeat(r, n)), x) == if x == r then n else 0
  {
    if n > 0 {
      RepeatCount(r, n - 1, x);
    }
  }

  lemma CountConcat(a: seq<Row>, b: seq<Row>, x: Row)
    ensures Count(multiset(a + b), x) == Count(multiset(a), x) + Count(multiset(b), x)
  {}

  lemma NoRows(x: Row)
    ensures Count(multiset([]), x) == 0
  {}

  ghost predicate Distinct(rows: seq<Row>) {
    forall i, j :: 0 <= i < j < |rows| ==> rows[i] != rows[j]
  }

  lemma {:induction false} AddedCount(c: Counts, rows: seq<Row>, x: Row)
    requires Distinct(rows)
    ensures Count(multiset(Added(c, rows)), x) ==
      if x in rows && ActionOf(c, x).AddCopies? then ActionOf(c, x).n else 0
  {
    hide ActionOf, Repeat, Count;
    if rows == [] {
      NoRows(x);
    } else {
      var n := |rows| - 1;
      AddedCount(c, rows[..n], x);
      assert rows == rows[..n] + [rows[n]];
      var copies := match ActionOf(c, rows[n]) case AddCopies(m) => Repeat(rows[n], m) case _ => [];
      CountConcat(Added(c, rows[..n]), copies, x);
      NoRows(x);
      match ActionOf(c, rows[n])
      case AddCopies(m) => RepeatCount(rows[n], m, x);
      case _ =>
    }
  }

  lemma {:induction false} RemovedCount(c: Counts, rows: seq<Row>, x: Row)
    requires Distinct(rows)
    ensures Count(multiset(Removed(c, rows)), x) ==
      if x in rows && ActionOf(c, x).RemoveCopies? then ActionOf(c, x).n else 0
  {
    hide ActionOf, Repeat, Count;
    if rows == [] {
      NoRows(x);
    } else {
      var n := |rows| - 1;
      RemovedCount(c, rows[..n], x);
      assert rows == rows[..n] + [rows[n]];
      var copies := match ActionOf(c, rows[n]) case RemoveCopies(m) => Repeat(rows[n], m) case _ => [];
      CountConcat(Removed(c, rows[..n]), copies, x);
      NoRows(x);
      match ActionOf(c, rows[n])
      case RemoveCopies(m) => RepeatCount(rows[n], m, x);
      case _ =>
    }
  }

  lemma {:induction false} DriftedExact(c: Counts, rows: seq<Row>, r: Row, d: int)
    ensures Drift(r, d) in Drifted(c, rows) <==> r in rows && ActionOf(c, r) == DriftOnly && d == c.MainDelta(r)
  {
    if rows != [] {
      DriftedExact(c, rows[..|rows| - 1], r, d);
    }
  }

  lemma {:induction false} ClashesExact(c: Counts, rows: seq<Row>)
    ensures forall r :: r in Clashes(c, rows) <==> r in rows && ActionOf(c, r) == Clash
    ensures (forall r :: r in rows ==> ActionOf(c, r) != Clash) ==> Clashes(c, rows) == []
  {
    if rows != [] {
      var front := rows[..|rows| - 1];
      ClashesExact(c, front);
      assert rows == front + [rows[|rows| - 1]];
    }
  }

  // ---------- the merged table ----------

  /** The whole tables on the three sides. */
  datatype Tables = Tables(branch: multiset<Row>, main: multiset<Row>, base: multiset<Row>)

  /** The counters agree with the whole tables and the rows cover every difference. */
  ghost predicate Faithful(c: Counts, t: Tables, rows: seq<Row>) {
    && Distinct(rows)
    && (forall r :: c.BranchDelta(r) == Count(t.branch, r) - Count(t.base, r))
    && (forall r :: c.MainDelta(r) == Count(t.main, r) - Count(t.base, r))
    && (forall r :: c.BranchDelta(r) != 0 || c.MainDelta(r) != 0 ==> r in rows)
  }

  function Abs(n: int): nat {
    if n < 0 then -n else n
  }

  /** The delta of larger size; with equal signs or a zero this is the merged delta. */
  function Larger(a: int, b: int): int {
    if Abs(a) >= Abs(b) then a else b
  }

  /** BASE's count changed by the merged delta. */
  function MergedCount(t: Tables, r: Row): int {
    Count(t.base, r) + Larger(Count(t.branch, r) - Count(t.base, r), Count(t.main, r) - Count(t.base, r))
  }

  /** By how many copies the merge has more of a row than MAIN. */
  function Gain(t: Tables, r: Row): int {
    MergedCount(t, r) - Count(t.main, r)
  }

  predicate Opposite(t: Tables, r: Row) {
    var b, m := Count(t.branch, r) - Count(t.base, r), Count(t.main, r) - Count(t.base, r);
    b > 0 > m || m > 0 > b
  }

  /** A conflict is reported iff some row was added on one side and removed on the other. */
  lemma ClashIff(c: Counts, t: Tables, rows: seq<Row>)
    requires Faithful(c, t, rows)
    ensures Clashes(c, rows) != [] <==> exists r :: Opposite(t, r)
  {
    ClashesExact(c, rows);
    if Clashes(c, rows) != [] {
      var r := Clashes(c, rows)[0];
      assert r in Clashes(c, rows);
      assert Opposite(t, r);
    }
    if r :| Opposite(t, r) {
      assert c.BranchDelta(r) == Count(t.branch, r) - Count(t.base, r);
      assert r in Clashes(c, rows);
    }
  }

  /** Without conflict the statements change BASE's count of every row by the larger of the
      two deltas, and every delete finds its row. */
  lemma MergeExact(c: Counts, t: Tables, rows: seq<Row>)
    requires Faithful(c, t, rows) && Clashes(c, rows) == []
    ensures DeletesFind(t.main, Statements(c, rows))
    ensures forall r :: Count(ExecuteAll(t.main, Statements(c, rows)), r) == MergedCount(t, r)
  {
    var added, removed := Added(c, rows), Removed(c, rows);
    hide Faithful, Added, Removed, MergedCount;
    forall r ensures Count(multiset(removed), r) <= Count(t.main, r) {
      OneRowMerged(c, t, rows, r);
    }
    RunStatements(t.main, added, removed);
    forall r ensures Count(ExecuteAll(t.main, Statements(c, rows)), r) == MergedCount(t, r)
    {
      OneRowMerged(c, t, rows, r);
    }
  }

  lemma OneCount(t: multiset<Row>, added: multiset<Row>, removed: multiset<Row>, r: Row)
    requires Count(removed, r) <= Count(t, r)
    ensures Count(t + added - removed, r) == Count(t, r) + Count(added, r) - Count(removed, r)
  {}

  lemma RunStatements(t: multiset<Row>, added: seq<Row>, removed: seq<Row>)
    requires forall r :: Count(multiset(removed), r) <= Count(t, r)
    ensures var es := InsertsOf(added) + DeletesOf(removed);
      DeletesFind(t, es) && ExecuteAll(t, es) == t + multiset(added) - multiset(removed)
    ensures forall r :: (Count(t + multiset(added) - multiset(removed), r)
      == Count(t, r) + Count(multiset(added), r) - Count(multiset(removed), r))
  {
    assert multiset(removed) <= t + multiset(added) by {
      forall r ensures multiset(removed)[r] <= (t + multiset(added))[r] {
        assert Count(multiset(removed), r) <= Count(t, r);
      }
    }
    RunInserts(t, added);
    RunDeletes(t + multiset(added), removed);
    AllDeletesFind(t + multiset(added), removed);
    RunConcat(t, InsertsOf(added), DeletesOf(removed));
    FindAfterInserts(t, added, removed);
    forall r {
      OneCount(t, multiset(added), multiset(removed), r);
    }
  }

  lemma OneRowMerged(c: Counts, t: Tables, rows: seq<Row>, r: Row)
    requires Faithful(c, t, rows) && Clashes(c, rows) == []
    ensures Count(t.main, r) + Count(multiset(Added(c, rows)), r) - Count(multiset(Removed(c, rows)), r) ==
      MergedCount(t, r)
    ensures Count(multiset(Removed(c, rows)), r) <= Count(t.main, r)
  {
    hide Added, Removed, Count, MergedCount;
    AddedCount(c, rows, r);
    RemovedCount(c, rows, r);
    ActionIs(c, t, rows, r);
    hide Faithful, Clashes, ActionOf;
    ActionMerges(t, r, ActionOf(c, r));
  }

  /** What is done about a row is decided on the whole tables. */
  lemma ActionIs(c: Counts, t: Tables, rows: seq<Row>, r: Row)
    requires Faithful(c, t, rows) && Clashes(c, rows) == []
    ensures ActionOf(c, r) == Decide(Count(t.branch, r) - Count(t.base, r), Count(t.main, r) - Count(t.base, r))
    ensures ActionOf(c, r) != Clash && (r !in rows ==> ActionOf(c, r) == Nothing)
  {
    hide Clashes;
    ClashesExact(c, rows);
    assert c.BranchDelta(r) == Count(t.branch, r) - Count(t.base, r);
    assert c.MainDelta(r) == Count(t.main, r) - Count(t.base, r);
  }

  lemma ActionMerges(t: Tables, r: Row, a: Action)
    requires a == Decide(Count(t.branch, r) - Count(t.base, r), Count(t.main, r) - Count(t.base, r)) && a != Clash
    ensures var (add, remove) := (if a.AddCopies? then a.n else 0, if a.RemoveCopies? then a.n else 0);
      && Count(t.main, r) + add - remove == MergedCount(t, r) && remove <= Count(t.main, r)
      && add == (if Gain(t, r) > 0 then Gain(t, r) else 0)
  {}

  lemma FindAfterInserts(t: multiset<Row>, added: seq<Row>, removed: seq<Row>)
    requires DeletesFind(t + multiset(added), DeletesOf(removed))
    ensures DeletesFind(t, InsertsOf(added) + DeletesOf(removed))
  {
    var a, b := InsertsOf(added), DeletesOf(removed);
    var es := a + b;
    RunInserts(t, added);
    forall i | 0 <= i < |es| && es[i].DeleteOne? ensures es[i].row in ExecuteAll(t, es[..i]) {
      var j := i - |a|;
      assert es[..i] == a + b[..j];
      RunConcat(t, a, b[..j]);
      assert b[j].row in ExecuteAll(t + multiset(added), b[..j]);
    }
  }

  /** The drift reported row by row is exactly what only MAIN added or removed. */
  lemma DriftExact(c: Counts, t: Tables, rows: seq<Row>, r: Row, d: int)
    requires Faithful(c, t, rows)
    ensures Drift(r, d) in Drifted(c, rows) <==>
      Count(t.branch, r) == Count(t.base, r) && d != 0 && d == Count(t.main, r) - Count(t.base, r)
  {
    DriftedExact(c, rows, r, d);
    assert c.BranchDelta(r) == Count(t.branch, r) - Count(t.base, r);
    assert c.MainDelta(r) == Count(t.main, r) - Count(t.base, r);
  }

  // ---------- unique values ----------

  /** No row that the merge adds takes a unique value of a row of MAIN, deleted later or not,
      or of another added row. */
  ghost predicate RoomForGains(us: Uniques, t: Tables) {
    forall r :: Gain(t, r) > 0 ==> RoomFor(us, t, r)
  }

  ghost predicate RoomFor(us: Uniques, t: Tables, r: Row) {
    && Room(us, t.main, r)
    && (forall x :: x != r && Gain(t, x) > 0 ==> !Collide(us, r, x))
    && (Gain(t, r) > 1 ==> !Collide(us, r, r))
  }

  /** The inserts of some rows find room one after the other. */
  ghost predicate RoomInTurn(us: Uniques, t: multiset<Row>, added: seq<Row>) {
    forall i :: 0 <= i < |added| ==> Room(us, t + multiset(added[..i]), added[i])
  }

  lemma InsertsFitInTurn(us: Uniques, t: multiset<Row>, added: seq<Row>, removed: seq<Row>)
    ensures InsertsFit(us, t, InsertsOf(added) + DeletesOf(removed)) <==> RoomInTurn(us, t, added)
  {
    hide Room, ExecuteAll;
    var es := InsertsOf(added) + DeletesOf(removed);
    forall i | 0 <= i < |added| ensures ExecuteAll(t, es[..i]) == t + multiset(added[..i]) {
      assert es[..i] == InsertsOf(added[..i]);
      RunInserts(t, added[..i]);
    }
    if RoomInTurn(us, t, added) {
      forall i | 0 <= i < |es| && es[i].InsertRow? ensures Room(us, ExecuteAll(t, es[..i]), es[i].row) {
        assert i < |added|;
        assert Room(us, t + multiset(added[..i]), added[i]);
      }
    }
    if InsertsFit(us, t, es) {
      forall i | 0 <= i < |added| ensures Room(us, t + multiset(added[..i]), added[i]) {
        assert es[i] == InsertRow(added[i]);
        assert Room(us, ExecuteAll(t, es[..i]), es[i].row);
      }
    }
  }

  lemma AddedIsGain(c: Counts, t: Tables, rows: seq<Row>, r: Row)
    requires Faithful(c, t, rows) && Clashes(c, rows) == []
    ensures multiset(Added(c, rows))[r] == if Gain(t, r) > 0 then Gain(t, r) else 0
  {
    hide Added, Gain, MergedCount;
    AddedCount(c, rows, r);
    ActionIs(c, t, rows, r);
    hide Faithful, Clashes, ActionOf;
    ActionMerges(t, r, ActionOf(c, r));
  }

  lemma CollideEitherWay(us: Uniques, a: Row, b: Row)
    ensures Collide(us, a, b) <==> Collide(us, b, a)
  {
    assert forall u :: SameOn(u, a, b) <==> SameOn(u, b, a);
  }

  lemma OccursAt(s: seq<Row>, r: Row) returns (i: nat)
    requires multiset(s)[r] > 0
    ensures i < |s| && s[i] == r
  {
    assert r in s;
    i :| 0 <= i < |s| && s[i] == r;
  }

  lemma OccursTwice(s: seq<Row>, r: Row) returns (i: nat, j: nat)
    requires multiset(s)[r] > 1
    ensures i < j < |s| && s[i] == r == s[j]
  {
    var a := OccursAt(s, r);
    assert s == s[..a] + [r] + s[a + 1..];
    assert multiset(s)[r] == multiset(s[..a])[r] + 1 + multiset(s[a + 1..])[r];
    if multiset(s[..a])[r] > 0 {
      var b := OccursAt(s[..a], r);
      i, j := b, a;
    } else {
      var b := OccursAt(s[a + 1..], r);
      i, j := a, a + 1 + b;
    }
  }

  lemma EarlierIsThere(s: seq<Row>, i: nat, j: nat)
    requires i < j < |s|
    ensures s[i] in multiset(s[..j]) && s[j] in multiset(s)
    ensures s[i] == s[j] ==> multiset(s)[s[i]] > 1
  {
    assert s[..j][i] == s[i];
    assert s == s[..j] + [s[j]] + s[j + 1..];
  }

  /** Without conflict, the inserts run under UNIQUE constraints iff the tables have room for
      every row that the merge adds. */
  lemma InsertsFitIff(us: Uniques, c: Counts, t: Tables, rows: seq<Row>)
    requires Faithful(c, t, rows) && Clashes(c, rows) == []
    ensures InsertsFit(us, t.main, Statements(c, rows)) <==> RoomForGains(us, t)
  {
    hide Faithful, Clashes, Added, Removed, Gain, Collide, InsertsFit, Room;
    var added := Added(c, rows);
    InsertsFitInTurn(us, t.main, added, Removed(c, rows));
    forall r ensures multiset(added)[r] == if Gain(t, r) > 0 then Gain(t, r) else 0 {
      AddedIsGain(c, t, rows, r);
    }
    if RoomForGains(us, t) {
      GainsFit(us, t, added);
    }
    if RoomInTurn(us, t.main, added) {
      FitGains(us, t, added);
    }
  }

  lemma GainsFit(us: Uniques, t: Tables, added: seq<Row>)
    requires forall r :: multiset(added)[r] == if Gain(t, r) > 0 then Gain(t, r) else 0
    requires RoomForGains(us, t)
    ensures RoomInTurn(us, t.main, added)
  {
    hide Gain, Collide;
    forall j, x | 0 <= j < |added| && x in t.main + multiset(added[..j]) ensures !Collide(us, added[j], x) {
      var r := added[j];
      assert r in multiset(added);
      assert RoomFor(us, t, r);
      if x !in t.main {
        var i := OccursAt(added[..j], x);
        EarlierIsThere(added, i, j);
        assert x in multiset(added);
      }
    }
  }

  lemma FitGains(us: Uniques, t: Tables, added: seq<Row>)
    requires forall r :: multiset(added)[r] == if Gain(t, r) > 0 then Gain(t, r) else 0
    requires RoomInTurn(us, t.main, added)
    ensures RoomForGains(us, t)
  {
    hide Gain, Collide;
    forall r | Gain(t, r) > 0 ensures RoomFor(us, t, r) {
      var j := OccursAt(added, r);
      assert Room(us, t.main + multiset(added[..j]), r);
      forall x | x != r && Gain(t, x) > 0 ensures !Collide(us, r, x) {
        var i := OccursAt(added, x);
        NoPairCollides(us, t.main, added, if i < j then i else j, if i < j then j else i);
        CollideEitherWay(us, r, x);
      }
      if Gain(t, r) > 1 {
        var a, b := OccursTwice(added, r);
        NoPairCollides(us, t.main, added, a, b);
      }
    }
  }

  lemma NoPairCollides(us: Uniques, t: multiset<Row>, added: seq<Row>, i: nat, j: nat)
    requires RoomInTurn(us, t, added) && i < j < |added|
    ensures !Collide(us, added[j], added[i])
  {
    EarlierIsThere(added, i, j);
    assert Room(us, t + multiset(added[..j]), added[j]);
  }

  /** Merging BRANCH into MAIN or MAIN into BRANCH gives the same table. */
  lemma MergeIsSymmetric(c: Counts, t: Tables, rows: seq<Row>, c': Counts, rows': seq<Row>)
    requires Faithful(c, t, rows) && Faithful(c', Tables(t.main, t.branch, t.base), rows')
    ensures Clashes(c, rows) == [] <==> Clashes(c', rows') == []
    ensures Clashes(c, rows) == [] ==>
      ExecuteAll(t.main, Statements(c, rows)) == ExecuteAll(t.branch, Statements(c', rows'))
  {
    var t' := Tables(t.main, t.branch, t.base);
    ClashIff(c, t, rows);
    ClashIff(c', t', rows');
    assert forall r :: Opposite(t, r) <==> Opposite(t', r);
    if Clashes(c, rows) == [] {
      MergeExact(c, t, rows);
      MergeExact(c', t', rows');
      var a, b := ExecuteAll(t.main, Statements(c, rows)), ExecuteAll(t.branch, Statements(c', rows'));
      forall r ensures Count(a, r) == Count(b, r) {
        assert !Opposite(t, r);
      }
      SameCounts(a, b);
    }
  }

  /** After the merge is applied, a second diff finds no conflict and writes nothing. */
  lemma RediffIsEmpty(t: Tables, c': Counts, rows': seq<Row>, merged: multiset<Row>)
    requires forall r :: !Opposite(t, r)
    requires forall r :: Count(merged, r) == MergedCount(t, r)
    requires Faithful(c', Tables(t.branch, merged, t.base), rows')
    ensures Clashes(c', rows') == [] && Statements(c', rows') == []
  {
    ClashesExact(c', rows');
    forall r ensures ActionOf(c', r) in {Nothing, DriftOnly, AddCopies(0), RemoveCopies(0)} {
      assert !Opposite(t, r);
      assert c'.BranchDelta(r) == Count(t.branch, r) - Count(t.base, r);
      assert c'.MainDelta(r) == Larger(Count(t.branch, r) - Count(t.base, r), Count(t.main, r) - Count(t.base, r));
    }
    NothingToDo(c', rows');
  }

  lemma {:induction false} NothingToDo(c: Counts, rows: seq<Row>)
    requires forall r :: ActionOf(c, r) in {Nothing, DriftOnly, AddCopies(0), RemoveCopies(0)}
    ensures Added(c, rows) == [] && Removed(c, rows) == []
  {
    if rows != [] {
      NothingToDo(c, rows[..|rows| - 1]);
      assert ActionOf(c, rows[|rows| - 1]) in {Nothing, DriftOnly, AddCopies(0), RemoveCopies(0)};
    }
  }

  /** The documented limit: both sides updating the one row differently is no conflict
      here, and both new rows end up on MAIN. */
  lemma ParallelUpdateKeepsBoth(a: Row, b: Row, m: Row, c: Counts, rows: seq<Row>)
    requires a != b && a != m && b != m
    requires Faithful(c, Tables(multiset{b}, multiset{m}, multiset{a}), rows)
    ensures Clashes(c, rows) == []
    ensures ExecuteAll(multiset{m}, Statements(c, rows)) == multiset{b, m}
  {
    var t := Tables(multiset{b}, multiset{m}, multiset{a});
    forall r ensures !Opposite(t, r) && Count(multiset{b, m}, r) == MergedCount(t, r)
    {
      SingleCounts(a, b, m, r);
    }
    hide Faithful, MergedCount;
    ClashIff(c, t, rows);
    MergeExact(c, t, rows);
    SameCounts(ExecuteAll(multiset{m}, Statements(c, rows)), multiset{b, m});
  }

  lemma SingleCounts(a: Row, b: Row, m: Row, r: Row)
    requires a != b && a != m && b != m
    ensures Count(multiset{a}, r) == if r == a then 1 else 0
    ensures Count(multiset{b}, r) == if r == b then 1 else 0
    ensures Count(multiset{m}, r) == if r == m then 1 else 0
    ensures Count(multiset{b, m}, r) == if r == b || r == m then 1 else 0
  {}
}
