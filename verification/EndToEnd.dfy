/** From the branch command to the merged rows: over every run, the diff of changed pages is
    the merge of the whole tables. */
module EndToEnd {
  import opened Types
  import opened Heap
  import opened PageFormat
  import opened BranchProtocol
  import Candidates
  import RowMerge
  import NoPkMerge
  import TwoWay

  // ---------- a relation and its segment files ----------

  /** The relation has n segment files, all full but the last. */
  ghost predicate Segmented(db: Db, rel: nat, n: nat) {
    && (forall seg: nat :: FileId(rel, seg) in db <==> seg < n)
    && (forall seg :: 0 <= seg < n ==> |db[FileId(rel, seg)].disk| <= SEGMENT_PAGES)
    && (forall seg :: 0 <= seg && seg + 1 < n ==> |db[FileId(rel, seg)].disk| == SEGMENT_PAGES)
  }

  /** The block lies in the relation. */
  predicate InRelation(db: Db, rel: nat, b: nat) {
    FileId(rel, b / SEGMENT_PAGES) in db && b % SEGMENT_PAGES < |db[FileId(rel, b / SEGMENT_PAGES)].disk|
  }

  function PageOf(db: Db, rel: nat, b: nat): Page
    requires InRelation(db, rel, b)
  {
    db[FileId(rel, b / SEGMENT_PAGES)].disk[b % SEGMENT_PAGES]
  }

  /** The number of pages of the relation. */
  ghost function Length(db: Db, rel: nat, n: nat): nat
    requires Segmented(db, rel, n)
  {
    if n > 0 then (n - 1) * SEGMENT_PAGES + |db[FileId(rel, n - 1)].disk| else 0
  }

  lemma BlocksAre(db: Db, rel: nat, n: nat, b: nat)
    requires Segmented(db, rel, n)
    ensures InRelation(db, rel, b) <==> b < Length(db, rel, n)
  {
    var seg := b / SEGMENT_PAGES;
    assert seg * SEGMENT_PAGES <= b < seg * SEGMENT_PAGES + SEGMENT_PAGES;
    assert b % SEGMENT_PAGES == b - seg * SEGMENT_PAGES;
    if n > 0 && seg == n - 1 {
    } else if seg < n {
      assert |db[FileId(rel, seg)].disk| == SEGMENT_PAGES;
    }
  }

  /** The relation's pages in block order. */
  ghost function HeapOf(db: Db, rel: nat, n: nat): (h: Pages)
    requires Segmented(db, rel, n)
    ensures |h| == Length(db, rel, n)
    ensures forall b :: 0 <= b < |h| ==> InRelation(db, rel, b) && h[b] == PageOf(db, rel, b)
  {
    assert forall b: nat :: b < Length(db, rel, n) ==> InRelation(db, rel, b) by {
      forall b: nat { BlocksAre(db, rel, n, b); }
    }
    seq(Length(db, rel, n), b requires 0 <= b < Length(db, rel, n) => PageOf(db, rel, b))
  }

  // ---------- the scan of that relation ----------

  /** The segment files as the scanner reads them: sizes, times and page LSNs. */
  ghost predicate Read(segs: seq<Segment>, db: Db, rel: nat, n: nat) {
    && |segs| == n && Segmented(db, rel, n)
    && forall seg :: 0 <= seg < n ==> ReadFile(segs[seg], db[FileId(rel, seg)])
  }

  ghost predicate ReadFile(s: Segment, file: File) {
    && |s.bytes| == |file.disk| * PAGE_SIZE && s.mtime == file.mtime
    && forall i :: 0 <= i < |file.disk| ==> i < s.Pages() && Candidates.Image(s.PageAt(i), file.disk[i])
  }

  /** The pages of the segment files in block order. */
  ghost function BytesOf(segs: seq<Segment>, h: Pages): (images: seq<Bytes>)
    requires forall b :: 0 <= b < |h| ==> Exists(segs, b)
    ensures |images| == |h| && forall b :: 0 <= b < |h| ==> images[b] == ReadPage(segs, b)
  {
    seq(|h|, b requires 0 <= b < |h| => ReadPage(segs, b))
  }

  /** The page at the address that the readers compute from a block number is the image of the
      relation's page of that number, so fetching from the files is fetching from the heap. */
  lemma FilesAreTheHeap(segs: seq<Segment>, db: Db, rel: nat, n: nat)
    requires Read(segs, db, rel, n)
    ensures var h := HeapOf(db, rel, n);
      (forall b :: 0 <= b < |h| ==> Exists(segs, b)) && Candidates.Imaged(BytesOf(segs, h), h)
  {
    hide Candidates.Image;
    var h := HeapOf(db, rel, n);
    forall b | 0 <= b < |h| ensures Exists(segs, b) && Candidates.Image(ReadPage(segs, b), h[b]) {
      PageIsRead(segs, db, rel, n, b);
    }
  }

  lemma PageIsRead(segs: seq<Segment>, db: Db, rel: nat, n: nat, b: nat)
    requires Read(segs, db, rel, n) && InRelation(db, rel, b)
    ensures Exists(segs, b) && Candidates.Image(ReadPage(segs, b), PageOf(db, rel, b))
  {
    hide Candidates.Image;
    var seg := b / SEGMENT_PAGES;
    assert FileId(rel, seg) in db && seg < n;
    assert ReadFile(segs[seg], db[FileId(rel, seg)]);
  }

  /** The index entries of the relation. */
  ghost predicate IndexFor(prev: map<nat, Stat>, index: Index, rel: nat) {
    forall seg :: Lookup(prev, seg) == Lookup(index, FileId(rel, seg))
  }

  function Numbers(blocks: Blocks): set<nat> {
    set c | c in blocks :: c.0
  }

  /** The scanner reads each page's own LSN. */
  lemma FileRead(s: Segment, file: File)
    requires ReadFile(s, file)
    ensures s.Pages() == |file.disk| && s.mtime == file.mtime && |s.bytes| == |file.disk| * PAGE_SIZE
    ensures forall i :: 0 <= i < |file.disk| ==> PageLsn(s.PageAt(i)) == file.disk[i].lsn
  {
    hide Candidates.Image, PageLsn;
    assert s.Pages() == |file.disk|;
    forall i | 0 <= i < |file.disk| ensures PageLsn(s.PageAt(i)) == file.disk[i].lsn {
      Candidates.VisibleIsNormal(s.PageAt(i), file.disk[i], 0);
    }
  }

  lemma ScannedIff(segs: seq<Segment>, prev: map<nat, Stat>, t: State, side: Side, rel: nat, n: nat, b: nat)
    requires Read(segs, DbOf(t, side), rel, n) && IndexFor(prev, IndexOf(t, side), rel)
    ensures b in Numbers(Scan(segs, prev, t.snap, n)) <==>
      InRelation(DbOf(t, side), rel, b) && PageOf(DbOf(t, side), rel, b).lsn > t.snap
      && !StatSkips(t, side, FileId(rel, b / SEGMENT_PAGES))
  {
    hide ReadFile;
    var db := DbOf(t, side);
    var seg := b / SEGMENT_PAGES;
    forall i | 0 <= i < n ensures segs[i].Pages() <= SEGMENT_PAGES && segs[i].Pages() == |db[FileId(rel, i)].disk| {
      FileRead(segs[i], db[FileId(rel, i)]);
    }
    assert Bounded(segs);
    hide PageLsn, Scan;
    if b in Numbers(Scan(segs, prev, t.snap, n)) {
      var c :| c in Scan(segs, prev, t.snap, n) && c.0 == b;
      ScanExact(segs, prev, t.snap, n, b, c.1);
    }
    if seg < n && b % SEGMENT_PAGES < |db[FileId(rel, seg)].disk| {
      FileRead(segs[seg], db[FileId(rel, seg)]);
      assert Lookup(prev, seg) == Lookup(IndexOf(t, side), FileId(rel, seg));
      ScanExact(segs, prev, t.snap, n, b, PageLsn(ReadPage(segs, b)));
    }
  }

  // ---------- what the scan is good for ----------

  lemma BaseStep(s: State, e: Step)
    requires Clean(s.base) && Do(s, e).Some?
    ensures Clean(Do(s, e).value.base)
  {}

  /** BASE is a copy that nobody writes. */
  lemma {:induction false} BaseStaysClean(s: State, es: seq<Step>)
    requires Init(s) && Run(s, es).Some?
    ensures Clean(Run(s, es).value.base)
  {
    hide Do;
    if es != [] {
      BaseStaysClean(s, es[..|es| - 1]);
      BaseStep(Run(s, es[..|es| - 1]).value, es[|es| - 1]);
    }
  }

  /** The state a diff finds: the branch command and any client steps led to it. */
  ghost predicate Reached(s: State, es: seq<Step>, t: State) {
    Init(s) && Run(s, es) == Some(t) && t.phase == Diffing
  }

  lemma BaseSlotsAre(base: Db, rel: nat, m: nat, b: nat)
    requires Segmented(base, rel, m) && Clean(base)
    ensures BaseSlots(base, FileId(rel, b / SEGMENT_PAGES), b % SEGMENT_PAGES) == SlotsAt(HeapOf(base, rel, m), b)
  {
    BlocksAre(base, rel, m, b);
  }

  lemma UnscannedIsOld(s: State, es: seq<Step>, t: State, side: Side, rel: nat, n: nat, m: nat,
                       segs: seq<Segment>, prev: map<nat, Stat>, b: nat)
    requires Reached(s, es, t) && Read(segs, DbOf(t, side), rel, n) && IndexFor(prev, IndexOf(t, side), rel)
    requires Segmented(t.base, rel, m)
    requires InRelation(DbOf(t, side), rel, b) && b !in Numbers(Scan(segs, prev, t.snap, n))
    ensures PageOf(DbOf(t, side), rel, b).slots == SlotsAt(HeapOf(t.base, rel, m), b)
  {
    hide Init, Run, Read, IndexFor, Segmented, HeapOf, Scan, Numbers, BaseSlots, StatSkips, Clean;
    ScannedIff(segs, prev, t, side, rel, n, b);
    FilterComplete(s, es, side, FileId(rel, b / SEGMENT_PAGES), b % SEGMENT_PAGES);
    BaseStaysClean(s, es);
    BaseSlotsAre(t.base, rel, m, b);
  }

  /** Over every run: outside the blocks the stat-filtered scan returns, the side's file shows
      exactly BASE's rows, and BASE's file is no longer than the side's. */
  lemma ScanFindsEveryChange(s: State, es: seq<Step>, t: State, side: Side, rel: nat, n: nat, m: nat,
                             segs: seq<Segment>, prev: map<nat, Stat>)
    requires Reached(s, es, t) && Read(segs, DbOf(t, side), rel, n) && IndexFor(prev, IndexOf(t, side), rel)
    requires Segmented(t.base, rel, m)
    ensures var (h, base) := (HeapOf(DbOf(t, side), rel, n), HeapOf(t.base, rel, m));
      var blocks := Numbers(Scan(segs, prev, t.snap, n));
      ChangesWithin(h, base, blocks) && |base| <= |h| && forall b :: b in blocks ==> b < |h|
  {
    hide Init, Run, IndexFor, Scan, Numbers, StatSkips, PageOf, InRelation, Read, DbOf;
    ReadIsSegmented(segs, DbOf(t, side), rel, n);
    var h := HeapOf(DbOf(t, side), rel, n);
    forall b | 0 <= b < |h| && b !in Numbers(Scan(segs, prev, t.snap, n))
      ensures h[b].slots == SlotsAt(HeapOf(t.base, rel, m), b)
    {
      UnscannedIsOld(s, es, t, side, rel, n, m, segs, prev, b);
    }
    forall b: nat | b in Numbers(Scan(segs, prev, t.snap, n)) ensures b < |h| {
      ScannedIff(segs, prev, t, side, rel, n, b);
      BlocksAre(DbOf(t, side), rel, n, b);
    }
    NotShorter(s, es, t, side, rel, n, m);
  }

  lemma ReadIsSegmented(segs: seq<Segment>, db: Db, rel: nat, n: nat)
    requires Read(segs, db, rel, n)
    ensures Segmented(db, rel, n) && |segs| == n
  {}

  lemma NotShorter(s: State, es: seq<Step>, t: State, side: Side, rel: nat, n: nat, m: nat)
    requires Reached(s, es, t) && Segmented(DbOf(t, side), rel, n) && Segmented(t.base, rel, m)
    ensures Length(t.base, rel, m) <= Length(DbOf(t, side), rel, n)
  {
    hide Init, Run, DbOf;
    BaseStaysClean(s, es);
    if m > 0 {
      assert FileId(rel, m - 1) in t.base;
      NothingShrinks(s, es, side, FileId(rel, m - 1));
      assert |t.base[FileId(rel, m - 1)].disk| <= |DbOf(t, side)[FileId(rel, m - 1)].disk|;
      assert m <= n;
      if m < n {
        assert (m - 1) + 1 <= n - 1;
      }
    }
  }

  /** A skipped file has nothing to report. */
  lemma SkippedHasNothing(s: State, es: seq<Step>, t: State, side: Side, rel: nat, n: nat,
                          segs: seq<Segment>, prev: map<nat, Stat>, i: nat)
    requires Reached(s, es, t) && Read(segs, DbOf(t, side), rel, n) && IndexFor(prev, IndexOf(t, side), rel)
    requires i < n && Skipped(segs[i], prev, i)
    ensures NothingNewer(segs[i], t.snap, i)
  {
    var f := FileId(rel, i);
    assert ReadFile(segs[i], DbOf(t, side)[f]) && Lookup(prev, i) == Lookup(IndexOf(t, side), f);
    SkippedFilesAreOld(s, es, side, f);
    var found := Changed(segs[i], t.snap, i * SEGMENT_PAGES, segs[i].Pages());
    if found != [] {
      assert found[0] in found;
      ChangedExact(segs[i], t.snap, i * SEGMENT_PAGES, segs[i].Pages(), found[0].0, found[0].1);
    }
  }

  /** Over every run the stat filter changes nothing: the filtered scan returns exactly the
      blocks of the plain LSN scan. */
  lemma FilteredScanIsPlainScan(s: State, es: seq<Step>, t: State, side: Side, rel: nat, n: nat,
                                segs: seq<Segment>, prev: map<nat, Stat>)
    requires Reached(s, es, t) && Read(segs, DbOf(t, side), rel, n) && IndexFor(prev, IndexOf(t, side), rel)
    ensures Scan(segs, prev, t.snap, n) == Scan(segs, map[], t.snap, n)
  {
    ReadIsSegmented(segs, DbOf(t, side), rel, n);
    hide Reached, Read, IndexFor, Scan, Skipped, NothingNewer;
    forall i | 0 <= i < n && Skipped(segs[i], prev, i) ensures NothingNewer(segs[i], t.snap, i) {
      SkippedHasNothing(s, es, t, side, rel, n, segs, prev, i);
    }
    StatFilterExact(segs, prev, t.snap);
  }

  // ---------- one relation on the three sides ----------

  /** What the diff reads of one relation: segment files and indexes of the two changed
      sides, and how many segments each database has. */
  datatype Input = Input(t: State, rel: nat, n: nat, k: nat, m: nat,
    branchFiles: seq<Segment>, branchIndex: map<nat, Stat>, mainFiles: seq<Segment>, mainIndex: map<nat, Stat>)

  ghost predicate InputOk(x: Input) {
    && Read(x.branchFiles, x.t.branch, x.rel, x.n) && IndexFor(x.branchIndex, x.t.branchIndex, x.rel)
    && Read(x.mainFiles, x.t.main, x.rel, x.k) && IndexFor(x.mainIndex, x.t.parentIndex, x.rel)
    && Segmented(x.t.base, x.rel, x.m)
  }

  ghost function BranchHeap(x: Input): Pages requires InputOk(x) { HeapOf(x.t.branch, x.rel, x.n) }
  ghost function MainHeap(x: Input): Pages requires InputOk(x) { HeapOf(x.t.main, x.rel, x.k) }
  ghost function BaseHeap(x: Input): Pages requires InputOk(x) { HeapOf(x.t.base, x.rel, x.m) }

  ghost function BranchBlocks(x: Input): set<nat> requires InputOk(x) {
    Numbers(Scan(x.branchFiles, x.branchIndex, x.t.snap, x.n))
  }

  ghost function MainBlocks(x: Input): set<nat> requires InputOk(x) {
    Numbers(Scan(x.mainFiles, x.mainIndex, x.t.snap, x.k))
  }

  /** A changed side, as the merge relies on it. */
  ghost predicate Tracked(h: Pages, base: Pages, blocks: set<nat>) {
    ChangesWithin(h, base, blocks) && |base| <= |h| && forall b :: b in blocks ==> b < |h|
  }

  lemma BothTracked(s: State, es: seq<Step>, x: Input)
    requires Reached(s, es, x.t) && InputOk(x)
    ensures Tracked(BranchHeap(x), BaseHeap(x), BranchBlocks(x))
    ensures Tracked(MainHeap(x), BaseHeap(x), MainBlocks(x))
  {
    hide Reached, Read, IndexFor, Segmented, HeapOf, Scan, Numbers, ChangesWithin;
    ScanFindsEveryChange(s, es, x.t, Branch, x.rel, x.n, x.m, x.branchFiles, x.branchIndex);
    ScanFindsEveryChange(s, es, x.t, Main, x.rel, x.k, x.m, x.mainFiles, x.mainIndex);
  }

  // ---------- with a primary key ----------

  /** The table on the three sides, as whole files hold it. */
  ghost function SidesOf(branch: Pages, main: Pages, base: Pages, pk: seq<string>, defaults: Row): RowMerge.Sides {
    RowMerge.Sides(Candidates.TableOf(branch, pk, defaults), Candidates.TableOf(main, pk, map[]),
      Candidates.TableOf(base, pk, map[]), defaults, pk)
  }

  lemma RowGrows(r: Row, defaults: Row)
    requires r.Keys !! defaults.Keys
    ensures (map[] + r) + defaults == defaults + r
  {}

  lemma TableGrows(h: Pages, pk: seq<string>, defaults: Row, cols: set<string>)
    requires RowMerge.RowsShaped(Candidates.TableOf(h, pk, map[]), cols, pk) && cols !! defaults.Keys
    ensures RowMerge.Extended(Candidates.TableOf(h, pk, map[]), defaults) == Candidates.TableOf(h, pk, defaults)
  {
    hide KeyOf, Candidates.KeysOn, Candidates.Stored;
    var t := Candidates.TableOf(h, pk, map[]);
    forall k | k in t ensures t[k] + defaults == defaults + Candidates.StoredRow(h, pk, k) {
      assert t[k] == map[] + Candidates.StoredRow(h, pk, k);
      RowGrows(Candidates.StoredRow(h, pk, k), defaults);
    }
  }

  /** Every key BRANCH touched anywhere in the table is among the candidates read from the
      changed blocks; every key MAIN touched is too. */
  lemma EveryTouchedKeyIsCandidate(branch: Pages, main: Pages, base: Pages, pk: seq<string>, defaults: Row,
                                   cols: set<string>, branchBlocks: set<nat>, mainBlocks: set<nat>, k: Key)
    requires Tracked(branch, base, branchBlocks) && Tracked(main, base, mainBlocks)
    requires Candidates.Unique(branch, pk) && Candidates.Unique(main, pk) && Candidates.Unique(base, pk)
    requires RowMerge.Shaped(SidesOf(branch, main, base, pk, defaults), cols)
    ensures RowMerge.Touched(SidesOf(branch, main, base, pk, defaults), k) ==>
      k in Candidates.SideCandidates(branch, base, pk, branchBlocks)
    ensures RowMerge.MainTouched(SidesOf(branch, main, base, pk, defaults), k) ==>
      k in Candidates.SideCandidates(main, base, pk, mainBlocks)
  {
    hide Candidates.TableOf, Candidates.SideCandidates, Candidates.Unique, ChangesWithin;
    TableGrows(base, pk, defaults, cols);
    Candidates.NoTailNoLoss(branch, base, pk);
    Candidates.NoTailNoLoss(main, base, pk);
    if RowMerge.Touched(SidesOf(branch, main, base, pk, defaults), k) {
      Candidates.DifferingKeyIsCandidate(branch, base, pk, defaults, branchBlocks, k);
    }
    if RowMerge.MainTouched(SidesOf(branch, main, base, pk, defaults), k) {
      Candidates.DifferingKeyIsCandidate(main, base, pk, map[], mainBlocks, k);
    }
  }

  /** A table with a primary key, on pages. */
  datatype Keyed = Keyed(branch: Pages, main: Pages, base: Pages, pk: seq<string>, defaults: Row)

  ghost predicate KeyedOk(x: Input, y: Keyed, cols: set<string>) requires InputOk(x) {
    && y.branch == BranchHeap(x) && y.main == MainHeap(x) && y.base == BaseHeap(x)
    && Candidates.Unique(y.branch, y.pk) && Candidates.Unique(y.main, y.pk) && Candidates.Unique(y.base, y.pk)
    && RowMerge.Shaped(SidesOf(y.branch, y.main, y.base, y.pk, y.defaults), cols)
  }

  /** The candidates list the keys fetched from the changed blocks of each side and of BASE. */
  ghost predicate FetchedKeys(x: Input, y: Keyed, candidates: seq<Key>) requires InputOk(x) {
    && RowMerge.Distinct(candidates)
    && forall k :: k in candidates <==>
         k in Candidates.SideCandidates(y.branch, y.base, y.pk, BranchBlocks(x))
           || k in Candidates.SideCandidates(y.main, y.base, y.pk, MainBlocks(x))
  }

  lemma CandidatesComplete(s: State, es: seq<Step>, x: Input, y: Keyed, cols: set<string>, candidates: seq<Key>)
    requires Reached(s, es, x.t) && InputOk(x) && KeyedOk(x, y, cols) && FetchedKeys(x, y, candidates)
    ensures var sides := SidesOf(y.branch, y.main, y.base, y.pk, y.defaults);
      RowMerge.Complete(sides, candidates) && forall k :: RowMerge.MainTouched(sides, k) ==> k in candidates
  {
    hide Reached, InputOk, Candidates.SideCandidates, Candidates.Unique, RowMerge.Shaped, RowMerge.Touched,
      RowMerge.MainTouched, RowMerge.Distinct, SidesOf, Tracked, BranchHeap,
      MainHeap, BaseHeap, BranchBlocks, MainBlocks;
    BothTracked(s, es, x);
    forall k {
      EveryTouchedKeyIsCandidate(y.branch, y.main, y.base, y.pk, y.defaults, cols, BranchBlocks(x), MainBlocks(x), k);
    }
  }

  /** The row merge of the whole tables, over every run: the diff that fetches only changed
      blocks reports a conflict iff some key anywhere was changed on both sides to different
      results. Otherwise its statements run on MAIN with the added columns iff no row that
      BRANCH inserts or updates takes a unique value still held when it is written; they then
      leave BRANCH's row where BRANCH changed the key and MAIN's row everywhere else. */
  lemma BranchedMergeIsExact(s: State, es: seq<Step>, x: Input, y: Keyed, cols: set<string>, candidates: seq<Key>,
                             us: Uniques)
    requires Reached(s, es, x.t) && InputOk(x) && KeyedOk(x, y, cols) && FetchedKeys(x, y, candidates)
    ensures var sides := SidesOf(y.branch, y.main, y.base, y.pk, y.defaults);
      && (RowMerge.Conflicts(sides, candidates) != [] <==> exists k :: RowMerge.Disagree(sides, k))
      && (RowMerge.Conflicts(sides, candidates) == [] ==>
           match RowMerge.ExecuteAll(RowMerge.Extended(sides.main, y.defaults),
                RowMerge.Statements(sides, candidates), y.pk, us)
           case None => !RowMerge.UniquesFree(sides, us, RowMerge.INSERTS_FIRST, candidates)
           case Some(merged) =>
             && RowMerge.UniquesFree(sides, us, RowMerge.INSERTS_FIRST, candidates)
             && forall k :: Lookup(merged, k) == RowMerge.Merged(sides, k))
  {
    hide Reached, InputOk, RowMerge.Shaped, RowMerge.Disagree, RowMerge.Merged, RowMerge.Complete, RowMerge.Conflicts,
      RowMerge.Statements, RowMerge.ExecuteAll, RowMerge.Extended, RowMerge.Distinct, RowMerge.MainTouched,
      RowMerge.UniquesFree;
    var sides := SidesOf(y.branch, y.main, y.base, y.pk, y.defaults);
    CandidatesComplete(s, es, x, y, cols, candidates);
    RowMerge.ConflictIff(sides, cols, candidates);
    if RowMerge.Conflicts(sides, candidates) == [] {
      RowMerge.MergeExact(sides, cols, candidates, us);
    }
  }

  /** The reported drift is exactly what only MAIN changed, anywhere in the table, with what
      became of the row there. */
  lemma BranchedDriftIsExact(s: State, es: seq<Step>, x: Input, y: Keyed, cols: set<string>, candidates: seq<Key>,
                             d: RowMerge.RowDrift)
    requires Reached(s, es, x.t) && InputOk(x) && KeyedOk(x, y, cols) && FetchedKeys(x, y, candidates)
    ensures var sides := SidesOf(y.branch, y.main, y.base, y.pk, y.defaults);
      d in RowMerge.Drifts(sides, candidates) <==>
        && !RowMerge.Touched(sides, d.key) && RowMerge.MainTouched(sides, d.key)
        && RowMerge.Became(d.mainOp, Lookup(sides.base, d.key), Lookup(sides.main, d.key))
  {
    hide Reached, InputOk, RowMerge.Shaped, RowMerge.Touched, RowMerge.MainTouched, RowMerge.Drifts, SidesOf,
      RowMerge.Complete, RowMerge.Distinct, RowMerge.Became;
    CandidatesComplete(s, es, x, y, cols, candidates);
    RowMerge.DriftReport(SidesOf(y.branch, y.main, y.base, y.pk, y.defaults), cols, candidates, d);
  }

  /** The reported conflicts are exactly the keys that both sides changed to different results,
      anywhere in the table, each with what became of the row on either side. */
  lemma BranchedConflictsAreExact(s: State, es: seq<Step>, x: Input, y: Keyed, cols: set<string>,
                                  candidates: seq<Key>, k: RowMerge.RowConflict)
    requires Reached(s, es, x.t) && InputOk(x) && KeyedOk(x, y, cols) && FetchedKeys(x, y, candidates)
    ensures var sides := SidesOf(y.branch, y.main, y.base, y.pk, y.defaults);
      k in RowMerge.Conflicts(sides, candidates) <==>
        && RowMerge.Disagree(sides, k.key)
        && RowMerge.Became(k.branchOp, Lookup(RowMerge.Extended(sides.base, sides.defaults), k.key),
             Lookup(sides.branch, k.key))
        && RowMerge.Became(k.mainOp, Lookup(sides.base, k.key), Lookup(sides.main, k.key))
  {
    hide Reached, InputOk, RowMerge.Shaped, RowMerge.Touched, RowMerge.MainTouched, RowMerge.Conflicts, SidesOf,
      RowMerge.Distinct, RowMerge.Became, RowMerge.Disagree, RowMerge.Extended;
    var sides := SidesOf(y.branch, y.main, y.base, y.pk, y.defaults);
    CandidatesComplete(s, es, x, y, cols, candidates);
    RowMerge.ConflictReport(sides, cols, candidates, k);
    if RowMerge.Disagree(sides, k.key) {
      RowMerge.DisagreeTouched(sides, k.key);
    }
  }

  // ---------- without a primary key ----------

  ghost function CountersOf(x: Input): NoPkMerge.Counts requires InputOk(x) {
    NoPkMerge.Counts(NoPkMerge.Fetched(BranchHeap(x), BranchBlocks(x)), NoPkMerge.Fetched(BaseHeap(x), BranchBlocks(x)),
      NoPkMerge.Fetched(MainHeap(x), MainBlocks(x)), NoPkMerge.Fetched(BaseHeap(x), MainBlocks(x)))
  }

  ghost function ContentsOf(x: Input): NoPkMerge.Tables requires InputOk(x) {
    NoPkMerge.Tables(NoPkMerge.Contents(BranchHeap(x)), NoPkMerge.Contents(MainHeap(x)),
      NoPkMerge.Contents(BaseHeap(x)))
  }

  /** The rows of all four counters, each once. */
  ghost predicate CountedRows(c: NoPkMerge.Counts, rows: seq<Row>) {
    && NoPkMerge.Distinct(rows)
    && forall r :: r in rows <==> r in c.branch || r in c.baseOfBranch || r in c.main || r in c.baseOfMain
  }

  lemma NothingCutOff(base: Pages, n: nat)
    requires |base| <= n
    ensures NoPkMerge.Tail(base, n) == multiset{}
  {}

  /** Deltas on the changed blocks are whole-table deltas. */
  ghost predicate Agree(c: NoPkMerge.Counts, whole: NoPkMerge.Tables, r: Row) {
    && c.BranchDelta(r) == NoPkMerge.Count(whole.branch, r) - NoPkMerge.Count(whole.base, r)
    && c.MainDelta(r) == NoPkMerge.Count(whole.main, r) - NoPkMerge.Count(whole.base, r)
  }

  lemma DeltasAgree(s: State, es: seq<Step>, x: Input, r: Row)
    requires Reached(s, es, x.t) && InputOk(x)
    ensures Agree(CountersOf(x), ContentsOf(x), r)
  {
    hide Reached, InputOk, NoPkMerge.Fetched, NoPkMerge.Contents, BranchHeap, MainHeap, BaseHeap, BranchBlocks,
      MainBlocks,
      ChangesWithin;
    BothTracked(s, es, x);
    NothingCutOff(BaseHeap(x), |BranchHeap(x)|);
    NothingCutOff(BaseHeap(x), |MainHeap(x)|);
    NoPkMerge.DeltaOnChangedBlocks(BranchHeap(x), BaseHeap(x), BranchBlocks(x), r);
    NoPkMerge.DeltaOnChangedBlocks(MainHeap(x), BaseHeap(x), MainBlocks(x), r);
  }

  lemma FaithfulIf(c: NoPkMerge.Counts, whole: NoPkMerge.Tables, rows: seq<Row>)
    requires CountedRows(c, rows) && forall r :: Agree(c, whole, r)
    ensures NoPkMerge.Faithful(c, whole, rows)
  {
    forall r ensures c.BranchDelta(r) == NoPkMerge.Count(whole.branch, r) - NoPkMerge.Count(whole.base, r) {
      assert Agree(c, whole, r);
    }
    forall r ensures c.MainDelta(r) == NoPkMerge.Count(whole.main, r) - NoPkMerge.Count(whole.base, r) {
      assert Agree(c, whole, r);
    }
    forall r | c.BranchDelta(r) != 0 || c.MainDelta(r) != 0 ensures r in rows {
      DeltasCounted(c, rows, r);
    }
  }

  lemma DeltasCounted(c: NoPkMerge.Counts, rows: seq<Row>, r: Row)
    requires CountedRows(c, rows) && (c.BranchDelta(r) != 0 || c.MainDelta(r) != 0)
    ensures r in rows
  {}

  lemma CountersFaithful(s: State, es: seq<Step>, x: Input, rows: seq<Row>)
    requires Reached(s, es, x.t) && InputOk(x) && CountedRows(CountersOf(x), rows)
    ensures NoPkMerge.Faithful(CountersOf(x), ContentsOf(x), rows)
  {
    hide Reached, InputOk, CountersOf, ContentsOf, CountedRows, Agree, NoPkMerge.Faithful;
    forall r ensures Agree(CountersOf(x), ContentsOf(x), r) {
      DeltasAgree(s, es, x, r);
    }
    FaithfulIf(CountersOf(x), ContentsOf(x), rows);
  }

  /** MAIN and BASE share their columns, BRANCH has those and the added ones. */
  ghost predicate ColumnsOk(x: Input, cols: set<string>, added: set<string>) requires InputOk(x) {
    && NoPkMerge.InColumns(MainHeap(x), cols) && NoPkMerge.InColumns(BaseHeap(x), cols)
    && NoPkMerge.InColumns(BranchHeap(x), cols + added) && cols !! added
  }

  /** The multiset merge of the whole tables, over every run. A table to which BRANCH added
      columns is left alone; for any other a conflict is reported iff some row was added on
      one side and removed on the other, and otherwise the statements leave the merge, unless
      an INSERT brings a unique value that MAIN's rows or the inserted ones already hold. */
  lemma BranchedMultisetMergeIsExact(s: State, es: seq<Step>, x: Input, cols: set<string>, added: set<string>,
                                     rows: seq<Row>, us: Uniques)
    requires Reached(s, es, x.t) && InputOk(x) && ColumnsOk(x, cols, added) && CountedRows(CountersOf(x), rows)
    ensures var (c, whole) := (CountersOf(x), ContentsOf(x));
      var (reported, written) := (NoPkMerge.Reported(added, c, rows), NoPkMerge.Written(added, c, rows));
      && (added != {} ==> reported == [] && written == [])
      && ((exists r :: NoPkMerge.Opposite(whole, r)) ==> written == [])
      && (added == {} ==> (reported != [] <==> exists r :: NoPkMerge.Opposite(whole, r)))
      && (added == {} && reported == [] ==>
           && NoPkMerge.DeletesFind(whole.main, written)
           && (NoPkMerge.InsertsFit(us, whole.main, written) <==> NoPkMerge.RoomForGains(us, whole))
           && forall r :: NoPkMerge.Count(NoPkMerge.ExecuteAll(whole.main, written), r) ==
                NoPkMerge.MergedCount(whole, r))
  {
    hide Reached, InputOk, NoPkMerge.Faithful, CountersOf, ContentsOf, CountedRows, NoPkMerge.Opposite, ColumnsOk,
      NoPkMerge.Clashes, NoPkMerge.Statements, NoPkMerge.ExecuteAll, NoPkMerge.InsertsFit, NoPkMerge.RoomForGains;
    if added == {} {
      CountersFaithful(s, es, x, rows);
      NoPkMerge.ClashIff(CountersOf(x), ContentsOf(x), rows);
      if NoPkMerge.Clashes(CountersOf(x), rows) == [] {
        NoPkMerge.MergeExact(CountersOf(x), ContentsOf(x), rows);
        NoPkMerge.InsertsFitIff(us, CountersOf(x), ContentsOf(x), rows);
      }
    }
  }

  /** The rows reported as drift, and their counts, are exactly what only MAIN added or removed
      anywhere in the table. */
  lemma BranchedMultisetDriftIsExact(s: State, es: seq<Step>, x: Input, added: set<string>, rows: seq<Row>, r: Row,
                                     d: int)
    requires Reached(s, es, x.t) && InputOk(x) && CountedRows(CountersOf(x), rows)
    ensures var (whole, reported) := (ContentsOf(x), NoPkMerge.ReportedDrift(added, CountersOf(x), rows));
      NoPkMerge.Drift(r, d) in reported <==>
        && added == {} && NoPkMerge.Count(whole.branch, r) == NoPkMerge.Count(whole.base, r)
        && d != 0 && d == NoPkMerge.Count(whole.main, r) - NoPkMerge.Count(whole.base, r)
  {
    hide Reached, InputOk, NoPkMerge.Faithful, CountersOf, ContentsOf, CountedRows, NoPkMerge.Drifted;
    CountersFaithful(s, es, x, rows);
    NoPkMerge.DriftExact(CountersOf(x), ContentsOf(x), rows, r, d);
  }

  // ---------- against a MAIN that did not move ----------

  ghost function FilesOf(x: Input, pk: seq<string>, defaults: Row): TwoWay.Files requires InputOk(x) {
    TwoWay.Files(BranchHeap(x), MainHeap(x), pk, defaults, BranchBlocks(x))
  }

  /** Over every run in which MAIN's file is still BASE's: the two-way diff of changed pages
      writes what the naive diff of whole tables writes, and turns MAIN into BRANCH. Each runs
      iff in its own order of operations no unique value is taken when it is written. */
  lemma BranchedDiffIsNaiveDiff(s: State, es: seq<Step>, x: Input, pk: seq<string>, defaults: Row, cols: set<string>,
                                keys: seq<Key>, us: Uniques)
    requires Reached(s, es, x.t) && InputOk(x) && MainHeap(x) == BaseHeap(x)
    requires Candidates.Unique(BranchHeap(x), pk) && Candidates.Unique(BaseHeap(x), pk)
    requires var f := FilesOf(x, pk, defaults);
      && RowMerge.Shaped(TwoWay.Undrifted(TwoWay.Cur(f), TwoWay.Src(f), defaults, pk), cols)
      && RowMerge.Distinct(keys) && forall k :: k in TwoWay.Cur(f) || k in TwoWay.Src(f) ==> k in keys
    ensures var f := FilesOf(x, pk, defaults);
      var sides := TwoWay.Undrifted(TwoWay.Cur(f), TwoWay.Src(f), defaults, pk);
      var (cur, src) := (TwoWay.FetchedCur(f), TwoWay.FetchedSrc(f));
      var stmts := TwoWay.InsertsFor(cur, src, keys) + TwoWay.UpdatesFor(cur, src, defaults, pk, keys)
        + TwoWay.DeletesFor(cur, src, keys);
      && stmts == TwoWay.InsertsFor(TwoWay.Cur(f), TwoWay.Src(f), keys)
        + TwoWay.UpdatesFor(TwoWay.Cur(f), TwoWay.Src(f), defaults, pk, keys)
        + TwoWay.DeletesFor(TwoWay.Cur(f), TwoWay.Src(f), keys)
      && RowMerge.ExecuteAll(RowMerge.Extended(TwoWay.Src(f), defaults), stmts, pk, us) ==
           (if RowMerge.UniquesFree(sides, us, RowMerge.INSERTS_FIRST, keys) then Some(TwoWay.Cur(f)) else None)
      && (defaults == map[] ==>
           var naive := TwoWay.NaiveDiff(TwoWay.Src(f), TwoWay.Cur(f), pk, keys);
           && multiset(stmts) == multiset(naive)
           && RowMerge.ExecuteAll(TwoWay.Src(f), naive, pk, us) ==
                if RowMerge.UniquesFree(sides, us, TwoWay.DELETES_FIRST, keys) then Some(TwoWay.Cur(f)) else None)
  {
    hide Reached, InputOk, BranchHeap, MainHeap, BaseHeap, BranchBlocks, MainBlocks, Candidates.Unique, ChangesWithin,
      RowMerge.Shaped, TwoWay.Undrifted, TwoWay.Cur, TwoWay.Src,
      TwoWay.FetchedCur, TwoWay.FetchedSrc, TwoWay.InsertsFor,
      TwoWay.UpdatesFor, TwoWay.DeletesFor, RowMerge.ExecuteAll, RowMerge.Extended, RowMerge.Distinct,
      RowMerge.UniquesFree;
    BothTracked(s, es, x);
    var f := FilesOf(x, pk, defaults);
    TwoWay.PageDiffIsWholeDiff(f, keys);
    TwoWay.PageDiffConverges(f, cols, keys, us);
    if defaults == map[] {
      assert TwoWay.Undrifted(TwoWay.Cur(f), TwoWay.Src(f), defaults, pk)
        == RowMerge.Sides(TwoWay.Cur(f), TwoWay.Src(f), TwoWay.Src(f), defaults, pk) by { UndriftedIs(f); }
      TwoWay.NaiveDiffConverges(TwoWay.Undrifted(TwoWay.Cur(f), TwoWay.Src(f), defaults, pk), cols, keys, us);
    }
  }

  lemma UndriftedIs(f: TwoWay.Files)
    ensures TwoWay.Undrifted(TwoWay.Cur(f), TwoWay.Src(f), f.defaults, f.pk)
      == RowMerge.Sides(TwoWay.Cur(f), TwoWay.Src(f), TwoWay.Src(f), f.defaults, f.pk)
  {}
}
