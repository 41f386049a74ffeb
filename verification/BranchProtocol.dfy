/** The branch command as a state machine: what the parent index, the lock, the CHECKPOINTs,
    the copies and the branch index guarantee to a later diff, whatever clients do meanwhile. */
module BranchProtocol {
  import opened Types
  import opened Heap
  import opened PageFormat

  /** A segment file of a relation. */
  datatype FileId = FileId(relation: nat, segment: nat)

  /** Buffered pages, pages on disk, and the modification time of the file. */
  datatype File = File(mem: Pages, disk: Pages, mtime: nat) {
    function StatOf(): Stat {
      Stat(|disk| * PAGE_SIZE, mtime)
    }
  }

  type Db = map<FileId, File>
  type Index = map<FileId, Stat>

  datatype Side = Main | Branch

  /** Where the branch command, and the diff after it, has got to. */
  datatype Phase =
    | Start | ParentIndexing | Locked | Flushed | BranchCopied | Copied
    | BranchIndexing | Indexed | Unlocked | Diffing
  {
    function Rank(): nat {
      match this
      case Start => 0
      case ParentIndexing => 1
      case Locked => 2
      case Flushed => 3
      case BranchCopied => 4
      case Copied => 5
      case BranchIndexing => 6
      case Indexed => 7
      case Unlocked => 8
      case Diffing => 9
    }
  }

  datatype State = State(
    phase: Phase, main: Db, branch: Db, base: Db,
    parentIndex: Index, branchIndex: Index, snap: nat,
    lsn: nat, clock: nat)

  datatype Step =
    // clients, the background writer, other databases of the cluster
    | Write(side: Side, f: FileId, block: nat, slots: seq<Option<Row>>)
    | Extend(side: Side, f: FileId)
    | Flush(side: Side, f: FileId, block: nat)
    | OtherWal
    // the branch command
    | BeginParentIndex
    | StatParent(f: FileId)
    | Lock
    | CheckpointUnderLock
    | CopyBranch
    | CopyBase
    | CheckpointAndReadLsn(lsnRead: nat)
    | StatBranch(f: FileId)
    | EndBranchIndex
    | Unlock
    // the diff
    | CheckpointForDiff

  // ---------- steps ----------

  /** MAIN accepts writes unless locked; BRANCH is written only after its index is taken. */
  predicate Writable(s: State, side: Side) {
    match side
    case Main => s.phase.Rank() < 2 || s.phase == Unlocked
    case Branch => s.phase == Indexed || s.phase == Unlocked
  }

  function DbOf(s: State, side: Side): Db {
    match side
    case Main => s.main
    case Branch => s.branch
  }

  function WithFile(s: State, side: Side, f: FileId, file: File): State {
    match side
    case Main => s.(main := s.main[f := file])
    case Branch => s.(branch := s.branch[f := file])
  }

  /** Writing back a dirty file gives it a fresh modification time; a clean one is left alone. */
  function FlushFile(file: File, now: nat): File {
    if file.mem == file.disk then file else File(file.mem, file.mem, now)
  }

  function FlushDb(db: Db, now: nat): Db {
    map f | f in db :: FlushFile(db[f], now)
  }

  function FlushAll(s: State): State {
    s.(main := FlushDb(s.main, s.clock + 1), branch := FlushDb(s.branch, s.clock + 1), clock := s.clock + 1)
  }

  /** A file copy takes the pages on disk; the copy is a new file. */
  function CopyDb(db: Db, now: nat): Db {
    map f | f in db :: File(db[f].disk, db[f].disk, now)
  }

  predicate NotNewer(h: Pages, bound: nat) {
    forall i :: 0 <= i < |h| ==> h[i].lsn <= bound
  }

  predicate DbNotNewer(db: Db, bound: nat) {
    forall f :: f in db ==> NotNewer(db[f].mem, bound) && NotNewer(db[f].disk, bound)
  }

  /** The state after a step, None when the step cannot happen. */
  function Do(s: State, e: Step): Option<State> {
    match e
    case Write(side, f, b, slots) =>
      var db := DbOf(s, side);
      if Writable(s, side) && f in db && b < |db[f].mem| then
        var file := db[f].(mem := db[f].mem[b := Page(s.lsn + 1, slots)]);
        Some(WithFile(s, side, f, file).(lsn := s.lsn + 1))
      else None
    case Extend(side, f) =>
      if Writable(s, side) then
        var db := DbOf(s, side);
        var was := if f in db then db[f] else File([], [], 0);
        var file := File(was.mem + [Page(0, [])], was.disk + [Page(0, [])], s.clock + 1);
        Some(WithFile(s, side, f, file).(clock := s.clock + 1))
      else None
    case Flush(side, f, b) =>
      var db := DbOf(s, side);
      if f in db && b < |db[f].mem| == |db[f].disk| && db[f].mem[b] != db[f].disk[b] then
        var file := File(db[f].mem, db[f].disk[b := db[f].mem[b]], s.clock + 1);
        Some(WithFile(s, side, f, file).(clock := s.clock + 1))
      else None
    case OtherWal => Some(s.(lsn := s.lsn + 1))
    case BeginParentIndex =>
      if s.phase == Start then Some(FlushAll(s).(phase := ParentIndexing)) else None
    case StatParent(f) =>
      if s.phase == ParentIndexing && f in s.main
      then Some(s.(parentIndex := s.parentIndex[f := s.main[f].StatOf()])) else None
    case Lock =>
      if s.phase == ParentIndexing then Some(s.(phase := Locked)) else None
    case CheckpointUnderLock =>
      if s.phase == Locked then Some(FlushAll(s).(phase := Flushed)) else None
    case CopyBranch =>
      if s.phase == Flushed
      then Some(s.(phase := BranchCopied, branch := CopyDb(s.main, s.clock + 1), clock := s.clock + 1)) else None
    case CopyBase =>
      if s.phase == BranchCopied
      then Some(s.(phase := Copied, base := CopyDb(s.main, s.clock + 1), clock := s.clock + 1)) else None
    case CheckpointAndReadLsn(l) =>
      // WAL reaches disk before the pages it describes, so the position read is not
      // behind any page; it may be behind the insert position
      if s.phase == Copied && l <= s.lsn && DbNotNewer(s.main, l) && DbNotNewer(s.branch, l)
      then Some(FlushAll(s).(phase := BranchIndexing, snap := l)) else None
    case StatBranch(f) =>
      if s.phase == BranchIndexing && f in s.branch
      then Some(s.(branchIndex := s.branchIndex[f := s.branch[f].StatOf()])) else None
    case EndBranchIndex =>
      if s.phase == BranchIndexing then Some(s.(phase := Indexed)) else None
    case Unlock =>
      if s.phase == Indexed then Some(s.(phase := Unlocked)) else None
    case CheckpointForDiff =>
      if s.phase == Unlocked then Some(FlushAll(s).(phase := Diffing)) else None
  }

  function Run(s: State, es: seq<Step>): Option<State> {
    if es == [] then Some(s)
    else match Run(s, es[..|es| - 1])
      case None => None
      case Some(t) => Do(t, es[|es| - 1])
  }

  /** Any main database may start the command; nothing is captured yet. */
  ghost predicate Init(s: State) {
    && s.phase == Start && s.branch == map[] && s.base == map[]
    && s.parentIndex == map[] && s.branchIndex == map[]
    && DbOk(s.main, s.lsn, s.clock)
  }

  // ---------- the invariant ----------

  ghost predicate FileOk(file: File, lsn: nat, clock: nat) {
    && |file.mem| == |file.disk| && file.mtime <= clock
    && NotNewer(file.mem, lsn) && NotNewer(file.disk, lsn)
  }

  ghost predicate DbOk(db: Db, lsn: nat, clock: nat) {
    forall f :: f in db ==> FileOk(db[f], lsn, clock)
  }

  ghost predicate Clean(db: Db) {
    forall f :: f in db ==> db[f].mem == db[f].disk
  }

  /** Files keep at least the times the index saw. */
  ghost predicate IndexPast(index: Index, db: Db) {
    forall f :: f in index ==> f in db && index[f].mtime <= db[f].mtime
  }

  /** A file whose time still is the indexed one holds no page newer than the snapshot. */
  ghost predicate StatSound(index: Index, db: Db, snap: nat) {
    forall f :: f in index && f in db && index[f].mtime == db[f].mtime ==> NotNewer(db[f].disk, snap)
  }

  function BaseSlots(base: Db, f: FileId, b: nat): seq<Option<Row>> {
    if f in base then SlotsAt(base[f].mem, b) else []
  }

  ghost predicate FileOldIsBase(mem: Pages, base: Db, f: FileId, snap: nat) {
    forall b :: 0 <= b < |mem| && mem[b].lsn <= snap ==> mem[b].slots == BaseSlots(base, f, b)
  }

  /** A page not newer than the snapshot shows BASE's rows. */
  ghost predicate OldIsBase(db: Db, base: Db, snap: nat) {
    forall f :: f in db ==> FileOldIsBase(db[f].mem, base, f, snap)
  }

  ghost predicate CoversBase(db: Db, base: Db) {
    forall f :: f in base ==> f in db && |base[f].mem| <= |db[f].mem|
  }

  ghost predicate SamePages(db: Db, copy: Db) {
    && db.Keys == copy.Keys
    && forall f :: f in db ==> copy[f].mem == copy[f].disk == db[f].mem
  }

  /** What makes the two filters safe on one side, once the LSN is read. */
  ghost predicate FilterOk(db: Db, base: Db, index: Index, snap: nat) {
    OldIsBase(db, base, snap) && CoversBase(db, base) && StatSound(index, db, snap)
  }

  /** While MAIN is locked its pages stay as flushed and the copies stay equal to it. */
  ghost predicate LockOk(s: State) {
    var r := s.phase.Rank();
    && (3 <= r < 8 ==> Clean(s.main))
    && (4 <= r < 7 ==> SamePages(s.main, s.branch))
    && (5 <= r < 8 ==> SamePages(s.main, s.base))
    && (r == 6 ==> DbNotNewer(s.branch, s.snap))
    && (r == 9 ==> Clean(s.main) && Clean(s.branch))
  }

  ghost predicate Inv(s: State) {
    && DbOk(s.main, s.lsn, s.clock) && DbOk(s.branch, s.lsn, s.clock)
    && IndexPast(s.parentIndex, s.main) && IndexPast(s.branchIndex, s.branch)
    && (s.phase.Rank() < 6 ==> s.branchIndex == map[])
    && LockOk(s)
    && (s.phase.Rank() >= 6 ==>
      && s.snap <= s.lsn
      && FilterOk(s.main, s.base, s.parentIndex, s.snap)
      && FilterOk(s.branch, s.base, s.branchIndex, s.snap))
  }

  // ---------- one file changes ----------

  /** What a client or background-writer step does to the file it touches. */
  ghost predicate FileStep(was: File, file: File, s: State, lsn: nat, clock: nat) {
    && FileOk(file, lsn, clock) && lsn >= s.lsn && clock >= s.clock
    && |was.mem| <= |file.mem| && was.mtime <= file.mtime
    && (file.mtime == was.mtime ==> file.disk == was.disk)
    && (file.mtime == was.mtime || file.mtime > s.clock)
    && (forall b :: 0 <= b < |file.mem| ==>
        || (b < |was.mem| && file.mem[b] == was.mem[b])
        || file.mem[b].lsn > s.lsn
        || (b >= |was.mem| && file.mem[b].slots == []))
  }

  lemma DbOkAt(db: Db, f: FileId, lsn: nat, clock: nat)
    requires DbOk(db, lsn, clock) && f in db
    ensures FileOk(db[f], lsn, clock)
  {}

  lemma DbOkStep(db: Db, f: FileId, file: File, lsn: nat, clock: nat, lsn': nat, clock': nat)
    requires DbOk(db, lsn, clock) && FileOk(file, lsn', clock') && lsn <= lsn' && clock <= clock'
    ensures DbOk(db[f := file], lsn', clock')
  {}

  /** After the LSN is read, such a step keeps what the diff relies on. */
  lemma FileStepKeeps(s: State, db: Db, index: Index, f: FileId, was: File, file: File, lsn: nat, clock: nat)
    requires was == (if f in db then db[f] else File([], [], 0)) && FileStep(was, file, s, lsn, clock)
    requires IndexPast(index, db) && DbOk(db, s.lsn, s.clock) && s.snap <= s.lsn
    requires FilterOk(db, s.base, index, s.snap)
    ensures var db' := db[f := file];
      FilterOk(db', s.base, index, s.snap) && IndexPast(index, db')
  {
    var db' := db[f := file];
    assert FileOldIsBase(file.mem, s.base, f, s.snap) by {
      if f in db {
        assert FileOldIsBase(was.mem, s.base, f, s.snap);
      }
      if f in s.base {
        assert f in db && |s.base[f].mem| <= |was.mem|;
      }
    }
  }

  lemma WriteIsFileStep(s: State, was: File, b: nat, slots: seq<Option<Row>>)
    requires FileOk(was, s.lsn, s.clock) && b < |was.mem|
    ensures FileStep(was, was.(mem := was.mem[b := Page(s.lsn + 1, slots)]), s, s.lsn + 1, s.clock)
  {}

  lemma ExtendIsFileStep(s: State, was: File)
    requires FileOk(was, s.lsn, s.clock)
    ensures FileStep(was, File(was.mem + [Page(0, [])], was.disk + [Page(0, [])], s.clock + 1), s, s.lsn, s.clock + 1)
  {}

  lemma FlushIsFileStep(s: State, was: File, b: nat)
    requires FileOk(was, s.lsn, s.clock) && b < |was.mem|
    ensures FileStep(was, File(was.mem, was.disk[b := was.mem[b]], s.clock + 1), s, s.lsn, s.clock + 1)
  {}

  // ---------- a checkpoint ----------

  lemma FlushDbKeeps(db: Db, lsn: nat, clock: nat)
    requires DbOk(db, lsn, clock)
    ensures var db' := FlushDb(db, clock + 1);
      && DbOk(db', lsn, clock + 1) && Clean(db') && db'.Keys == db.Keys
      && (forall f :: f in db ==> db'[f].mem == db[f].mem && db[f].mtime <= db'[f].mtime)
      && (forall f :: f in db && db'[f].mtime == db[f].mtime ==> db'[f] == db[f])
  {}

  lemma FlushDbKeepsFilter(db: Db, base: Db, index: Index, snap: nat, lsn: nat, clock: nat)
    requires DbOk(db, lsn, clock) && IndexPast(index, db)
    ensures IndexPast(index, FlushDb(db, clock + 1))
    ensures FilterOk(db, base, index, snap) ==> FilterOk(FlushDb(db, clock + 1), base, index, snap)
  {
    FlushDbKeeps(db, lsn, clock);
    var db' := FlushDb(db, clock + 1);
    if FilterOk(db, base, index, snap) {
      forall f | f in index && f in db' && index[f].mtime == db'[f].mtime ensures NotNewer(db'[f].disk, snap) {
        assert index[f].mtime <= db[f].mtime <= db'[f].mtime;
      }
    }
  }

  // ---------- the invariant is kept ----------

  lemma ClientStepKeepsMain(s: State, f: FileId, was: File, file: File, lsn: nat, clock: nat)
    requires Inv(s) && was == (if f in s.main then s.main[f] else File([], [], 0))
    requires FileStep(was, file, s, lsn, clock)
    requires s.phase.Rank() < 2 || s.phase == Unlocked
    ensures Inv(s.(main := s.main[f := file], lsn := lsn, clock := clock))
  {
    DbOkStep(s.main, f, file, s.lsn, s.clock, lsn, clock);
    if s.phase == Unlocked {
      FileStepKeeps(s, s.main, s.parentIndex, f, was, file, lsn, clock);
    }
  }

  lemma ClientStepKeepsBranch(s: State, f: FileId, was: File, file: File, lsn: nat, clock: nat)
    requires Inv(s) && was == (if f in s.branch then s.branch[f] else File([], [], 0))
    requires FileStep(was, file, s, lsn, clock)
    requires s.phase == Indexed || s.phase == Unlocked
    ensures Inv(s.(branch := s.branch[f := file], lsn := lsn, clock := clock))
  {
    DbOkStep(s.branch, f, file, s.lsn, s.clock, lsn, clock);
    FileStepKeeps(s, s.branch, s.branchIndex, f, was, file, lsn, clock);
  }

  lemma FlushKeepsLock(s: State)
    requires Inv(s) && s.phase.Rank() < 9
    ensures LockOk(FlushAll(s))
  {
    FlushDbKeeps(s.main, s.lsn, s.clock);
    FlushDbKeeps(s.branch, s.lsn, s.clock);
  }

  /** A checkpoint keeps the invariant in every phase. */
  lemma CheckpointKeeps(s: State)
    requires Inv(s) && s.phase.Rank() < 9
    ensures Inv(FlushAll(s)) && Clean(FlushAll(s).main) && Clean(FlushAll(s).branch)
  {
    hide DbOk, IndexPast, FilterOk, LockOk, Clean, FlushDb;
    FlushKeepsLock(s);
    FlushDbKeeps(s.main, s.lsn, s.clock);
    FlushDbKeeps(s.branch, s.lsn, s.clock);
    FlushDbKeepsFilter(s.main, s.base, s.parentIndex, s.snap, s.lsn, s.clock);
    FlushDbKeepsFilter(s.branch, s.base, s.branchIndex, s.snap, s.lsn, s.clock);
  }

  lemma CopyBranchKeeps(s: State)
    requires Inv(s) && s.phase == Flushed
    ensures Inv(Do(s, CopyBranch).value)
  {
    hide DbOk, IndexPast, FilterOk, CopyDb, Clean, SamePages, DbNotNewer;
    CopyIsSame(s.main, s.lsn, s.clock);
    NoIndexIsPast(CopyDb(s.main, s.clock + 1));
  }

  /** A copy of flushed files has the same pages. */
  lemma CopyIsSame(db: Db, lsn: nat, clock: nat)
    requires Clean(db) && DbOk(db, lsn, clock)
    ensures SamePages(db, CopyDb(db, clock + 1))
    ensures DbOk(db, lsn, clock + 1) && DbOk(CopyDb(db, clock + 1), lsn, clock + 1)
  {}

  lemma LaterIsOk(db: Db, lsn: nat, clock: nat)
    requires DbOk(db, lsn, clock)
    ensures DbOk(db, lsn, clock + 1)
  {}

  lemma NoIndexIsPast(db: Db)
    ensures IndexPast(map[], db)
  {}

  lemma CopyBaseKeeps(s: State)
    requires Inv(s) && s.phase == BranchCopied
    ensures Inv(Do(s, CopyBase).value)
  {
    hide DbOk, IndexPast, FilterOk, CopyDb, Clean, SamePages, DbNotNewer;
    CopyIsSame(s.main, s.lsn, s.clock);
    LaterIsOk(s.branch, s.lsn, s.clock);
  }

  lemma StatStepKeeps(s: State, f: FileId, e: Step)
    requires Inv(s) && (e == StatParent(f) || e == StatBranch(f)) && Do(s, e).Some?
    ensures Inv(Do(s, e).value)
  {
    hide DbOk, IndexPast, FilterOk, DbNotNewer, Clean, SamePages;
    if e.StatParent? {
      StatKeepsPast(s.parentIndex, s.main, f);
    } else {
      StatKeepsPast(s.branchIndex, s.branch, f);
      AnyIndexIsSafe(s.main, s.branch, s.base, s.branchIndex, s.branchIndex[f := s.branch[f].StatOf()], s.snap);
    }
  }

  lemma StatKeepsPast(index: Index, db: Db, f: FileId)
    requires IndexPast(index, db) && f in db
    ensures IndexPast(index[f := db[f].StatOf()], db)
  {}

  /** While the copy is as MAIN was flushed, every entry of its index is sound. */
  lemma AnyIndexIsSafe(main: Db, db: Db, base: Db, index: Index, index': Index, l: nat)
    requires SamePages(main, db) && DbNotNewer(db, l) && FilterOk(db, base, index, l)
    ensures FilterOk(db, base, index', l)
  {}

  /** Reading the LSN under the lock establishes the filter facts for both sides. */
  lemma LsnReadEstablishes(s: State, l: nat)
    requires Inv(s) && s.phase == Copied && l <= s.lsn && DbNotNewer(s.main, l) && DbNotNewer(s.branch, l)
    ensures Inv(FlushAll(s).(phase := BranchIndexing, snap := l))
  {
    hide DbOk, IndexPast, FilterOk, Clean, FlushDb, DbNotNewer, SamePages;
    CheckpointKeeps(s);
    var t := FlushAll(s);
    FlushKeepsBound(s.main, s.lsn, s.clock, l);
    FlushKeepsBound(s.branch, s.lsn, s.clock, l);
    SameTwice(t.main, t.branch, t.base);
    SameIsSafe(t.main, t.base, t.parentIndex, l);
    SameIsSafe(t.branch, t.base, t.branchIndex, l);
  }

  lemma FlushKeepsBound(db: Db, lsn: nat, clock: nat, l: nat)
    requires DbOk(db, lsn, clock) && DbNotNewer(db, l)
    ensures DbNotNewer(FlushDb(db, clock + 1), l)
  {
    FlushDbKeeps(db, lsn, clock);
    hide FlushDb, DbOk, Clean;
  }

  lemma SameTwice(db: Db, a: Db, b: Db)
    requires Clean(db) && SamePages(db, a) && SamePages(db, b)
    ensures SamePages(db, db) && SamePages(a, b)
  {}

  /** Pages equal to BASE's and none newer than the LSN: both filters are safe from here on. */
  lemma SameIsSafe(db: Db, base: Db, index: Index, l: nat)
    requires SamePages(db, base) && DbNotNewer(db, l)
    ensures FilterOk(db, base, index, l)
  {}

  lemma {:induction false} StepKeepsInv(s: State, e: Step)
    requires Inv(s) && Do(s, e).Some?
    ensures Inv(Do(s, e).value)
  {
    match e
    case Write(side, f, b, slots) => WriteStepKeeps(s, side, f, b, slots);
    case Extend(side, f) => ExtendStepKeeps(s, side, f);
    case Flush(side, f, b) => FlushStepKeeps(s, side, f, b);
    case StatParent(f) => StatStepKeeps(s, f, e);
    case StatBranch(f) => StatStepKeeps(s, f, e);
    case _ => CommandStepKeeps(s, e);
  }

  lemma CommandStepKeeps(s: State, e: Step)
    requires Inv(s) && Do(s, e).Some?
    requires !e.Write? && !e.Extend? && !e.Flush? && !e.StatParent? && !e.StatBranch?
    ensures Inv(Do(s, e).value)
  {
    hide DbOk, IndexPast, FilterOk, LockOk, Clean, FlushDb, DbNotNewer, CopyDb;
    match e
    case BeginParentIndex => CheckpointStepKeeps(s, e);
    case CheckpointUnderLock => CheckpointStepKeeps(s, e);
    case CopyBranch => CopyBranchKeeps(s);
    case CopyBase => CopyBaseKeeps(s);
    case CheckpointAndReadLsn(l) => LsnReadEstablishes(s, l);
    case CheckpointForDiff => CheckpointStepKeeps(s, e);
    case _ => PhaseStepKeeps(s, e);
  }

  lemma CheckpointStepKeeps(s: State, e: Step)
    requires Inv(s) && (e == BeginParentIndex || e == CheckpointUnderLock || e == CheckpointForDiff)
    requires Do(s, e).Some?
    ensures Inv(Do(s, e).value)
  {
    hide DbOk, IndexPast, FilterOk, Clean, FlushDb, DbNotNewer, CopyDb, SamePages;
    CheckpointKeeps(s);
  }

  lemma PhaseStepKeeps(s: State, e: Step)
    requires Inv(s) && (e == OtherWal || e == Lock || e == EndBranchIndex || e == Unlock) && Do(s, e).Some?
    ensures Inv(Do(s, e).value)
  {
    hide DbOk, IndexPast, FilterOk, Clean, DbNotNewer, SamePages;
    MoreWal(s.main, s.lsn, s.clock);
    MoreWal(s.branch, s.lsn, s.clock);
  }

  lemma MoreWal(db: Db, lsn: nat, clock: nat)
    requires DbOk(db, lsn, clock)
    ensures DbOk(db, lsn + 1, clock)
  {}

  lemma WriteStepKeeps(s: State, side: Side, f: FileId, b: nat, slots: seq<Option<Row>>)
    requires Inv(s) && Do(s, Write(side, f, b, slots)).Some?
    ensures Inv(Do(s, Write(side, f, b, slots)).value)
  {
    hide DbOk, IndexPast, FilterOk, LockOk, Clean, FlushDb, DbNotNewer, CopyDb;
    var was := DbOf(s, side)[f];
    DbOkAt(DbOf(s, side), f, s.lsn, s.clock);
    WriteIsFileStep(s, was, b, slots);
    ClientStepKeeps(s, side, f, was, was.(mem := was.mem[b := Page(s.lsn + 1, slots)]), s.lsn + 1, s.clock);
  }

  lemma ExtendStepKeeps(s: State, side: Side, f: FileId)
    requires Inv(s) && Do(s, Extend(side, f)).Some?
    ensures Inv(Do(s, Extend(side, f)).value)
  {
    hide DbOk, IndexPast, FilterOk, LockOk, Clean, FlushDb, DbNotNewer, CopyDb;
    var db := DbOf(s, side);
    var was := if f in db then db[f] else File([], [], 0);
    if f in db {
      DbOkAt(db, f, s.lsn, s.clock);
    }
    ExtendIsFileStep(s, was);
    var file := File(was.mem + [Page(0, [])], was.disk + [Page(0, [])], s.clock + 1);
    ClientStepKeeps(s, side, f, was, file, s.lsn, s.clock + 1);
  }

  lemma ClientStepKeeps(s: State, side: Side, f: FileId, was: File, file: File, lsn: nat, clock: nat)
    requires Inv(s) && Writable(s, side)
    requires was == (if f in DbOf(s, side) then DbOf(s, side)[f] else File([], [], 0))
    requires FileStep(was, file, s, lsn, clock)
    ensures Inv(WithFile(s, side, f, file).(lsn := lsn, clock := clock))
  {
    match side
    case Main => ClientStepKeepsMain(s, f, was, file, lsn, clock);
    case Branch => ClientStepKeepsBranch(s, f, was, file, lsn, clock);
  }

  lemma FlushStepKeeps(s: State, side: Side, f: FileId, b: nat)
    requires Inv(s) && Do(s, Flush(side, f, b)).Some?
    ensures Inv(Do(s, Flush(side, f, b)).value)
  {
    hide DbOk, IndexPast, FilterOk, LockOk, Clean, FlushDb, DbNotNewer, CopyDb;
    var was := DbOf(s, side)[f];
    DbOkAt(DbOf(s, side), f, s.lsn, s.clock);
    FlushIsFileStep(s, was, b);
    var file := File(was.mem, was.disk[b := was.mem[b]], s.clock + 1);
    match side
    case Main => FlushMainKeeps(s, f, was, file);
    case Branch => FlushBranchKeeps(s, f, was, file);
  }

  lemma FlushMainKeeps(s: State, f: FileId, was: File, file: File)
    requires Inv(s) && f in s.main && was == s.main[f] && was.mem != was.disk && file.mem == was.mem
    requires FileStep(was, file, s, s.lsn, s.clock + 1)
    ensures Inv(s.(main := s.main[f := file], clock := s.clock + 1))
  {
    DbOkStep(s.main, f, file, s.lsn, s.clock, s.lsn, s.clock + 1);
    if s.phase.Rank() >= 6 {
      FileStepKeeps(s, s.main, s.parentIndex, f, was, file, s.lsn, s.clock + 1);
    }
  }

  lemma FlushBranchKeeps(s: State, f: FileId, was: File, file: File)
    requires Inv(s) && f in s.branch && was == s.branch[f] && was.mem != was.disk && file.mem == was.mem
    requires FileStep(was, file, s, s.lsn, s.clock + 1)
    ensures Inv(s.(branch := s.branch[f := file], clock := s.clock + 1))
  {
    DbOkStep(s.branch, f, file, s.lsn, s.clock, s.lsn, s.clock + 1);
    if s.phase.Rank() >= 6 {
      FileStepKeeps(s, s.branch, s.branchIndex, f, was, file, s.lsn, s.clock + 1);
    }
  }

  lemma {:induction false} RunKeepsInv(s: State, es: seq<Step>)
    requires Init(s) && Run(s, es).Some?
    ensures Inv(Run(s, es).value)
  {
    if es != [] {
      RunKeepsInv(s, es[..|es| - 1]);
      StepKeepsInv(Run(s, es[..|es| - 1]).value, es[|es| - 1]);
    }
  }

  lemma RunSnoc(s: State, front: seq<Step>, e: Step)
    ensures Run(s, front + [e]) == match Run(s, front) case None => None case Some(t) => Do(t, e)
  {
    assert (front + [e])[..|front|] == front;
  }

  /** One step of the command is possible after the run so far. */
  lemma Next(s: State, front: seq<Step>, e: Step) returns (es: seq<Step>)
    requires Init(s) && Run(s, front).Some? && Do(Run(s, front).value, e).Some?
    ensures es == front + [e] && Run(s, es) == Do(Run(s, front).value, e) && Inv(Run(s, es).value)
  {
    hide Do, Inv;
    es := front + [e];
    RunSnoc(s, front, e);
    RunKeepsInv(s, es);
  }

  lemma NothingNewerThanLsn(s: State)
    requires Inv(s)
    ensures DbNotNewer(s.main, s.lsn) && DbNotNewer(s.branch, s.lsn)
  {}

  /** The command's own step in each phase, and the phase after it. */
  function Command(s: State): (Step, Phase)
    requires s.phase != Diffing
  {
    match s.phase
    case Start => (BeginParentIndex, ParentIndexing)
    case ParentIndexing => (Step.Lock, Locked)
    case Locked => (CheckpointUnderLock, Flushed)
    case Flushed => (CopyBranch, BranchCopied)
    case BranchCopied => (CopyBase, Copied)
    case Copied => (CheckpointAndReadLsn(s.lsn), BranchIndexing)
    case BranchIndexing => (EndBranchIndex, Indexed)
    case Indexed => (Unlock, Unlocked)
    case Unlocked => (CheckpointForDiff, Diffing)
  }

  lemma CommandStep(s: State)
    requires Inv(s) && s.phase != Diffing
    ensures var (e, next) := Command(s); Do(s, e).Some? && Do(s, e).value.phase == next
  {
    hide Inv, FlushDb, CopyDb, DbNotNewer;
    NothingNewerThanLsn(s);
  }

  /** From any point of any run the branch command can run to its end and be diffed. */
  lemma CommandCompletes(s: State, front: seq<Step>) returns (es: seq<Step>)
    requires Init(s) && Run(s, front).Some?
    ensures front <= es && Run(s, es).Some? && Run(s, es).value.phase == Diffing
    decreases 9 - Run(s, front).value.phase.Rank()
  {
    hide Inv, Do, Run, Init;
    var t := Run(s, front).value;
    if t.phase == Diffing {
      es := front;
    } else {
      RunKeepsInv(s, front);
      CommandStep(t);
      es := Next(s, front, Command(t).0);
      es := CommandCompletes(s, es);
    }
  }

  // ---------- what a diff may rely on ----------

  function IndexOf(s: State, side: Side): Index {
    match side
    case Main => s.parentIndex
    case Branch => s.branchIndex
  }

  /** The stat filter skips a file. */
  predicate StatSkips(s: State, side: Side, f: FileId)
    requires f in DbOf(s, side)
  {
    f in IndexOf(s, side) && DbOf(s, side)[f].StatOf() == IndexOf(s, side)[f]
  }

  /** Over every run: a block on disk that shows other rows than BASE's block of the same
      number is newer than the snapshot and lies in a file the stat filter does not skip,
      although the parent index was taken before the lock. */
  lemma FilterComplete(s: State, es: seq<Step>, side: Side, f: FileId, b: nat)
    requires Init(s) && Run(s, es).Some? && Run(s, es).value.phase == Diffing
    requires f in DbOf(Run(s, es).value, side)
    requires b < |DbOf(Run(s, es).value, side)[f].disk|
    ensures var t := Run(s, es).value;
      var page := DbOf(t, side)[f].disk[b];
      page.slots != BaseSlots(t.base, f, b) ==> page.lsn > t.snap && !StatSkips(t, side, f)
  {
    RunKeepsInv(s, es);
    var t := Run(s, es).value;
    var db := DbOf(t, side);
    assert db[f].mem == db[f].disk;
    assert FileOldIsBase(db[f].mem, t.base, f, t.snap);
  }

  /** A skipped file holds no page newer than the snapshot, so the stat filter never
      changes what the plain LSN scan finds. */
  lemma SkippedFilesAreOld(s: State, es: seq<Step>, side: Side, f: FileId)
    requires Init(s) && Run(s, es).Some? && Run(s, es).value.phase == Diffing
    requires f in DbOf(Run(s, es).value, side) && StatSkips(Run(s, es).value, side, f)
    ensures NotNewer(DbOf(Run(s, es).value, side)[f].disk, Run(s, es).value.snap)
  {
    RunKeepsInv(s, es);
  }

  /** No relation of BASE is shorter on either side. */
  lemma NothingShrinks(s: State, es: seq<Step>, side: Side, f: FileId)
    requires Init(s) && Run(s, es).Some? && Run(s, es).value.phase == Diffing
    requires f in Run(s, es).value.base
    ensures var t := Run(s, es).value;
      f in DbOf(t, side) && |t.base[f].mem| <= |DbOf(t, side)[f].disk|
  {
    RunKeepsInv(s, es);
  }

  // ---------- what runs there are ----------

  function MemAt(s: State, side: Side, f: FileId, b: nat): Option<Page> {
    if f in DbOf(s, side) && b < |DbOf(s, side)[f].mem| then Some(DbOf(s, side)[f].mem[b]) else None
  }

  function DiskAt(s: State, side: Side, f: FileId, b: nat): Option<Page> {
    if f in DbOf(s, side) && b < |DbOf(s, side)[f].disk| then Some(DbOf(s, side)[f].disk[b]) else None
  }

  /** Clients write any page of MAIN up to the lock and again once it is released, and of BRANCH
      once its index is taken. */
  lemma WhoMayWrite(s: State, side: Side, f: FileId, b: nat, slots: seq<Option<Row>>)
    requires MemAt(s, side, f, b).Some?
    ensures Do(s, Write(side, f, b, slots)).Some? <==>
      match side
      case Main => s.phase == Start || s.phase == ParentIndexing || s.phase == Unlocked
      case Branch => s.phase == Indexed || s.phase == Unlocked
    ensures Do(s, Extend(side, f)).Some? <==> Do(s, Write(side, f, b, slots)).Some?
  {}

  /** At any time a page that differs on disk may be written back, which changes no buffered page,
      and the rest of the cluster may write WAL. */
  lemma BackgroundNeverStops(s: State, side: Side, f: FileId, b: nat)
    requires Inv(s) && MemAt(s, side, f, b).Some?
    ensures Do(s, OtherWal) == Some(s.(lsn := s.lsn + 1))
    ensures Do(s, Flush(side, f, b)).Some? <==> DiskAt(s, side, f, b) != MemAt(s, side, f, b)
    ensures Do(s, Flush(side, f, b)).Some? ==>
      DiskAt(Do(s, Flush(side, f, b)).value, side, f, b) == MemAt(s, side, f, b)
  {
    hide IndexPast, FilterOk, LockOk;
    DbOkAt(DbOf(s, side), f, s.lsn, s.clock);
  }

  /** A file is skipped from the moment it is indexed, and only with the size and time it had then. */
  lemma IndexedIsSkipped(s: State, f: FileId)
    ensures Do(s, StatParent(f)).Some? ==> StatSkips(Do(s, StatParent(f)).value, Main, f)
    ensures Do(s, StatBranch(f)).Some? ==> StatSkips(Do(s, StatBranch(f)).value, Branch, f)
  {}

  lemma SkippedIff(s: State, side: Side, f: FileId)
    requires f in DbOf(s, side)
    ensures StatSkips(s, side, f) <==>
      Lookup(IndexOf(s, side), f) == Some(Stat(8192 * |DbOf(s, side)[f].disk|, DbOf(s, side)[f].mtime))
  {}

  /** A write puts its rows on its page, as the newest page of the cluster. */
  lemma WriteShows(s: State, side: Side, f: FileId, b: nat, slots: seq<Option<Row>>, sd: Side, g: FileId, c: nat)
    requires Do(s, Write(side, f, b, slots)).Some?
    ensures var t := Do(s, Write(side, f, b, slots)).value;
      && t.phase == s.phase && t.base == s.base && t.snap == s.snap && t.lsn == s.lsn + 1
      && MemAt(t, sd, g, c) == if sd == side && g == f && c == b then Some(Page(t.lsn, slots)) else MemAt(s, sd, g, c)
  {}

  /** An extension adds one empty page and changes no other. */
  lemma ExtendShows(s: State, side: Side, f: FileId, sd: Side, g: FileId, c: nat)
    requires Inv(s) && Do(s, Extend(side, f)).Some?
    ensures var t := Do(s, Extend(side, f)).value;
      var n := if f in DbOf(s, side) then |DbOf(s, side)[f].mem| else 0;
      && t.phase == s.phase && t.base == s.base && t.snap == s.snap
      && MemAt(t, sd, g, c) == if sd == side && g == f && c == n then Some(Page(0, [])) else MemAt(s, sd, g, c)
  {
    hide IndexPast, FilterOk, LockOk;
    if f in DbOf(s, side) {
      DbOkAt(DbOf(s, side), f, s.lsn, s.clock);
    }
  }

  /** The checkpoint before the diff brings every page to disk as it is buffered. */
  lemma CheckpointShows(s: State, sd: Side, g: FileId, c: nat)
    requires Inv(s) && s.phase == Unlocked
    ensures var t := Do(s, CheckpointForDiff);
      t.Some? && t.value.phase == Diffing && t.value.base == s.base && t.value.snap == s.snap
      && DiskAt(t.value, sd, g, c) == MemAt(s, sd, g, c)
  {
    hide IndexPast, FilterOk, LockOk;
    FlushDbKeeps(s.main, s.lsn, s.clock);
    FlushDbKeeps(s.branch, s.lsn, s.clock);
    hide FlushDb;
  }

  /** Whatever a client writes to any page of either side after the branch is the diff's to find:
      the run goes on to a diff that sees those rows on that page, and every other page as it was. */
  lemma WrittenRowsReachTheDiff(s: State, es: seq<Step>, side: Side, f: FileId, b: nat, slots: seq<Option<Row>>,
                                sd: Side, g: FileId, c: nat)
    requires Init(s) && Run(s, es).Some? && Run(s, es).value.phase == Unlocked
    requires MemAt(Run(s, es).value, side, f, b).Some?
    ensures var (t, u) := (Run(s, es).value, Run(s, es + [Write(side, f, b, slots)] + [CheckpointForDiff]));
      && u.Some? && u.value.phase == Diffing && u.value.base == t.base && u.value.snap == t.snap < t.lsn + 1
      && DiskAt(u.value, sd, g, c) ==
           if sd == side && g == f && c == b then Some(Page(t.lsn + 1, slots)) else MemAt(t, sd, g, c)
  {
    hide Inv, Do, Run, Init, MemAt, DiskAt;
    var t := Run(s, es).value;
    RunKeepsInv(s, es);
    SnapIsPast(t);
    WhoMayWrite(t, side, f, b, slots);
    var front := Next(s, es, Write(side, f, b, slots));
    WriteShows(t, side, f, b, slots, sd, g, c);
    var u := Run(s, front).value;
    CheckpointShows(u, sd, g, c);
    RunSnoc(s, front, CheckpointForDiff);
  }

  lemma SnapIsPast(s: State)
    requires Inv(s) && s.phase == Unlocked
    ensures s.snap <= s.lsn
  {}

  /** From lock to copy nothing is lost: both copies hold MAIN's pages as they are buffered when
      the lock is taken. */
  lemma CopiesAreMain(s: State, es: seq<Step>, f: FileId, b: nat)
    requires Init(s) && Run(s, es).Some? && Run(s, es).value.phase == ParentIndexing
    ensures var t := Run(s, es).value;
      var u := Run(s, es + [Step.Lock] + [CheckpointUnderLock] + [CopyBranch] + [CopyBase]);
      && u.Some? && u.value.phase == Copied
      && DiskAt(u.value, Branch, f, b) == MemAt(t, Main, f, b)
      && (if f in u.value.base && b < |u.value.base[f].disk| then Some(u.value.base[f].disk[b]) else None) ==
           MemAt(t, Main, f, b)
  {
    hide Inv, Run, Init, FlushDb, CopyDb;
    var t := Run(s, es).value;
    RunKeepsInv(s, es);
    InvOfMain(t);
    RunSnoc(s, es, Step.Lock);
    RunSnoc(s, es + [Step.Lock], CheckpointUnderLock);
    RunSnoc(s, es + [Step.Lock] + [CheckpointUnderLock], CopyBranch);
    RunSnoc(s, es + [Step.Lock] + [CheckpointUnderLock] + [CopyBranch], CopyBase);
    FlushDbKeeps(t.main, t.lsn, t.clock);
    CopyShows(FlushDb(t.main, t.clock + 1), t.clock + 2, f, b);
    CopyShows(FlushDb(t.main, t.clock + 1), t.clock + 3, f, b);
  }

  lemma InvOfMain(s: State)
    requires Inv(s)
    ensures DbOk(s.main, s.lsn, s.clock)
  {}

  lemma CopyShows(db: Db, now: nat, f: FileId, b: nat)
    ensures f in CopyDb(db, now) <==> f in db
    ensures f in db ==> CopyDb(db, now)[f].disk == db[f].disk
  {}

  /** While MAIN is locked no step changes what its pages hold. */
  lemma LockedMainIsStill(s: State, e: Step, f: FileId, b: nat)
    requires Do(s, e).Some?
    requires s.phase !in {Start, ParentIndexing, Unlocked}
    ensures MemAt(Do(s, e).value, Main, f, b) == MemAt(s, Main, f, b)
  {
    hide FlushAll, CopyDb, DbNotNewer, MemAt, Do;
    if e.Flush? {
      FlushKeepsMem(s, e, f, b);
    } else {
      FlushedMain(s, f, b);
      SameMain(s, e);
      var t := Do(s, e).value;
      SameMemAt(t, if t.main == s.main then s else FlushAll(s), f, b);
    }
  }

  lemma FlushKeepsMem(s: State, e: Step, f: FileId, b: nat)
    requires e.Flush? && Do(s, e).Some?
    ensures MemAt(Do(s, e).value, Main, f, b) == MemAt(s, Main, f, b)
  {}

  /** No other step under the lock but a checkpoint touches MAIN. */
  lemma SameMain(s: State, e: Step)
    requires Do(s, e).Some? && !e.Flush? && s.phase !in {Start, ParentIndexing, Unlocked}
    ensures Do(s, e).value.main == s.main || Do(s, e).value.main == FlushAll(s).main
  {
    hide FlushAll, CopyDb, DbNotNewer, DbOf;
  }

  lemma SameMemAt(s: State, t: State, f: FileId, b: nat)
    requires s.main == t.main
    ensures MemAt(s, Main, f, b) == MemAt(t, Main, f, b)
  {}

  lemma FlushedMain(s: State, f: FileId, b: nat)
    ensures MemAt(FlushAll(s), Main, f, b) == MemAt(s, Main, f, b)
  {}
}
