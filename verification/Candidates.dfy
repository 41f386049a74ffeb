/** From changed pages to candidate primary keys: how the pages of a heap file become a
    table, and why reading the changed blocks on the changed side and on BASE is enough. */
module Candidates {
  import opened Types
  import opened Heap
  import opened PageFormat

  /** A visible row at a block and slot. */
  ghost predicate At(h: Pages, b: nat, i: nat) {
    b < |h| && i < |h[b].slots| && h[b].slots[i].Some?
  }

  ghost function RowAt(h: Pages, b: nat, i: nat): Row
    requires At(h, b, i)
  {
    h[b].slots[i].value
  }

  ghost function KeyAt(h: Pages, pk: seq<string>, b: nat, i: nat): Key
    requires At(h, b, i)
  {
    KeyOf(pk, RowAt(h, b, i))
  }

  /** The key constraint: no two visible rows share a key. */
  ghost predicate Unique(h: Pages, pk: seq<string>) {
    forall b, i, b', i' :: At(h, b, i) && At(h, b', i') && KeyAt(h, pk, b, i) == KeyAt(h, pk, b', i')
      ==> b == b' && i == i'
  }

  /** The keys of the visible rows on some blocks, as fetched by ctid. */
  ghost function KeysOn(h: Pages, pk: seq<string>, blocks: set<nat>): set<Key> {
    set b, i | b in blocks && 0 <= i < |SlotsAt(h, b)| && At(h, b, i) :: KeyAt(h, pk, b, i)
  }

  ghost predicate IsBlock(h: Pages, b: nat) {
    b < |h|
  }

  ghost function AllBlocks(h: Pages): set<nat> {
    set b | 0 <= b < |h| && IsBlock(h, b)
  }

  ghost predicate Stored(h: Pages, pk: seq<string>, k: Key, r: Row) {
    exists b, i :: At(h, b, i) && KeyAt(h, pk, b, i) == k && RowAt(h, b, i) == r
  }

  ghost function StoredRow(h: Pages, pk: seq<string>, k: Key): (r: Row)
    requires k in KeysOn(h, pk, AllBlocks(h))
    ensures Stored(h, pk, k, r)
  {
    var b, i :| b in AllBlocks(h) && At(h, b, i) && KeyAt(h, pk, b, i) == k;
    RowAt(h, b, i)
  }

  /** The table a file holds. A stored row that lacks an added column shows its default. */
  ghost function TableOf(h: Pages, pk: seq<string>, defaults: Row): map<Key, Row> {
    map k | k in KeysOn(h, pk, AllBlocks(h)) :: defaults + StoredRow(h, pk, k)
  }

  lemma RowIsInTable(h: Pages, pk: seq<string>, defaults: Row, b: nat, i: nat)
    requires Unique(h, pk) && At(h, b, i)
    ensures var t := TableOf(h, pk, defaults);
      KeyAt(h, pk, b, i) in t && t[KeyAt(h, pk, b, i)] == defaults + RowAt(h, b, i)
  {
    var k := KeyAt(h, pk, b, i);
    assert b in AllBlocks(h) && i < |SlotsAt(h, b)|;
    assert k in KeysOn(h, pk, AllBlocks(h));
    var b', i' :| At(h, b', i') && KeyAt(h, pk, b', i') == k && RowAt(h, b', i') == StoredRow(h, pk, k);
  }

  lemma TableRowIsSomewhere(h: Pages, pk: seq<string>, defaults: Row, k: Key) returns (b: nat, i: nat)
    requires Unique(h, pk) && k in TableOf(h, pk, defaults)
    ensures At(h, b, i) && KeyAt(h, pk, b, i) == k
    ensures TableOf(h, pk, defaults)[k] == defaults + RowAt(h, b, i)
  {
    b, i :| At(h, b, i) && KeyAt(h, pk, b, i) == k && RowAt(h, b, i) == StoredRow(h, pk, k);
  }

  /** The candidates read from one changed side. */
  ghost function SideCandidates(side: Pages, base: Pages, pk: seq<string>, blocks: set<nat>): set<Key> {
    KeysOn(side, pk, blocks) + KeysOn(base, pk, blocks)
  }

  function Listed(blocks: seq<nat>): set<nat> {
    set b | b in blocks
  }

  /** Keys of the first n slots of a block. */
  ghost function KeysBelow(h: Pages, pk: seq<string>, b: nat, n: nat): set<Key> {
    set i | 0 <= i < n && At(h, b, i) :: KeyAt(h, pk, b, i)
  }

  lemma KeysOfBlock(h: Pages, pk: seq<string>, blocks: set<nat>, b: nat)
    ensures KeysOn(h, pk, blocks + {b}) == KeysOn(h, pk, blocks) + KeysBelow(h, pk, b, |SlotsAt(h, b)|)
  {}

  // ---------- pages on disk ----------

  /** A visible row stands behind a normal line pointer that has storage. */
  ghost predicate Shows(slots: seq<Slot>, p: Page) {
    && |slots| == |p.slots|
    && forall i :: 0 <= i < |slots| && p.slots[i].Some? ==> slots[i].flags == 1 && slots[i].length > 0
  }

  /** The bytes of a page. */
  ghost predicate Image(bytes: Bytes, p: Page) {
    NewPage(bytes, p) || exists hi: nat, lo: nat, slots, rest :: ImageBy(bytes, p, hi, lo, slots, rest)
  }

  /** A page that was added to the file but not yet laid out. */
  ghost predicate NewPage(bytes: Bytes, p: Page) {
    p.slots == [] && |bytes| >= HEADER_SIZE && U16(bytes, 12) == 0 && PageLsn(bytes) == p.lsn
  }

  ghost predicate ImageBy(bytes: Bytes, p: Page, hi: nat, lo: nat, slots: seq<Slot>, rest: Bytes) {
    && hi < WORD && lo < WORD && ValidSlots(slots) && HEADER_SIZE + 4 * |slots| < 0x1_0000
    && bytes == PageImage(hi, lo, slots, rest) && p.lsn == hi * WORD + lo && Shows(slots, p)
  }

  ghost predicate Imaged(images: seq<Bytes>, h: Pages) {
    |images| == |h| && forall b :: 0 <= b < |h| ==> Image(images[b], h[b])
  }

  /** Every slot that shows a row is a normal line of the image, and its LSN is the page's. */
  lemma VisibleIsNormal(bytes: Bytes, p: Page, i: nat)
    requires Image(bytes, p)
    ensures WellFormed(bytes) && |bytes| >= 8 && PageLsn(bytes) == p.lsn
    ensures i < |p.slots| && p.slots[i].Some? ==> NormalLine(bytes, i + 1)
    ensures NormalLine(bytes, i + 1) ==> i < |p.slots|
  {
    if !NewPage(bytes, p) {
      var hi: nat, lo: nat, slots, rest :| ImageBy(bytes, p, hi, lo, slots, rest);
      PageImageReadsBack(hi, lo, slots, rest);
      ImageLines(hi, lo, slots, rest, i + 1);
      hide PageImage, NormalLine, WellFormed, PageLsn;
    }
  }

  /** The visible rows behind some ctids of one page, in their order. */
  function RowsBehind(p: Page, ctids: seq<(nat, nat)>): seq<Row> {
    if ctids == [] then []
    else
      var i := ctids[|ctids| - 1].1;
      RowsBehind(p, ctids[..|ctids| - 1]) +
      if 1 <= i <= |p.slots| && p.slots[i - 1].Some? then [p.slots[i - 1].value] else []
  }

  /** The rows that slots show, in slot order. */
  function RowsShown(slots: seq<Option<Row>>): seq<Row> {
    if slots == [] then []
    else RowsShown(slots[..|slots| - 1]) +
         match slots[|slots| - 1] case None => [] case Some(r) => [r]
  }

  /** Line numbers in increasing order, among them all that show a row below slot n. */
  ghost predicate ListsBelow(p: Page, ctids: seq<(nat, nat)>, n: nat) {
    && n <= |p.slots|
    && (forall i, j :: 0 <= i < j < |ctids| ==> ctids[i].1 < ctids[j].1)
    && (forall i :: 0 <= i < |ctids| ==> 1 <= ctids[i].1 <= n)
    && (forall i :: 0 <= i < n && p.slots[i].Some? ==> exists j :: 0 <= j < |ctids| && ctids[j].1 == i + 1)
  }

  /** Fetching such ctids gives each row shown once, in slot order. */
  lemma {:induction false} FetchesAll(p: Page, ctids: seq<(nat, nat)>, n: nat)
    requires ListsBelow(p, ctids, n)
    ensures RowsBehind(p, ctids) == RowsShown(p.slots[..n])
  {
    if n > 0 {
      assert p.slots[..n][..n - 1] == p.slots[..n - 1];
      if ctids != [] && ctids[|ctids| - 1].1 == n {
        FrontLists(p, ctids, n);
        FetchesAll(p, ctids[..|ctids| - 1], n - 1);
      } else {
        NotLast(p, ctids, n);
        FetchesAll(p, ctids, n - 1);
      }
    }
  }

  lemma FrontLists(p: Page, ctids: seq<(nat, nat)>, n: nat)
    requires ListsBelow(p, ctids, n) && n > 0 && ctids != [] && ctids[|ctids| - 1].1 == n
    ensures ListsBelow(p, ctids[..|ctids| - 1], n - 1)
  {
    var front := ctids[..|ctids| - 1];
    forall i | 0 <= i < n - 1 && p.slots[i].Some? ensures exists j :: 0 <= j < |front| && front[j].1 == i + 1 {
      var j :| 0 <= j < |ctids| && ctids[j].1 == i + 1;
      assert front[j].1 == i + 1;
    }
    assert forall i :: 0 <= i < |front| ==> front[i].1 < ctids[|ctids| - 1].1;
  }

  lemma NotLast(p: Page, ctids: seq<(nat, nat)>, n: nat)
    requires ListsBelow(p, ctids, n) && n > 0 && (ctids == [] || ctids[|ctids| - 1].1 != n)
    ensures ListsBelow(p, ctids, n - 1) && p.slots[n - 1] == None
  {
    forall j | 0 <= j < |ctids| ensures ctids[j].1 < n {
      assert j < |ctids| - 1 ==> ctids[j].1 < ctids[|ctids| - 1].1;
    }
  }

  /** The rows of one block: the page's normal lines are read and fetched. */
  method FetchBlock(bytes: Bytes, p: Page, block: nat) returns (rows: seq<Row>)
    requires Image(bytes, p)
    ensures rows == RowsShown(p.slots)
  {
    hide NormalLine, Image, WellFormed, PageLsn;
    VisibleIsNormal(bytes, p, 0);
    var out := LiveCtids(bytes, block);
    var ctids := out.value;
    LiveLists(bytes, p, block, ctids);
    FetchesAll(p, ctids, |p.slots|);
    assert p.slots[..|p.slots|] == p.slots;
    hide RowsBehind, RowsShown, ListsBelow;
    rows := FetchRows(p, ctids);
  }

  /** A query for ctids: those without a visible row return nothing. */
  method FetchRows(p: Page, ctids: seq<(nat, nat)>) returns (rows: seq<Row>)
    ensures rows == RowsBehind(p, ctids)
  {
    rows := [];
    for i := 0 to |ctids|
      invariant rows == RowsBehind(p, ctids[..i])
    {
      assert ctids[..i + 1][..i] == ctids[..i];
      var line := ctids[i].1;
      if 1 <= line <= |p.slots| && p.slots[line - 1].Some? {
        rows := rows + [p.slots[line - 1].value];
      }
    }
    assert ctids[..|ctids|] == ctids;
  }

  lemma LiveLists(bytes: Bytes, p: Page, block: nat, ctids: seq<(nat, nat)>)
    requires Image(bytes, p) && forall i, j :: 0 <= i < j < |ctids| ==> ctids[i].1 < ctids[j].1
    requires forall b: nat, i: nat :: (b, i) in ctids <==> b == block && NormalLine(bytes, i)
    ensures ListsBelow(p, ctids, |p.slots|)
  {
    hide Image, WellFormed, PageLsn;
    forall i | 0 <= i < |ctids| ensures 1 <= ctids[i].1 <= |p.slots| {
      assert (ctids[i].0, ctids[i].1) in ctids;
      assert NormalLine(bytes, ctids[i].1);
      VisibleIsNormal(bytes, p, ctids[i].1 - 1);
    }
    hide NormalLine;
    forall i | 0 <= i < |p.slots| && p.slots[i].Some? ensures exists j :: 0 <= j < |ctids| && ctids[j].1 == i + 1 {
      VisibleIsNormal(bytes, p, i);
      assert (block, i + 1) in ctids;
    }
  }

  function KeysOfRows(pk: seq<string>, rows: seq<Row>): set<Key> {
    set r | r in rows :: KeyOf(pk, r)
  }

  lemma {:induction false} ShownKeys(h: Pages, pk: seq<string>, b: nat, n: nat)
    requires n <= |SlotsAt(h, b)|
    ensures KeysOfRows(pk, RowsShown(SlotsAt(h, b)[..n])) == KeysBelow(h, pk, b, n)
  {
    hide KeyOf;
    if n > 0 {
      var slots := SlotsAt(h, b);
      ShownKeys(h, pk, b, n - 1);
      assert slots[..n][..n - 1] == slots[..n - 1];
      assert slots[n - 1].Some? <==> At(h, b, n - 1);
      var front := RowsShown(slots[..n - 1]);
      if slots[n - 1].Some? {
        var r := slots[n - 1].value;
        assert forall x :: x in front + [r] <==> x in front || x == r;
        assert KeysOfRows(pk, front + [r]) == KeysOfRows(pk, front) + {KeyOf(pk, r)};
      } else {
        assert front + [] == front;
      }
      KeysMore(h, pk, b, n);
    }
  }

  lemma KeysMore(h: Pages, pk: seq<string>, b: nat, n: nat)
    requires 0 < n
    ensures KeysBelow(h, pk, b, n) == KeysBelow(h, pk, b, n - 1) +
      if At(h, b, n - 1) then {KeyAt(h, pk, b, n - 1)} else {}
  {}

  /** The primary keys of the rows fetched by ctid from some blocks of one database. */
  method CollectKeys(images: seq<Bytes>, h: Pages, pk: seq<string>, blocks: seq<nat>) returns (keys: set<Key>)
    requires Imaged(images, h)
    ensures keys == KeysOn(h, pk, Listed(blocks))
  {
    hide KeysOn, KeysBelow, RowsShown, Image, KeyOf;
    keys := {};
    NoKeys(h, pk);
    assert Listed(blocks[..0]) == {};
    for i := 0 to |blocks|
      invariant keys == KeysOn(h, pk, Listed(blocks[..i]))
    {
      var b := blocks[i];
      var rows: seq<Row> := [];
      if b < |images| {
        rows := FetchBlock(images[b], h[b], b);
      }
      BlockKeys(h, pk, b);
      KeysOfBlock(h, pk, Listed(blocks[..i]), b);
      assert Listed(blocks[..i + 1]) == Listed(blocks[..i]) + {b};
      keys := keys + KeysOfRows(pk, rows);
    }
    assert blocks[..|blocks|] == blocks;
  }

  lemma NoKeys(h: Pages, pk: seq<string>)
    ensures KeysOn(h, pk, {}) == {}
  {}

  lemma BlockKeys(h: Pages, pk: seq<string>, b: nat)
    ensures KeysOfRows(pk, if b < |h| then RowsShown(h[b].slots) else []) == KeysBelow(h, pk, b, |SlotsAt(h, b)|)
  {
    var slots := SlotsAt(h, b);
    ShownKeys(h, pk, b, |slots|);
    assert slots[..|slots|] == slots;
  }

  /** The candidates: for the changed blocks of each side, the keys there on that side and on BASE. */
  method CollectCandidates(branchFile: seq<Bytes>, mainFile: seq<Bytes>, baseFile: seq<Bytes>,
                           branch: Pages, main: Pages, base: Pages, pk: seq<string>,
                           branchBlocks: seq<nat>, mainBlocks: seq<nat>) returns (keys: set<Key>)
    requires Imaged(branchFile, branch) && Imaged(mainFile, main) && Imaged(baseFile, base)
    ensures keys == SideCandidates(branch, base, pk, Listed(branchBlocks)) +
        SideCandidates(main, base, pk, Listed(mainBlocks))
  {
    var onBranch := CollectKeys(branchFile, branch, pk, branchBlocks);
    var wereOnBase := CollectKeys(baseFile, base, pk, branchBlocks);
    var onMain := CollectKeys(mainFile, main, pk, mainBlocks);
    var alsoOnBase := CollectKeys(baseFile, base, pk, mainBlocks);
    keys := onBranch + wereOnBase + onMain + alsoOnBase;
  }

  /** The key is stored differently on the side than on BASE. */
  ghost predicate Differs(side: Pages, base: Pages, pk: seq<string>, defaults: Row, k: Key) {
    Lookup(TableOf(side, pk, defaults), k) != Lookup(TableOf(base, pk, defaults), k)
  }

  /** Same visible row in the same unread place on both files: the key does not differ. */
  lemma SamePlace(side: Pages, base: Pages, pk: seq<string>, defaults: Row, b: nat, i: nat)
    requires Unique(side, pk) && Unique(base, pk)
    requires b < |side| && side[b].slots == SlotsAt(base, b)
    requires At(side, b, i) || At(base, b, i)
    ensures At(side, b, i) && At(base, b, i) && KeyAt(side, pk, b, i) == KeyAt(base, pk, b, i)
    ensures !Differs(side, base, pk, defaults, KeyAt(side, pk, b, i))
  {
    RowIsInTable(side, pk, defaults, b, i);
    RowIsInTable(base, pk, defaults, b, i);
  }

  /** Keys that BASE stores in blocks the side's file no longer has. */
  ghost function TailBlocks(side: Pages, base: Pages): set<nat> {
    set b | |side| <= b < |base| && IsBlock(base, b)
  }

  ghost predicate TailSurvives(side: Pages, base: Pages, pk: seq<string>) {
    forall k :: k in KeysOn(base, pk, TailBlocks(side, base)) ==> k in KeysOn(side, pk, AllBlocks(side))
  }

  lemma OnBlock(h: Pages, pk: seq<string>, blocks: set<nat>, b: nat, i: nat)
    requires b in blocks && At(h, b, i)
    ensures KeyAt(h, pk, b, i) in KeysOn(h, pk, blocks)
  {
    assert i < |SlotsAt(h, b)|;
  }

  /** A key that differs is read from a changed block of the side or of BASE, even when
      its row was deleted or moved to another page. */
  lemma DifferingKeyIsCandidate(side: Pages, base: Pages, pk: seq<string>, defaults: Row, blocks: set<nat>, k: Key)
    requires Unique(side, pk) && Unique(base, pk) && ChangesWithin(side, base, blocks)
    requires TailSurvives(side, base, pk)
    requires Differs(side, base, pk, defaults, k)
    ensures k in SideCandidates(side, base, pk, blocks)
  {
    if k in TableOf(side, pk, defaults) {
      var b, i := TableRowIsSomewhere(side, pk, defaults, k);
      if b in blocks {
        OnBlock(side, pk, blocks, b, i);
      } else {
        SamePlace(side, base, pk, defaults, b, i);
      }
    } else {
      var b, i := TableRowIsSomewhere(base, pk, defaults, k);
      if b in blocks {
        OnBlock(base, pk, blocks, b, i);
      } else if b < |side| {
        SamePlace(side, base, pk, defaults, b, i);
      }
    }
  }

  /** Only blocks of the side's own file are scanned, so the candidates are complete
      exactly when every key in BASE's truncated tail is still on the side. */
  lemma CandidatesCompleteIff(side: Pages, base: Pages, pk: seq<string>, defaults: Row, blocks: set<nat>)
    requires Unique(side, pk) && Unique(base, pk) && ChangesWithin(side, base, blocks)
    requires forall b :: b in blocks ==> b < |side|
    ensures (forall k :: Differs(side, base, pk, defaults, k) ==> k in SideCandidates(side, base, pk, blocks))
      <==> TailSurvives(side, base, pk)
  {
    if TailSurvives(side, base, pk) {
      forall k | Differs(side, base, pk, defaults, k) ensures k in SideCandidates(side, base, pk, blocks) {
        DifferingKeyIsCandidate(side, base, pk, defaults, blocks, k);
      }
    } else {
      var k :| k in KeysOn(base, pk, TailBlocks(side, base)) && k !in KeysOn(side, pk, AllBlocks(side));
      TailKeyIsLost(side, base, pk, defaults, blocks, k);
    }
  }

  /** A deleted key whose block was cut off the file is lost: it differs and is no candidate. */
  lemma TailKeyIsLost(side: Pages, base: Pages, pk: seq<string>, defaults: Row, blocks: set<nat>, k: Key)
    requires Unique(base, pk)
    requires forall b :: b in blocks ==> b < |side|
    requires k in KeysOn(base, pk, TailBlocks(side, base)) && k !in KeysOn(side, pk, AllBlocks(side))
    ensures Differs(side, base, pk, defaults, k) && k !in SideCandidates(side, base, pk, blocks)
  {
    var b, i :| b in TailBlocks(side, base) && At(base, b, i) && KeyAt(base, pk, b, i) == k;
    RowIsInTable(base, pk, defaults, b, i);
  }

  /** A file that did not shrink loses nothing. */
  lemma NoTailNoLoss(side: Pages, base: Pages, pk: seq<string>)
    requires |base| <= |side|
    ensures TailSurvives(side, base, pk)
  {
    assert TailBlocks(side, base) == {};
  }

  /** VACUUM can cut a deleted row's page off BRANCH: one page in BASE, none on BRANCH,
      nothing changed within the scanned blocks, and the deletion goes unseen. */
  lemma TruncationLosesADelete(r: Row, pk: seq<string>, defaults: Row)
    ensures var base := [Page(1, [Some(r)])];
      var k := KeyOf(pk, r);
      && Unique(base, pk) && Unique([], pk) && ChangesWithin([], base, {})
      && Differs([], base, pk, defaults, k) && k !in SideCandidates([], base, pk, {})
  {
    var base := [Page(1, [Some(r)])];
    assert At(base, 0, 0) && KeyAt(base, pk, 0, 0) == KeyOf(pk, r);
    OnBlock(base, pk, TailBlocks([], base), 0, 0);
    TailKeyIsLost([], base, pk, defaults, {}, KeyOf(pk, r));
  }
}
