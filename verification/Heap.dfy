/** Heap files as the diff sees them: pages of line pointers, each with its visible row or none. */
module Heap {
  import opened Types

  datatype Page = Page(lsn: nat, slots: seq<Option<Row>>)

  type Pages = seq<Page>

  /** The slots of a block; a block past the end of the file has none. */
  function SlotsAt(h: Pages, b: nat): seq<Option<Row>> {
    if b < |h| then h[b].slots else []
  }

  /** Every block outside `blocks` shows the same rows in both files. */
  ghost predicate ChangesWithin(side: Pages, base: Pages, blocks: set<nat>) {
    forall b :: 0 <= b < |side| && b !in blocks ==> side[b].slots == SlotsAt(base, b)
  }
}
