/** On-disk formats: LSN text, page headers, line pointers, segment files and the scans over them. */
module PageFormat {
  import opened Types

  const PAGE_SIZE: nat := 8192
  const SEGMENT_PAGES: nat := 131072
  const HEADER_SIZE: nat := 24
  const LP_NORMAL: nat := 1
  const WORD: nat := 0x1_0000_0000

  type Byte = b: int | 0 <= b < 256
  type Bytes = seq<Byte>

  function U16(b: Bytes, at: nat): (n: nat)
    requires at + 2 <= |b|
    ensures n < 0x1_0000
  {
    var low: int, high: int := b[at], b[at + 1];
    low + 256 * high
  }

  function U32(b: Bytes, at: nat): (n: nat)
    requires at + 4 <= |b|
    ensures n < WORD
  {
    U16(b, at) + 0x1_0000 * U16(b, at + 2)
  }

  // ---------- LSN text ----------

  function Digit(d: nat): char
    requires d < 16
  {
    "0123456789ABCDEF"[d]
  }

  function DigitValue(c: char): Option<nat> {
    if '0' <= c <= '9' then Some((c - '0') as nat)
    else if 'A' <= c <= 'F' then Some((c - 'A') as nat + 10)
    else if 'a' <= c <= 'f' then Some((c - 'a') as nat + 10)
    else None
  }

  /** Upper-case hexadecimal, at least `width` digits. */
  function Hex(n: nat, width: nat): string
    decreases n, width
  {
    if n == 0 && width == 0 then ""
    else Hex(n / 16, if width == 0 then 0 else width - 1) + [Digit(n % 16)]
  }

  function ParseHex(s: string): Option<nat> {
    if s == "" then None
    else match (DigitValue(s[|s| - 1]), if |s| == 1 then Some(0) else ParseHex(s[..|s| - 1]))
      case (Some(d), Some(n)) => Some(16 * n + d)
      case _ => None
  }

  function Pow2(k: nat): nat {
    if k == 0 then 1 else 2 * Pow2(k - 1)
  }

  function BitOr(a: nat, b: nat): nat {
    if a == 0 then b else if b == 0 then a
    else (if a % 2 == 1 || b % 2 == 1 then 1 else 0) + 2 * BitOr(a / 2, b / 2)
  }

  /** Position of the first slash, or the length. */
  function Slash(s: string): (i: nat)
    ensures i <= |s|
    ensures forall j :: 0 <= j < i ==> s[j] != '/'
    ensures i < |s| ==> s[i] == '/'
  {
    if s == "" || s[0] == '/' then 0 else 1 + Slash(s[1..])
  }

  function FormatLsn(n: nat): string {
    Hex(n / WORD, 1) + "/" + Hex(n % WORD, 8)
  }

  /** None when the text does not split into two hexadecimal halves. */
  function ParseLsn(s: string): Option<nat> {
    var i := Slash(s);
    if i == |s| || '/' in s[i + 1..] then None
    else match (ParseHex(s[..i]), ParseHex(s[i + 1..]))
      case (Some(hi), Some(lo)) => Some(BitOr(hi * WORD, lo))
      case _ => None
  }

  lemma {:induction false} OrIsSum(a: nat, b: nat, k: nat)
    requires b < Pow2(k)
    ensures BitOr(a * Pow2(k), b) == a * Pow2(k) + b
  {
    if k == 0 || a == 0 || b == 0 {
    } else {
      var p := Pow2(k - 1);
      assert a * Pow2(k) == 2 * (a * p);
      OrIsSum(a, b / 2, k - 1);
      assert (a * Pow2(k)) / 2 == a * p;
    }
  }

  lemma {:induction false} HexReadsBack(n: nat, width: nat)
    requires n > 0 || width > 0
    ensures ParseHex(Hex(n, width)) == Some(n)
    ensures '/' !in Hex(n, width)
    decreases n, width
  {
    var s := Hex(n, width);
    var narrower := if width == 0 then 0 else width - 1;
    var front := Hex(n / 16, narrower);
    assert s[..|s| - 1] == front && s[|s| - 1] == Digit(n % 16);
    assert DigitValue(Digit(n % 16)) == Some(n % 16);
    if n / 16 > 0 || narrower > 0 {
      HexReadsBack(n / 16, narrower);
      assert front != "";
    }
  }

  /** The LSN written into an index is the LSN read from it. */
  lemma LsnReadsBack(n: nat)
    ensures ParseLsn(FormatLsn(n)) == Some(n)
  {
    HalvesReadBack(n / WORD, n % WORD, 1, 8);
  }

  /** The text has eight digits after the slash and no leading zero before it. */
  lemma LsnText(n: nat)
    ensures var s := FormatLsn(n);
      && |s| >= 10 && s[|s| - 9] == '/' && (s[0] == '0' ==> |s| == 10)
      && forall i :: 0 <= i < |s| && i != |s| - 9 ==> s[i] in "0123456789ABCDEF"
  {
    HexText(n / WORD, 1);
    HexText(n % WORD, 8);
    assert n % WORD < Pow16(8);
  }

  function Pow16(k: nat): nat {
    if k == 0 then 1 else 16 * Pow16(k - 1)
  }

  lemma {:induction false} HexText(n: nat, width: nat)
    ensures |Hex(n, width)| >= width && (n < Pow16(width) ==> |Hex(n, width)| == width)
    ensures forall i :: 0 <= i < |Hex(n, width)| ==> Hex(n, width)[i] in "0123456789ABCDEF"
    ensures n > 0 && width <= 1 ==> Hex(n, width) != "" && Hex(n, width)[0] != '0'
    decreases n, width
  {
    if n > 0 || width > 0 {
      var narrower := if width == 0 then 0 else width - 1;
      HexText(n / 16, narrower);
      assert Hex(n, width) == Hex(n / 16, narrower) + [Digit(n % 16)];
      assert n > 0 && n / 16 == 0 ==> n % 16 == n;
    }
  }

  predicate HexDigits(s: string) {
    s != "" && forall i :: 0 <= i < |s| ==> '0' <= s[i] <= '9' || 'A' <= s[i] <= 'F' || 'a' <= s[i] <= 'f'
  }

  lemma {:induction false} ParsesHex(s: string)
    ensures ParseHex(s).Some? <==> HexDigits(s)
  {
    if |s| > 1 {
      ParsesHex(s[..|s| - 1]);
      assert forall i :: 0 <= i < |s| - 1 ==> s[..|s| - 1][i] == s[i];
    }
  }

  /** A text is read iff it is two hexadecimal numbers with one slash between them. */
  lemma LsnIsReadIff(s: string)
    ensures ParseLsn(s).Some? <==>
      exists i :: 0 <= i < |s| && s[i] == '/' && HexDigits(s[..i]) && HexDigits(s[i + 1..])
  {
    hide HexDigits, ParseHex;
    var k := Slash(s);
    if i :| 0 <= i < |s| && s[i] == '/' && HexDigits(s[..i]) && HexDigits(s[i + 1..]) {
      NoSlash(s[..i]);
      NoSlash(s[i + 1..]);
      FirstSlash(s, i);
      ParsesHex(s[..i]);
      ParsesHex(s[i + 1..]);
    }
    if k < |s| {
      ParsesHex(s[..k]);
      ParsesHex(s[k + 1..]);
    }
  }

  lemma FirstSlash(s: string, i: nat)
    requires i < |s| && s[i] == '/' && '/' !in s[..i]
    ensures Slash(s) == i
  {
    forall j | 0 <= j < i ensures s[j] != '/' {
      assert s[..i][j] in s[..i];
    }
  }

  lemma NoSlash(s: string)
    requires HexDigits(s)
    ensures '/' !in s
  {}

  lemma HalvesReadBack(hi: nat, lo: nat, hiWidth: nat, loWidth: nat)
    requires lo < WORD && hiWidth > 0 && loWidth > 0
    ensures ParseLsn(Hex(hi, hiWidth) + "/" + Hex(lo, loWidth)) == Some(hi * WORD + lo)
  {
    HexReadsBack(hi, hiWidth);
    HexReadsBack(lo, loWidth);
    ParseHalves(Hex(hi, hiWidth), Hex(lo, loWidth), hi, lo);
  }

  lemma ParseHalves(hi: string, lo: string, h: nat, l: nat)
    requires '/' !in hi && '/' !in lo && ParseHex(hi) == Some(h) && ParseHex(lo) == Some(l) && l < WORD
    ensures ParseLsn(hi + "/" + lo) == Some(h * WORD + l)
  {
    OrIsHalves(h, l);
    var s := hi + "/" + lo;
    assert s[|hi|] == '/';
    assert forall j :: 0 <= j < |hi| ==> s[j] == hi[j];
    assert Slash(s) == |hi|;
    assert s[..|hi|] == hi && s[|hi| + 1..] == lo;
  }

  lemma OrIsHalves(hi: nat, lo: nat)
    requires lo < WORD
    ensures BitOr(hi * WORD, lo) == hi * WORD + lo
  {
    var k: nat := 32;
    assert Pow2(k) == WORD by {
      assert Pow2(8) == 256;
      assert Pow2(16) == 0x1_0000;
      assert Pow2(24) == 0x100_0000;
    }
    OrIsSum(hi, lo, k);
  }

  // ---------- line pointers ----------

  datatype Slot = Slot(offset: nat, flags: nat, length: nat)

  ghost predicate ValidSlot(s: Slot) {
    s.offset < 0x8000 && s.flags < 4 && s.length < 0x8000
  }

  function DecodeSlot(word: nat): Slot {
    Slot(word % 0x8000, word / 0x8000 % 4, word / 0x2_0000 % 0x8000)
  }

  function EncodeSlot(s: Slot): nat {
    s.offset + 0x8000 * s.flags + 0x2_0000 * s.length
  }

  predicate IsLive(s: Slot) {
    s.flags == LP_NORMAL && s.length > 0
  }

  function SlotCount(page: Bytes): nat {
    if |page| < HEADER_SIZE || U16(page, 12) < HEADER_SIZE then 0 else (U16(page, 12) - HEADER_SIZE) / 4
  }

  /** The line pointers fit on the page. */
  predicate WellFormed(page: Bytes) {
    HEADER_SIZE + 4 * SlotCount(page) <= |page| || |page| < HEADER_SIZE
  }

  function SlotAt(page: Bytes, i: nat): Slot
    requires HEADER_SIZE + 4 * i + 4 <= |page|
  {
    DecodeSlot(U32(page, HEADER_SIZE + 4 * i))
  }

  /** One-based numbers of the live slots among the first n. */
  function LiveSlots(page: Bytes, n: nat): seq<nat>
    requires HEADER_SIZE + 4 * n <= |page| || n == 0
  {
    if n == 0 then []
    else LiveSlots(page, n - 1) + if IsLive(SlotAt(page, n - 1)) then [n] else []
  }

  /** Line pointer i, counted from one, is normal and has storage. */
  predicate HasTuple(page: Bytes, i: nat) {
    && i >= 1 && 24 + 4 * i <= |page|
    && U32(page, 20 + 4 * i) / 0x8000 % 4 == 1 && U32(page, 20 + 4 * i) / 0x2_0000 % 0x8000 > 0
  }

  /** And it lies below pd_lower. */
  predicate NormalLine(page: Bytes, i: nat) {
    HasTuple(page, i) && 24 + 4 * i <= U16(page, 12)
  }

  /** A read past the end of the page raises, here None. */
  method LiveCtids(page: Bytes, block: nat) returns (out: Option<seq<(nat, nat)>>)
    ensures out.Some? <==> WellFormed(page)
    ensures out.Some? ==> |out.value| == |LiveSlots(page, SlotCount(page))|
    ensures out.Some? ==> forall j :: 0 <= j < |out.value| ==>
      out.value[j] == (block, LiveSlots(page, SlotCount(page))[j])
    ensures out.Some? ==> forall i, j :: 0 <= i < j < |out.value| ==> out.value[i].1 < out.value[j].1
    ensures out.Some? ==> forall b: nat, i: nat :: (b, i) in out.value <==> b == block && NormalLine(page, i)
  {
    if |page| < HEADER_SIZE {
      return Some([]);
    }
    var lower := U16(page, 12);
    var n := if lower >= HEADER_SIZE then (lower - HEADER_SIZE) / 4 else 0;
    var ctids: seq<(nat, nat)> := [];
    for i := 0 to n
      invariant i == 0 || HEADER_SIZE + 4 * i <= |page|
      invariant |ctids| == |LiveSlots(page, i)|
      invariant forall j :: 0 <= j < |ctids| ==> ctids[j] == (block, LiveSlots(page, i)[j])
    {
      if HEADER_SIZE + 4 * i + 4 > |page| {
        return None;
      }
      if IsLive(SlotAt(page, i)) {
        ctids := ctids + [(block, i + 1)];
      }
    }
    LiveSlotsIncrease(page, n);
    LiveSlotsAreNormal(page, block, ctids);
    out := Some(ctids);
  }

  lemma LiveIsNormal(page: Bytes, i: nat)
    requires WellFormed(page)
    ensures NormalLine(page, i) <==> 1 <= i <= SlotCount(page) && IsLive(SlotAt(page, i - 1))
  {
    if 1 <= i <= SlotCount(page) {
      assert HEADER_SIZE + 4 * (i - 1) == 20 + 4 * i;
    }
  }

  lemma LiveSlotsAreNormal(page: Bytes, block: nat, ctids: seq<(nat, nat)>)
    requires WellFormed(page) && |page| >= HEADER_SIZE && |ctids| == |LiveSlots(page, SlotCount(page))|
    requires forall j :: 0 <= j < |ctids| ==> ctids[j] == (block, LiveSlots(page, SlotCount(page))[j])
    ensures forall b: nat, i: nat :: (b, i) in ctids <==> b == block && NormalLine(page, i)
  {
    hide NormalLine, LiveSlots, IsLive, SlotAt;
    var live := LiveSlots(page, SlotCount(page));
    forall i: nat ensures (block, i) in ctids <==> NormalLine(page, i) {
      NormalIsListed(page, i);
      if i in live {
        var j :| 0 <= j < |live| && live[j] == i;
        assert ctids[j] == (block, i);
      }
    }
  }

  lemma NormalIsListed(page: Bytes, i: nat)
    requires WellFormed(page) && |page| >= HEADER_SIZE
    ensures i in LiveSlots(page, SlotCount(page)) <==> NormalLine(page, i)
  {
    hide HasTuple;
    LiveSlotsExact(page, SlotCount(page), i);
  }

  /** On the image of a page the normal lines are the normal pointers that have storage. */
  lemma ImageLines(hi: nat, lo: nat, slots: seq<Slot>, rest: Bytes, i: nat)
    requires hi < WORD && lo < WORD && ValidSlots(slots) && HEADER_SIZE + 4 * |slots| < 0x1_0000
    ensures WellFormed(PageImage(hi, lo, slots, rest))
    ensures NormalLine(PageImage(hi, lo, slots, rest), i) <==>
      1 <= i <= |slots| && slots[i - 1].flags == 1 && slots[i - 1].length > 0
  {
    hide NormalLine, PageImage, WellFormed, SlotCount;
    PageImageReadsBack(hi, lo, slots, rest);
    LiveIsNormal(PageImage(hi, lo, slots, rest), i);
  }

  /** Exactly the live slots are listed. */
  lemma {:induction false} LiveSlotsExact(page: Bytes, n: nat, i: nat)
    requires HEADER_SIZE + 4 * n <= |page| || n == 0
    ensures i in LiveSlots(page, n) <==> i <= n && HasTuple(page, i)
  {
    if n > 0 {
      LiveSlotsExact(page, n - 1, i);
      assert HEADER_SIZE + 4 * (n - 1) == 20 + 4 * n;
    }
  }

  lemma {:induction false} LiveSlotsIncrease(page: Bytes, n: nat)
    requires HEADER_SIZE + 4 * n <= |page| || n == 0
    ensures Ascending(LiveSlots(page, n))
  {
    if n > 0 {
      hide SlotAt, IsLive;
      LiveSlotsIncrease(page, n - 1);
      var front := LiveSlots(page, n - 1);
      forall i | 0 <= i < |front| ensures front[i] < n {
        assert front[i] in front;
        LiveSlotsExact(page, n - 1, front[i]);
      }
      assert Ascending(front + [n]);
      assert front + [] == front;
    }
  }

  ghost predicate Ascending(s: seq<nat>) {
    forall i, j :: 0 <= i < j < |s| ==> s[i] < s[j]
  }

  /** The bit fields of a line pointer survive packing. */
  lemma SlotReadsBack(s: Slot)
    requires ValidSlot(s)
    ensures EncodeSlot(s) < WORD && DecodeSlot(EncodeSlot(s)) == s
  {
    var w := EncodeSlot(s);
    assert w == 0x8000 * (s.flags + 4 * s.length) + s.offset;
    assert w / 0x8000 == s.flags + 4 * s.length;
    assert w / 0x2_0000 == s.length;
  }

  function Le16(n: nat): (b: Bytes)
    requires n < 0x1_0000
    ensures |b| == 2 && U16(b, 0) == n
  {
    [n % 256, n / 256]
  }

  function Le32(n: nat): (b: Bytes)
    requires n < WORD
    ensures |b| == 4 && U32(b, 0) == n
  {
    var b := Le16(n % 0x1_0000) + Le16(n / 0x1_0000);
    assert b[0] == Le16(n % 0x1_0000)[0] && b[1] == Le16(n % 0x1_0000)[1];
    assert b[2] == Le16(n / 0x1_0000)[0] && b[3] == Le16(n / 0x1_0000)[1];
    b
  }

  ghost predicate ValidSlots(slots: seq<Slot>) {
    forall i :: 0 <= i < |slots| ==> ValidSlot(slots[i])
  }

  function PointerBytes(slots: seq<Slot>): (b: Bytes)
    requires ValidSlots(slots)
    ensures |b| == 4 * |slots|
  {
    if slots == [] then []
    else
      SlotReadsBack(slots[|slots| - 1]);
      PointerBytes(slots[..|slots| - 1]) + Le32(EncodeSlot(slots[|slots| - 1]))
  }

  lemma {:induction false} PointerAt(slots: seq<Slot>, i: nat)
    requires ValidSlots(slots) && i < |slots|
    ensures DecodeSlot(U32(PointerBytes(slots), 4 * i)) == slots[i]
  {
    var n := |slots| - 1;
    var front, last := PointerBytes(slots[..n]), Le32(EncodeSlot(slots[n]));
    SlotReadsBack(slots[n]);
    assert PointerBytes(slots) == front + last;
    if i == n {
      SameWord(PointerBytes(slots), 4 * n, last, 0);
    } else {
      PointerAt(slots[..n], i);
      SameWord(PointerBytes(slots), 4 * i, front, 4 * i);
    }
  }

  lemma SameWord(a: Bytes, at: nat, b: Bytes, from: nat)
    requires at + 4 <= |a| && from + 4 <= |b|
    requires a[at..at + 4] == b[from..from + 4]
    ensures U32(a, at) == U32(b, from)
  {
    var s := a[at..at + 4];
    assert a[at] == s[0] && a[at + 1] == s[1] && a[at + 2] == s[2] && a[at + 3] == s[3];
    var t := b[from..from + 4];
    assert b[from] == t[0] && b[from + 1] == t[1] && b[from + 2] == t[2] && b[from + 3] == t[3];
  }

  /** A page image: LSN halves, 4 bytes of flags, the lower bound, 10 more header bytes,
      the line pointers, then tuple space. */
  function PageImage(hi: nat, lo: nat, slots: seq<Slot>, rest: Bytes): Bytes
    requires hi < WORD && lo < WORD && ValidSlots(slots) && HEADER_SIZE + 4 * |slots| < 0x1_0000
  {
    Le32(hi) + Le32(lo) + [0, 0, 0, 0] + Le16(HEADER_SIZE + 4 * |slots|) +
    [0, 0, 0, 0, 0, 0, 0, 0, 0, 0] + PointerBytes(slots) + rest
  }

  /** Decoding a page image finds exactly the slots it was built from, and its LSN. */
  lemma PageImageReadsBack(hi: nat, lo: nat, slots: seq<Slot>, rest: Bytes)
    requires hi < WORD && lo < WORD && ValidSlots(slots) && HEADER_SIZE + 4 * |slots| < 0x1_0000
    ensures var page := PageImage(hi, lo, slots, rest);
      && WellFormed(page) && SlotCount(page) == |slots|
      && (forall i :: 0 <= i < |slots| ==> SlotAt(page, i) == slots[i])
      && PageLsn(page) == hi * WORD + lo
  {
    var page := PageImage(hi, lo, slots, rest);
    assert forall j :: 0 <= j < 4 ==> page[j] == Le32(hi)[j] && page[4 + j] == Le32(lo)[j];
    var lower := Le16(HEADER_SIZE + 4 * |slots|);
    assert page[12] == lower[0] && page[13] == lower[1];
    var b := PointerBytes(slots);
    assert forall j :: 0 <= j < |b| ==> page[HEADER_SIZE + j] == b[j];
    forall i | 0 <= i < |slots| ensures SlotAt(page, i) == slots[i] {
      PointerAt(slots, i);
      assert U32(page, HEADER_SIZE + 4 * i) == U32(b, 4 * i);
    }
  }

  // ---------- segment scans ----------

  /** (xlogid << 32) | xrecoff from the first eight bytes. */
  function PageLsn(page: Bytes): nat
    requires |page| >= 8
  {
    U32(page, 0) * WORD + U32(page, 4)
  }

  datatype Stat = Stat(size: nat, mtime: nat)
  datatype Segment = Segment(bytes: Bytes, mtime: nat) {
    function StatOf(): Stat {
      Stat(|bytes|, mtime)
    }
    function Pages(): nat {
      |bytes| / PAGE_SIZE
    }
    function PageAt(i: nat): (p: Bytes)
      requires i < Pages()
      ensures |p| == PAGE_SIZE
    {
      bytes[i * PAGE_SIZE..(i + 1) * PAGE_SIZE]
    }
  }

  type Blocks = seq<(nat, nat)>

  /** The changed pages among the first n of a segment, with their LSNs. */
  function Changed(s: Segment, snap: nat, offset: nat, n: nat): Blocks
    requires n <= s.Pages()
  {
    if n == 0 then []
    else Changed(s, snap, offset, n - 1) +
         var lsn := PageLsn(s.PageAt(n - 1));
         if lsn > snap then [(offset + n - 1, lsn)] else []
  }

  /** The LSN read in place is that of the page. */
  lemma LsnInPlace(s: Segment, i: nat)
    requires i < s.Pages()
    ensures i * PAGE_SIZE + 8 <= |s.bytes|
    ensures U32(s.bytes, i * PAGE_SIZE) * WORD + U32(s.bytes, i * PAGE_SIZE + 4) == PageLsn(s.PageAt(i))
  {
    var at, page := i * PAGE_SIZE, s.PageAt(i);
    assert at + PAGE_SIZE <= |s.bytes|;
    assert page[0..4] == s.bytes[at..at + 4] && page[4..8] == s.bytes[at + 4..at + 8];
    SameWord(page, 0, s.bytes, at);
    SameWord(page, 4, s.bytes, at + 4);
    hide U32;
  }

  method ScanSegment(s: Segment, snap: nat, offset: nat) returns (blocks: Blocks)
    ensures blocks == Changed(s, snap, offset, s.Pages())
  {
    hide PageLsn, U32;
    blocks := [];
    if |s.bytes| == 0 {
      return;
    }
    for i := 0 to |s.bytes| / PAGE_SIZE
      invariant blocks == Changed(s, snap, offset, i)
    {
      LsnInPlace(s, i);
      var xlogid, xrecoff := U32(s.bytes, i * PAGE_SIZE), U32(s.bytes, i * PAGE_SIZE + 4);
      var lsn := xlogid * WORD + xrecoff;
      if lsn > snap {
        blocks := blocks + [(offset + i, lsn)];
      }
    }
  }

  /** The stat filter: same size and modification time as in the index. */
  predicate Skipped(s: Segment, prev: map<nat, Stat>, seg: nat) {
    seg in prev && s.StatOf() == prev[seg]
  }

  /** The scan of the first k segment files. */
  function Scan(segs: seq<Segment>, prev: map<nat, Stat>, snap: nat, k: nat): Blocks
    requires k <= |segs|
  {
    if k == 0 then []
    else
      var s := segs[k - 1];
      Scan(segs, prev, snap, k - 1) +
      if Skipped(s, prev, k - 1) then [] else Changed(s, snap, (k - 1) * SEGMENT_PAGES, s.Pages())
  }

  function SkipCount(segs: seq<Segment>, prev: map<nat, Stat>, k: nat): nat
    requires k <= |segs|
  {
    if k == 0 then 0 else SkipCount(segs, prev, k - 1) + if Skipped(segs[k - 1], prev, k - 1) then 1 else 0
  }

  /** The scan with the stat filter. */
  method FindChangedBlocks(segs: seq<Segment>, prev: map<nat, Stat>, snap: nat)
    returns (blocks: Blocks, scannedFiles: nat, skippedFiles: nat)
    ensures blocks == Scan(segs, prev, snap, |segs|)
    ensures scannedFiles + skippedFiles == |segs|
    ensures skippedFiles == SkipCount(segs, prev, |segs|)
  {
    hide Changed;
    blocks, scannedFiles, skippedFiles := [], 0, 0;
    for i := 0 to |segs|
      invariant blocks == Scan(segs, prev, snap, i)
      invariant scannedFiles + skippedFiles == i
      invariant skippedFiles == SkipCount(segs, prev, i)
    {
      if i in prev && |segs[i].bytes| == prev[i].size && segs[i].mtime == prev[i].mtime {
        skippedFiles := skippedFiles + 1;
      } else {
        scannedFiles := scannedFiles + 1;
        var found := ScanSegment(segs[i], snap, i * SEGMENT_PAGES);
        blocks := blocks + found;
      }
    }
  }

  /** The scan without it. */
  method FindChangedBlocksLsnOnly(segs: seq<Segment>, snap: nat) returns (blocks: Blocks)
    ensures blocks == Scan(segs, map[], snap, |segs|)
  {
    hide Changed;
    blocks := [];
    for i := 0 to |segs|
      invariant blocks == Scan(segs, map[], snap, i)
    {
      var found := ScanSegment(segs[i], snap, i * SEGMENT_PAGES);
      blocks := blocks + found;
    }
  }

  /** No segment file exceeds its gigabyte. */
  ghost predicate Bounded(segs: seq<Segment>) {
    forall i :: 0 <= i < |segs| ==> segs[i].Pages() <= SEGMENT_PAGES
  }

  /** The page a block number addresses, as the readers compute it. */
  predicate Exists(segs: seq<Segment>, block: nat) {
    block / SEGMENT_PAGES < |segs| && block % SEGMENT_PAGES < segs[block / SEGMENT_PAGES].Pages()
  }

  function ReadPage(segs: seq<Segment>, block: nat): (p: Bytes)
    requires Exists(segs, block)
    ensures |p| == PAGE_SIZE
  {
    segs[block / SEGMENT_PAGES].PageAt(block % SEGMENT_PAGES)
  }

  /** Blocks are 8192 bytes, and a segment file holds 131072 of them. */
  lemma BlockAddress(segs: seq<Segment>, block: nat)
    requires Exists(segs, block)
    ensures block / 131072 < |segs|
    ensures var at := block % 131072 * 8192;
      at + 8192 <= |segs[block / 131072].bytes| && ReadPage(segs, block) == segs[block / 131072].bytes[at..at + 8192]
  {}

  lemma {:induction false} ChangedExact(s: Segment, snap: nat, offset: nat, n: nat, b: nat, lsn: nat)
    requires n <= s.Pages()
    ensures (b, lsn) in Changed(s, snap, offset, n)
      <==> offset <= b < offset + n && lsn == PageLsn(s.PageAt(b - offset)) && lsn > snap
  {
    hide PageLsn;
    if n > 0 {
      ChangedExact(s, snap, offset, n - 1, b, lsn);
    }
  }

  /** The page behind a block number is newer than the snapshot and not filtered by stat. */
  ghost predicate Reported(segs: seq<Segment>, prev: map<nat, Stat>, snap: nat, b: nat, lsn: nat) {
    && Exists(segs, b)
    && !Skipped(segs[b / SEGMENT_PAGES], prev, b / SEGMENT_PAGES)
    && lsn == PageLsn(ReadPage(segs, b)) && lsn > snap
  }

  /** A block is reported iff the page its number leads back to is newer than the
      snapshot and lies in a file the stat filter did not skip. */
  lemma {:induction false} ScanExact(segs: seq<Segment>, prev: map<nat, Stat>, snap: nat, k: nat, b: nat, lsn: nat)
    requires k <= |segs| && Bounded(segs)
    ensures (b, lsn) in Scan(segs, prev, snap, k) <==>
      b / SEGMENT_PAGES < k && Reported(segs, prev, snap, b, lsn)
  {
    hide Changed, Exists, ReadPage, PageLsn, Skipped;
    if k > 0 {
      ScanExact(segs, prev, snap, k - 1, b, lsn);
      if !Skipped(segs[k - 1], prev, k - 1) {
        SegmentExact(segs, prev, snap, k - 1, b, lsn);
      }
    }
  }

  lemma SegmentExact(segs: seq<Segment>, prev: map<nat, Stat>, snap: nat, seg: nat, b: nat, lsn: nat)
    requires seg < |segs| && Bounded(segs) && !Skipped(segs[seg], prev, seg)
    ensures (b, lsn) in Changed(segs[seg], snap, seg * SEGMENT_PAGES, segs[seg].Pages()) <==>
      b / SEGMENT_PAGES == seg && Reported(segs, prev, snap, b, lsn)
  {
    ChangedExact(segs[seg], snap, seg * SEGMENT_PAGES, segs[seg].Pages(), b, lsn);
    Address(b, seg, segs[seg].Pages());
  }

  lemma Address(b: nat, seg: nat, pages: nat)
    requires pages <= SEGMENT_PAGES
    ensures seg * SEGMENT_PAGES <= b < seg * SEGMENT_PAGES + pages
      <==> b / SEGMENT_PAGES == seg && b % SEGMENT_PAGES < pages
    ensures b / SEGMENT_PAGES == seg ==> b - seg * SEGMENT_PAGES == b % SEGMENT_PAGES
  {}

  ghost predicate Increasing(blocks: Blocks) {
    forall i, j :: 0 <= i < j < |blocks| ==> blocks[i].0 < blocks[j].0
  }

  lemma {:induction false} ChangedIncreasing(s: Segment, snap: nat, offset: nat, n: nat)
    requires n <= s.Pages()
    ensures Increasing(Changed(s, snap, offset, n))
    ensures forall c :: c in Changed(s, snap, offset, n) ==> offset <= c.0 < offset + n
  {
    hide PageLsn;
    if n > 0 {
      ChangedIncreasing(s, snap, offset, n - 1);
    }
  }

  /** Block numbers come out strictly increasing across segment files. */
  lemma {:induction false} ScanIncreasing(segs: seq<Segment>, prev: map<nat, Stat>, snap: nat, k: nat)
    requires k <= |segs| && Bounded(segs)
    ensures Increasing(Scan(segs, prev, snap, k))
    ensures forall c :: c in Scan(segs, prev, snap, k) ==> c.0 < k * SEGMENT_PAGES
  {
    hide Changed, PageLsn;
    if k > 0 {
      ScanIncreasing(segs, prev, snap, k - 1);
      ChangedIncreasing(segs[k - 1], snap, (k - 1) * SEGMENT_PAGES, segs[k - 1].Pages());
    }
  }

  /** Every page newer than the snapshot lies in a file that was not skipped. */
  ghost predicate FilterSafe(segs: seq<Segment>, prev: map<nat, Stat>, snap: nat, k: nat)
    requires k <= |segs|
  {
    forall i :: 0 <= i < k && Skipped(segs[i], prev, i) ==> NothingNewer(segs[i], snap, i)
  }

  ghost predicate NothingNewer(s: Segment, snap: nat, seg: nat) {
    Changed(s, snap, seg * SEGMENT_PAGES, s.Pages()) == []
  }

  lemma EmptyIndexSkipsNothing(s: Segment, seg: nat)
    ensures !Skipped(s, map[], seg)
  {}

  lemma {:induction false} FilterSafeSuffices(segs: seq<Segment>, prev: map<nat, Stat>, snap: nat, k: nat)
    requires k <= |segs| && FilterSafe(segs, prev, snap, k)
    ensures Scan(segs, prev, snap, k) == Scan(segs, map[], snap, k)
  {
    hide PageLsn, Skipped;
    if k > 0 {
      EmptyIndexSkipsNothing(segs[k - 1], k - 1);
    }
    if k > 0 {
      FilterSafeSuffices(segs, prev, snap, k - 1);
      assert Skipped(segs[k - 1], prev, k - 1) ==> NothingNewer(segs[k - 1], snap, k - 1);
    }
  }

  lemma {:induction false} FilterLoses(segs: seq<Segment>, prev: map<nat, Stat>, snap: nat, k: nat)
    requires k <= |segs|
    ensures |Scan(segs, prev, snap, k)| <= |Scan(segs, map[], snap, k)|
    ensures !FilterSafe(segs, prev, snap, k) ==> |Scan(segs, prev, snap, k)| < |Scan(segs, map[], snap, k)|
  {
    hide Skipped, Changed, FilterSafe;
    if k > 0 {
      EmptyIndexSkipsNothing(segs[k - 1], k - 1);
      FilterLoses(segs, prev, snap, k - 1);
      OneMoreSafe(segs, prev, snap, k);
    } else {
      NoneUnsafe(segs, prev, snap);
    }
  }

  lemma OneMoreSafe(segs: seq<Segment>, prev: map<nat, Stat>, snap: nat, k: nat)
    requires 0 < k <= |segs|
    ensures FilterSafe(segs, prev, snap, k) <==>
      FilterSafe(segs, prev, snap, k - 1) &&
        (Skipped(segs[k - 1], prev, k - 1) ==> NothingNewer(segs[k - 1], snap, k - 1))
  {
    hide NothingNewer, Skipped;
  }

  lemma NoneUnsafe(segs: seq<Segment>, prev: map<nat, Stat>, snap: nat)
    ensures FilterSafe(segs, prev, snap, 0)
  {}

  /** The stat filter changes nothing exactly when no skipped file holds a newer page. */
  lemma StatFilterExact(segs: seq<Segment>, prev: map<nat, Stat>, snap: nat)
    ensures Scan(segs, prev, snap, |segs|) == Scan(segs, map[], snap, |segs|)
      <==> FilterSafe(segs, prev, snap, |segs|)
  {
    FilterLoses(segs, prev, snap, |segs|);
    if FilterSafe(segs, prev, snap, |segs|) {
      FilterSafeSuffices(segs, prev, snap, |segs|);
    }
  }
}
