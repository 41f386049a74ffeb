/** The per-chunk XOR state of the hashing schema: a table trigger keeps it row by row, and
    it must agree with the aggregate that bootstrap computes from the table. */
module Chunks {
  import opened Types

  const MIN_BIGINT: int := -0x8000_0000_0000_0000

  /** Row hash, hash of the key columns, and the configured chunk size. */
  datatype Config = Config(rowHash: Row -> bv64, pkHash: Row -> int, chunkRows: int)

  /** Table rows under their primary keys. */
  type Table = map<Key, Row>

  datatype Entry = Entry(xor64: bv64, rowCount: int)

  type State = map<int, Entry>

  datatype TriggerKind = ChunkTrigger | RowHashTrigger

  /** abs() of the smallest bigint is out of range, so such a row cannot be hashed. */
  predicate Hashable(cfg: Config, r: Row) {
    cfg.pkHash(r) != MIN_BIGINT
  }

  predicate AllHashable(cfg: Config, t: Table) {
    forall k :: k in t ==> Hashable(cfg, t[k])
  }

  function ChunkOf(cfg: Config, r: Row): int {
    (if cfg.pkHash(r) < 0 then -cfg.pkHash(r) else cfg.pkHash(r)) / (if cfg.chunkRows > 1 then cfg.chunkRows else 1)
  }

  function BXor(a: bv64, b: bv64): bv64 {
    a ^ b
  }

  // ---------- the trigger ----------

  /** INSERT ... ON CONFLICT DO UPDATE. */
  function Upsert(st: State, c: int, h: bv64): State {
    if c in st then st[c := Entry(BXor(st[c].xor64, h), st[c].rowCount + 1)] else st[c := Entry(h, 1)]
  }

  /** Takes one row out of a chunk. Without a chunk row to return, the following insert of
      NULLs raises. */
  function TakeOut(st: State, c: int, h: bv64): Option<State> {
    if c in st then Some(st[c := Entry(BXor(st[c].xor64, h), st[c].rowCount - 1)]) else None
  }

  /** Replaces one row of a chunk by another of the same chunk. */
  function Swap(st: State, c: int, was: bv64, now: bv64): Option<State> {
    if c in st then Some(st[c := Entry(BXor(BXor(st[c].xor64, was), now), st[c].rowCount)]) else None
  }

  /** The trigger for one row; None is an error that aborts the statement. */
  function Fire(cfg: Config, st: State, was: Option<Row>, now: Option<Row>): Option<State> {
    match (was, now)
    case (None, None) => Some(st)
    case (None, Some(r)) => if Hashable(cfg, r) then Some(Upsert(st, ChunkOf(cfg, r), cfg.rowHash(r))) else None
    case (Some(o), Some(n)) =>
      if !Hashable(cfg, o) || !Hashable(cfg, n) then None
      else if ChunkOf(cfg, o) == ChunkOf(cfg, n)
      then Swap(st, ChunkOf(cfg, n), cfg.rowHash(o), cfg.rowHash(n))
      else (match TakeOut(st, ChunkOf(cfg, o), cfg.rowHash(o))
            case None => None
            case Some(t) => Some(Upsert(t, ChunkOf(cfg, n), cfg.rowHash(n))))
    case (Some(o), None) =>
      if Hashable(cfg, o) then TakeOut(st, ChunkOf(cfg, o), cfg.rowHash(o)) else None
  }

  // ---------- which chunk a row is booked in ----------

  /** Chunk c takes the hashes of c times the chunk size up to the next multiple. */
  predicate Covers(cfg: Config, c: int, r: Row) {
    var size := if cfg.chunkRows < 1 then 1 else cfg.chunkRows;
    var h := if cfg.pkHash(r) >= 0 then cfg.pkHash(r) else -cfg.pkHash(r);
    c * size <= h < (c + 1) * size
  }

  lemma Quotient(h: int, n: int, c: int)
    requires n >= 1
    ensures c * n <= h < (c + 1) * n <==> c == h / n
  {
    var q := h / n;
    assert h == q * n + h % n && 0 <= h % n < n;
    if c < q {
      Multiples(c + 1, q, n);
    } else if c > q {
      Multiples(q + 1, c, n);
    }
  }

  lemma Multiples(a: int, b: int, n: int)
    requires a <= b && n >= 0
    ensures a * n <= b * n
  {
    assert b * n - a * n == (b - a) * n >= 0;
  }

  lemma CoveredByOne(cfg: Config, c: int, r: Row)
    ensures Covers(cfg, c, r) <==> c == ChunkOf(cfg, r)
  {
    Quotient(if cfg.pkHash(r) >= 0 then cfg.pkHash(r) else -cfg.pkHash(r),
      if cfg.chunkRows < 1 then 1 else cfg.chunkRows, c);
  }

  /** The row's hash, where chunk c takes it. */
  function Share(cfg: Config, c: int, r: Option<Row>): Option<bv64> {
    if r.Some? && Covers(cfg, c, r.value) then Some(cfg.rowHash(r.value)) else None
  }

  /** A chunk's entry once one hash left it and another came. */
  function Booked(e: Option<Entry>, left: Option<bv64>, came: Option<bv64>): Option<Entry> {
    match (e, left, came)
    case (_, None, None) => e
    case (None, None, Some(h)) => Some(Entry(h, 1))
    case (None, Some(_), _) => None
    case (Some(x), None, Some(h)) => Some(Entry(BXor(x.xor64, h), x.rowCount + 1))
    case (Some(x), Some(o), None) => Some(Entry(BXor(x.xor64, o), x.rowCount - 1))
    case (Some(x), Some(o), Some(h)) => Some(Entry(BXor(BXor(x.xor64, o), h), x.rowCount))
  }

  /** The trigger books the old row out of the chunk that covers it and the new row into the
      chunk that covers it, and leaves every other entry alone. */
  lemma FireBooks(cfg: Config, st: State, was: Option<Row>, now: Option<Row>, c: int)
    requires Fire(cfg, st, was, now).Some?
    ensures Lookup(Fire(cfg, st, was, now).value, c) ==
      Booked(Lookup(st, c), Share(cfg, c, was), Share(cfg, c, now))
  {
    hide Covers, ChunkOf, BXor;
    if was.Some? {
      CoveredByOne(cfg, c, was.value);
    }
    if now.Some? {
      CoveredByOne(cfg, c, now.value);
    }
  }

  /** It fails for a hash without an absolute value, and for an old row whose chunk has no entry. */
  lemma FireFailsIff(cfg: Config, st: State, was: Option<Row>, now: Option<Row>)
    ensures Fire(cfg, st, was, now) == None <==>
      || (was.Some? && cfg.pkHash(was.value) == -0x8000_0000_0000_0000)
      || (now.Some? && cfg.pkHash(now.value) == -0x8000_0000_0000_0000)
      || (was.Some? && forall c :: Covers(cfg, c, was.value) ==> c !in st)
  {
    hide Covers, ChunkOf, BXor;
    if was.Some? {
      forall c ensures Covers(cfg, c, was.value) <==> c == ChunkOf(cfg, was.value) {
        CoveredByOne(cfg, c, was.value);
      }
    }
  }

  class ChunkIndex {
    const cfg: Config
    var chunks: State
    var installed: TriggerKind

    constructor (cfg: Config, earlier: State)
      ensures this.cfg == cfg && chunks == earlier && installed == RowHashTrigger
    {
      this.cfg, chunks, installed := cfg, earlier, RowHashTrigger;
    }

    method UpsertChunk(c: int, h: bv64)
      modifies this`chunks
      ensures chunks == Upsert(old(chunks), c, h)
    {
      if c in chunks {
        chunks := chunks[c := Entry(BXor(chunks[c].xor64, h), chunks[c].rowCount + 1)];
      } else {
        chunks := chunks[c := Entry(h, 1)];
      }
    }

    method TakeOutOfChunk(c: int, h: bv64) returns (ok: bool)
      modifies this`chunks
      ensures ok <==> TakeOut(old(chunks), c, h).Some?
      ensures chunks == if ok then TakeOut(old(chunks), c, h).value else old(chunks)
    {
      ok := c in chunks;
      if ok {
        chunks := chunks[c := Entry(BXor(chunks[c].xor64, h), chunks[c].rowCount - 1)];
      }
    }

    /** Row-level AFTER trigger; on an error the statement is rolled back. */
    method AfterRow(was: Option<Row>, now: Option<Row>) returns (ok: bool)
      modifies this`chunks
      ensures installed == RowHashTrigger ==> ok && chunks == old(chunks)
      ensures installed == ChunkTrigger ==> (ok <==> Fire(cfg, old(chunks), was, now).Some?)
      ensures installed == ChunkTrigger ==>
        chunks == if ok then Fire(cfg, old(chunks), was, now).value else old(chunks)
      ensures installed == ChunkTrigger && ok ==>
        forall c :: Lookup(chunks, c) == Booked(Lookup(old(chunks), c), Share(cfg, c, was), Share(cfg, c, now))
    {
      hide BXor, ChunkOf, Booked, Share, Hashable;
      if Fire(cfg, chunks, was, now).Some? {
        forall c ensures Lookup(Fire(cfg, chunks, was, now).value, c) ==
          Booked(Lookup(chunks, c), Share(cfg, c, was), Share(cfg, c, now))
        {
          FireBooks(cfg, chunks, was, now, c);
        }
      }
      ok := true;
      if installed == RowHashTrigger {
        return;
      }
      if (was.Some? && !Hashable(cfg, was.value)) || (now.Some? && !Hashable(cfg, now.value)) {
        return false;
      }
      match (was, now)
      case (None, None) =>
      case (None, Some(r)) =>
        UpsertChunk(ChunkOf(cfg, r), cfg.rowHash(r));
      case (Some(o), Some(n)) =>
        if ChunkOf(cfg, o) == ChunkOf(cfg, n) {
          ok := SwapInChunk(ChunkOf(cfg, n), cfg.rowHash(o), cfg.rowHash(n));
        } else {
          ok := TakeOutOfChunk(ChunkOf(cfg, o), cfg.rowHash(o));
          if ok {
            UpsertChunk(ChunkOf(cfg, n), cfg.rowHash(n));
          }
        }
      case (Some(o), None) =>
        ok := TakeOutOfChunk(ChunkOf(cfg, o), cfg.rowHash(o));
    }

    method SwapInChunk(c: int, was: bv64, now: bv64) returns (ok: bool)
      modifies this`chunks
      ensures ok <==> Swap(old(chunks), c, was, now).Some?
      ensures chunks == if ok then Swap(old(chunks), c, was, now).value else old(chunks)
    {
      ok := c in chunks;
      if ok {
        chunks := chunks[c := Entry(BXor(BXor(chunks[c].xor64, was), now), chunks[c].rowCount)];
      }
    }

    /** Bootstrap up to the aggregation: the chunk trigger is installed, the rows are
        grouped by chunk, and every group is upserted. A row that cannot be hashed fails
        the query, which rolls everything back. */
    method Aggregate(table: Table) returns (ok: bool)
      modifies this
      ensures ok <==> AllHashable(cfg, table)
      ensures ok ==> installed == ChunkTrigger && chunks == Bootstrapped(cfg, old(chunks), table)
      ensures ok ==> forall c :: Lookup(chunks, c) == Counted(cfg, old(chunks), table, c)
      ensures !ok ==> installed == old(installed) && chunks == old(chunks)
    {
      var groups: State := map[];
      var todo := table.Keys;
      while todo != {}
        invariant todo <= table.Keys && installed == old(installed) && chunks == old(chunks)
        invariant groups == GroupBy(cfg, Without(table, todo)) && AllHashable(cfg, Without(table, todo))
      {
        hide GroupBy, Upsert;
        var k :| k in todo;
        if !Hashable(cfg, table[k]) {
          return false;
        }
        GroupNext(cfg, table, todo, k);
        groups := Upsert(groups, ChunkOf(cfg, table[k]), cfg.rowHash(table[k]));
        todo := todo - {k};
      }
      assert Without(table, {}) == table;
      hide GroupBy, Counted;
      forall c ensures Lookup(Bootstrapped(cfg, chunks, table), c) == Counted(cfg, chunks, table, c) {
        BootstrapCounts(cfg, chunks, table, c);
      }
      installed := ChunkTrigger;
      chunks := chunks + groups;
      ok := true;
    }

    /** Bootstrap of one table: its last two statements put the row-hash trigger in the
        place of the chunk trigger. */
    method Bootstrap(table: Table) returns (ok: bool)
      modifies this
      ensures ok <==> AllHashable(cfg, table)
      ensures ok ==> installed == RowHashTrigger && chunks == Bootstrapped(cfg, old(chunks), table)
      ensures ok ==> forall c :: Lookup(chunks, c) == Counted(cfg, old(chunks), table, c)
      ensures !ok ==> installed == old(installed) && chunks == old(chunks)
    {
      ok := Aggregate(table);
      if ok {
        installed := RowHashTrigger;
      }
    }
  }

  // ---------- the aggregate ----------

  function Without(t: Table, ks: set<Key>): Table {
    map k | k in t && k !in ks :: t[k]
  }

  /** The keys whose rows fall into a chunk. */
  ghost function Members(cfg: Config, t: Table, c: int): set<Key> {
    set k | k in t && ChunkOf(cfg, t[k]) == c
  }

  /** xor_agg over some rows, folded in an arbitrary order. */
  ghost function XorOver(cfg: Config, t: Table, ks: set<Key>): bv64
    requires ks <= t.Keys
  {
    if ks == {} then 0
    else
      var k :| k in ks;
      BXor(XorOver(cfg, t, ks - {k}), cfg.rowHash(t[k]))
  }

  /** What the aggregate query computes for a chunk. */
  ghost function Aggregated(cfg: Config, t: Table, c: int): Entry {
    Entry(XorOver(cfg, t, Members(cfg, t, c)), |Members(cfg, t, c)|)
  }

  /** SELECT ... GROUP BY chunk_id: one entry for each chunk that has rows. */
  ghost function GroupBy(cfg: Config, t: Table): State {
    map c | c in (set k | k in t :: ChunkOf(cfg, t[k])) :: Aggregated(cfg, t, c)
  }

  /** The groups replace existing entries; entries of chunks without rows stay. */
  ghost function Bootstrapped(cfg: Config, st: State, t: Table): State {
    st + GroupBy(cfg, t)
  }

  /** The keys of the rows that chunk c takes. */
  ghost function Taken(cfg: Config, t: Table, c: int): set<Key> {
    set k | k in t && Covers(cfg, c, t[k])
  }

  /** The entry of a chunk after bootstrap: hash and number of the rows it takes, or what was
      there when it takes none. */
  ghost function Counted(cfg: Config, st: State, t: Table, c: int): Option<Entry> {
    if Taken(cfg, t, c) == {} then Lookup(st, c)
    else Some(Entry(XorOver(cfg, t, Taken(cfg, t, c)), |Taken(cfg, t, c)|))
  }

  lemma BootstrapCounts(cfg: Config, st: State, t: Table, c: int)
    ensures Lookup(Bootstrapped(cfg, st, t), c) == Counted(cfg, st, t, c)
  {
    hide Covers, ChunkOf, XorOver;
    forall k | k in t ensures Covers(cfg, c, t[k]) <==> ChunkOf(cfg, t[k]) == c {
      CoveredByOne(cfg, c, t[k]);
    }
    assert Taken(cfg, t, c) == Members(cfg, t, c);
    assert c in GroupBy(cfg, t) <==> Taken(cfg, t, c) != {} by {
      if c in GroupBy(cfg, t) {
        var k :| k in t && ChunkOf(cfg, t[k]) == c;
        assert k in Taken(cfg, t, c);
      }
      if Taken(cfg, t, c) != {} {
        var k :| k in Taken(cfg, t, c);
      }
    }
  }

  /** Every chunk with rows has an entry, and every entry equals the recomputed aggregate,
      which is (0, 0) for a chunk without rows. */
  ghost predicate Agrees(cfg: Config, st: State, t: Table) {
    && (forall c :: c in st ==> st[c] == Aggregated(cfg, t, c))
    && (forall k :: k in t ==> ChunkOf(cfg, t[k]) in st)
  }

  lemma XorSwap(a: bv64, b: bv64, c: bv64)
    ensures BXor(BXor(a, b), c) == BXor(BXor(a, c), b)
    ensures BXor(BXor(a, b), b) == a
  {}

  lemma XorZero(a: bv64)
    ensures BXor(0, a) == a
  {}

  /** The fold does not depend on the order: any member can be taken as the last. */
  lemma {:induction false} XorTakesAny(cfg: Config, t: Table, ks: set<Key>, k: Key)
    requires ks <= t.Keys && k in ks
    ensures XorOver(cfg, t, ks) == BXor(XorOver(cfg, t, ks - {k}), cfg.rowHash(t[k]))
    decreases |ks|
  {
    hide BXor;
    var p :| p in ks && XorOver(cfg, t, ks) == BXor(XorOver(cfg, t, ks - {p}), cfg.rowHash(t[p]));
    if p != k {
      XorTakesAny(cfg, t, ks - {p}, k);
      XorTakesAny(cfg, t, ks - {k}, p);
      assert ks - {p} - {k} == ks - {k} - {p};
      XorSwap(XorOver(cfg, t, ks - {k} - {p}), cfg.rowHash(t[k]), cfg.rowHash(t[p]));
    }
  }

  lemma {:induction false} XorSameRows(cfg: Config, t: Table, t': Table, ks: set<Key>)
    requires ks <= t.Keys && ks <= t'.Keys && forall k :: k in ks ==> t[k] == t'[k]
    ensures XorOver(cfg, t, ks) == XorOver(cfg, t', ks)
    decreases |ks|
  {
    if ks != {} {
      var k :| k in ks;
      XorTakesAny(cfg, t, ks, k);
      XorTakesAny(cfg, t', ks, k);
      XorSameRows(cfg, t, t', ks - {k});
    }
  }

  /** A new row changes the aggregate of its own chunk only. */
  lemma AggregateInsert(cfg: Config, t: Table, k: Key, r: Row, c: int)
    requires k !in t
    ensures var e := Aggregated(cfg, t, c);
      Aggregated(cfg, t[k := r], c) ==
        if c == ChunkOf(cfg, r) then Entry(BXor(e.xor64, cfg.rowHash(r)), e.rowCount + 1) else e
  {
    hide BXor, XorOver, ChunkOf;
    var t' := t[k := r];
    var ms := Members(cfg, t, c);
    XorSameRows(cfg, t, t', ms);
    if c == ChunkOf(cfg, r) {
      assert Members(cfg, t', c) == ms + {k};
      XorTakesAny(cfg, t', ms + {k}, k);
      assert ms + {k} - {k} == ms;
    } else {
      assert Members(cfg, t', c) == ms;
    }
  }

  lemma EmptyAggregate(cfg: Config, t: Table, c: int)
    requires forall k :: k in t ==> ChunkOf(cfg, t[k]) != c
    ensures Aggregated(cfg, t, c) == Entry(0, 0)
  {
    assert Members(cfg, t, c) == {};
  }

  lemma GroupsGrow(cfg: Config, t: Table, k: Key, r: Row)
    requires k !in t
    ensures GroupBy(cfg, t[k := r]) == Upsert(GroupBy(cfg, t), ChunkOf(cfg, r), cfg.rowHash(r))
  {
    hide BXor;
    var t' := t[k := r];
    var a, b := GroupBy(cfg, t'), Upsert(GroupBy(cfg, t), ChunkOf(cfg, r), cfg.rowHash(r));
    assert forall j :: j in t ==> t'[j] == t[j] && j in t';
    assert t'[k] == r;
    assert a.Keys == b.Keys;
    forall c | c in a ensures a[c] == b[c] {
      AggregateInsert(cfg, t, k, r, c);
      if c !in GroupBy(cfg, t) {
        EmptyAggregate(cfg, t, c);
        XorZero(cfg.rowHash(r));
      }
    }
  }

  /** One more row of the table is grouped. */
  lemma GroupNext(cfg: Config, t: Table, todo: set<Key>, k: Key)
    requires k in todo && k in t && Hashable(cfg, t[k]) && AllHashable(cfg, Without(t, todo))
    ensures AllHashable(cfg, Without(t, todo - {k}))
    ensures GroupBy(cfg, Without(t, todo - {k})) ==
      Upsert(GroupBy(cfg, Without(t, todo)), ChunkOf(cfg, t[k]), cfg.rowHash(t[k]))
  {
    assert Without(t, todo - {k}) == Without(t, todo)[k := t[k]];
    hide GroupBy, Upsert, ChunkOf;
    GroupsGrow(cfg, Without(t, todo), k, t[k]);
  }

  // ---------- the invariant ----------

  lemma InsertKeeps(cfg: Config, st: State, t: Table, k: Key, r: Row)
    requires Agrees(cfg, st, t) && k !in t
    ensures Agrees(cfg, Upsert(st, ChunkOf(cfg, r), cfg.rowHash(r)), t[k := r])
  {
    hide BXor;
    var c, st' := ChunkOf(cfg, r), Upsert(st, ChunkOf(cfg, r), cfg.rowHash(r));
    forall d | d in st' ensures st'[d] == Aggregated(cfg, t[k := r], d) {
      AggregateInsert(cfg, t, k, r, d);
      if d !in st {
        EmptyAggregate(cfg, t, d);
        XorZero(cfg.rowHash(r));
      }
    }
  }

  lemma DeleteKeeps(cfg: Config, st: State, t: Table, k: Key)
    requires Agrees(cfg, st, t) && k in t
    ensures match TakeOut(st, ChunkOf(cfg, t[k]), cfg.rowHash(t[k]))
      case None => false
      case Some(st') => Agrees(cfg, st', t - {k})
  {
    hide BXor;
    var c, r := ChunkOf(cfg, t[k]), t[k];
    var rest := t - {k};
    var st' := TakeOut(st, c, cfg.rowHash(r)).value;
    assert rest[k := r] == t;
    forall d | d in st' ensures st'[d] == Aggregated(cfg, rest, d) {
      AggregateInsert(cfg, rest, k, r, d);
      XorSwap(Aggregated(cfg, rest, d).xor64, cfg.rowHash(r), cfg.rowHash(r));
    }
  }

  /** A statement on the table. */
  datatype Op = Insert(key: Key, row: Row) | Update(key: Key, newKey: Key, row: Row) | Delete(key: Key)

  /** The table after a statement; None when the key is taken or missing. */
  function Change(t: Table, op: Op): Option<Table> {
    match op
    case Insert(k, r) => if k in t then None else Some(t[k := r])
    case Update(k, k', r) => if k !in t || (k' != k && k' in t) then None else Some((t - {k})[k' := r])
    case Delete(k) => if k in t then Some(t - {k}) else None
  }

  function Was(t: Table, op: Op): Option<Row> {
    match op
    case Insert(_, _) => None
    case Update(k, _, _) => Lookup(t, k)
    case Delete(k) => Lookup(t, k)
  }

  function Now(op: Op): Option<Row> {
    match op
    case Insert(_, r) => Some(r)
    case Update(_, _, r) => Some(r)
    case Delete(_) => None
  }

  /** The trigger keeps agreement for every statement, key changes across chunks included,
      and raises only on a row whose key hashes to the smallest bigint. */
  lemma TriggerKeepsAgreement(cfg: Config, st: State, t: Table, op: Op)
    requires Agrees(cfg, st, t) && Change(t, op).Some?
    ensures match Fire(cfg, st, Was(t, op), Now(op))
      case Some(st') => Agrees(cfg, st', Change(t, op).value)
      case None =>
        (Was(t, op).Some? && !Hashable(cfg, Was(t, op).value)) ||
        (Now(op).Some? && !Hashable(cfg, Now(op).value))
  {
    hide BXor;
    match op
    case Insert(k, r) => InsertKeeps(cfg, st, t, k, r);
    case Delete(k) => DeleteKeeps(cfg, st, t, k);
    case Update(k, k', r) =>
      var o := t[k];
      DeleteKeeps(cfg, st, t, k);
      var mid := TakeOut(st, ChunkOf(cfg, o), cfg.rowHash(o)).value;
      InsertKeeps(cfg, mid, t - {k}, k', r);
      SwapIsTakeOutAndUpsert(st, ChunkOf(cfg, o), cfg.rowHash(o), cfg.rowHash(r));
  }

  lemma SwapIsTakeOutAndUpsert(st: State, c: int, was: bv64, now: bv64)
    requires c in st
    ensures Swap(st, c, was, now) == Some(Upsert(TakeOut(st, c, was).value, c, now))
  {
    var mid := TakeOut(st, c, was).value;
    assert mid[c := Entry(BXor(mid[c].xor64, now), mid[c].rowCount + 1)] == Swap(st, c, was, now).value;
  }

  datatype Db = Db(chunks: State, table: Table)

  /** A statement with its trigger; a failing one is rolled back. */
  function Step(cfg: Config, kind: TriggerKind, db: Db, op: Op): Db {
    match Change(db.table, op)
    case None => db
    case Some(t) =>
      if kind == RowHashTrigger then Db(db.chunks, t)
      else match Fire(cfg, db.chunks, Was(db.table, op), Now(op))
        case None => db
        case Some(st) => Db(st, t)
  }

  function Run(cfg: Config, kind: TriggerKind, db: Db, ops: seq<Op>): Db {
    if ops == [] then db else Step(cfg, kind, Run(cfg, kind, db, ops[..|ops| - 1]), ops[|ops| - 1])
  }

  /** After any run of statements under the chunk trigger the state equals the recomputed
      aggregate. */
  lemma {:induction false} RunKeepsAgreement(cfg: Config, db: Db, ops: seq<Op>)
    requires Agrees(cfg, db.chunks, db.table)
    ensures var end := Run(cfg, ChunkTrigger, db, ops); Agrees(cfg, end.chunks, end.table)
  {
    if ops != [] {
      RunKeepsAgreement(cfg, db, ops[..|ops| - 1]);
      var mid, op := Run(cfg, ChunkTrigger, db, ops[..|ops| - 1]), ops[|ops| - 1];
      if Change(mid.table, op).Some? {
        TriggerKeepsAgreement(cfg, mid.chunks, mid.table, op);
      }
    }
  }

  /** Bootstrap establishes agreement exactly when every older entry of a chunk that has no
      rows now is (0, 0); stale entries are never removed. */
  lemma BootstrapAgreesIff(cfg: Config, st: State, t: Table)
    ensures Agrees(cfg, Bootstrapped(cfg, st, t), t) <==>
      forall c :: c in st && (forall k :: k in t ==> ChunkOf(cfg, t[k]) != c) ==> st[c] == Entry(0, 0)
  {
    var after := Bootstrapped(cfg, st, t);
    forall c | c in after ensures
      after[c] == Aggregated(cfg, t, c) ||
        (c in st && after[c] == st[c] && forall k :: k in t ==> ChunkOf(cfg, t[k]) != c)
    {
    }
    forall c | c in st && forall k :: k in t ==> ChunkOf(cfg, t[k]) != c
      ensures after[c] == st[c] && Aggregated(cfg, t, c) == Entry(0, 0)
    {
      EmptyAggregate(cfg, t, c);
      assert c !in GroupBy(cfg, t);
    }
  }

  /** With the trigger that bootstrap leaves behind, agreement survives a run exactly when
      the run changes no chunk's aggregate. */
  lemma ReplacedTriggerAgreesIff(cfg: Config, db: Db, ops: seq<Op>)
    requires Agrees(cfg, db.chunks, db.table)
    ensures var end := Run(cfg, RowHashTrigger, db, ops);
      Agrees(cfg, end.chunks, end.table) <==>
        forall c :: Aggregated(cfg, end.table, c) == Aggregated(cfg, db.table, c)
  {
    var end := Run(cfg, RowHashTrigger, db, ops);
    ReplacedTriggerKeepsChunks(cfg, db, ops);
    forall c | c !in db.chunks ensures Aggregated(cfg, db.table, c) == Entry(0, 0) {
      EmptyAggregate(cfg, db.table, c);
    }
    if Agrees(cfg, end.chunks, end.table) {
      forall c | c !in db.chunks ensures Aggregated(cfg, end.table, c) == Entry(0, 0) {
        EmptyAggregate(cfg, end.table, c);
      }
    }
    forall k | k in end.table ensures Aggregated(cfg, end.table, ChunkOf(cfg, end.table[k])) != Entry(0, 0) {
      assert k in Members(cfg, end.table, ChunkOf(cfg, end.table[k]));
    }
  }

  lemma {:induction false} ReplacedTriggerKeepsChunks(cfg: Config, db: Db, ops: seq<Op>)
    ensures Run(cfg, RowHashTrigger, db, ops).chunks == db.chunks
  {
    if ops != [] {
      ReplacedTriggerKeepsChunks(cfg, db, ops[..|ops| - 1]);
    }
  }

  /** So the first insert after bootstrap already leaves the state behind the table. */
  lemma InsertAfterBootstrapDisagrees(cfg: Config, db: Db, k: Key, r: Row)
    requires Agrees(cfg, db.chunks, db.table) && k !in db.table
    ensures var end := Run(cfg, RowHashTrigger, db, [Insert(k, r)]); !Agrees(cfg, end.chunks, end.table)
  {
    assert [Insert(k, r)][..0] == [];
    assert Run(cfg, RowHashTrigger, db, [Insert(k, r)]).table == db.table[k := r];
    ReplacedTriggerAgreesIff(cfg, db, [Insert(k, r)]);
    AggregateInsert(cfg, db.table, k, r, ChunkOf(cfg, r));
  }

  /** The state follows the table through every run exactly under the chunk trigger, which
      bootstrap does not leave installed. */
  lemma OnlyChunkTriggerAgrees(cfg: Config, kind: TriggerKind, db: Db, k: Key, r: Row)
    requires Agrees(cfg, db.chunks, db.table) && k !in db.table
    ensures (forall ops :: var end := Run(cfg, kind, db, ops); Agrees(cfg, end.chunks, end.table)) <==>
      kind == ChunkTrigger
  {
    hide Agrees;
    match kind
    case ChunkTrigger =>
      forall ops ensures var end := Run(cfg, kind, db, ops); Agrees(cfg, end.chunks, end.table) {
        RunKeepsAgreement(cfg, db, ops);
      }
    case RowHashTrigger =>
      InsertAfterBootstrapDisagrees(cfg, db, k, r);
  }
}
