/** The table scheduler of the hashing tool: tables sorted by descending size,
    each given to the worker with the least load so far. */
module Lpt {

  /** One row of the catalog query: estimated rows and size can be negative there. */
  datatype Item = Item(schema: string, name: string, rows: int, size: int)

  function Weight(x: Item): nat {
    if x.size < 0 then 0 else x.size
  }

  type Parts = seq<seq<Item>>

  /** Sum of f over a part. */
  function Sum(f: Item -> nat, s: seq<Item>): nat {
    if s == [] then 0 else Sum(f, s[..|s| - 1]) + f(s[|s| - 1])
  }

  function Load(s: seq<Item>): nat {
    Sum(Weight, s)
  }

  function Total(f: Item -> nat, parts: Parts): nat {
    if parts == [] then 0 else Total(f, parts[..|parts| - 1]) + Sum(f, parts[|parts| - 1])
  }

  /** The sizes of the tables of a part, added up; a negative estimate counts as zero. */
  function Size(s: seq<Item>): nat {
    if s == [] then 0 else Size(s[..|s| - 1]) + if s[|s| - 1].size > 0 then s[|s| - 1].size else 0
  }

  lemma {:induction false} LoadIsSize(s: seq<Item>)
    ensures Load(s) == Size(s)
  {
    if s != [] {
      LoadIsSize(s[..|s| - 1]);
    }
  }

  /** Everything that some worker received. */
  function Items(parts: Parts): multiset<Item> {
    if parts == [] then multiset{} else Items(parts[..|parts| - 1]) + multiset(parts[|parts| - 1])
  }

  /** Every table is in one part, once. */
  ghost predicate Splits(parts: Parts, v: seq<Item>) {
    Items(parts) == multiset(v)
  }

  ghost predicate Descending(s: seq<Item>) {
    forall i, j :: 0 <= i < j < |s| ==> Weight(s[i]) >= Weight(s[j])
  }

  // ---------- the stable sort by descending size ----------

  function Insert(x: Item, s: seq<Item>): seq<Item> {
    if s == [] || Weight(x) <= Weight(s[|s| - 1]) then s + [x]
    else Insert(x, s[..|s| - 1]) + [s[|s| - 1]]
  }

  function SortDescending(v: seq<Item>): seq<Item> {
    if v == [] then [] else Insert(v[|v| - 1], SortDescending(v[..|v| - 1]))
  }

  /** The items of one weight, in order. */
  function OfWeight(w: nat, s: seq<Item>): seq<Item> {
    if s == [] then []
    else OfWeight(w, s[..|s| - 1]) + if Weight(s[|s| - 1]) == w then [s[|s| - 1]] else []
  }

  lemma {:induction false} InsertItems(x: Item, s: seq<Item>)
    ensures multiset(Insert(x, s)) == multiset(s) + multiset{x}
  {
    if s == [] || Weight(x) <= Weight(s[|s| - 1]) {
    } else {
      var front, last := s[..|s| - 1], s[|s| - 1];
      InsertItems(x, front);
      assert s == front + [last];
    }
  }

  lemma {:induction false} InsertDescends(x: Item, s: seq<Item>)
    requires Descending(s)
    ensures Descending(Insert(x, s))
  {
    if s == [] || Weight(x) <= Weight(s[|s| - 1]) {
    } else {
      var front, last := s[..|s| - 1], s[|s| - 1];
      InsertDescends(x, front);
      InsertItems(x, front);
      var r := Insert(x, front);
      hide Insert;
      forall i | 0 <= i < |r| ensures Weight(r[i]) >= Weight(last) {
        assert r[i] in multiset(front) + multiset{x};
      }
    }
  }

  lemma OfWeightSnoc(w: nat, s: seq<Item>, x: Item)
    ensures OfWeight(w, s + [x]) == OfWeight(w, s) + if Weight(x) == w then [x] else []
  {
    assert (s + [x])[..|s|] == s;
  }

  lemma {:induction false} InsertStable(w: nat, x: Item, s: seq<Item>)
    ensures OfWeight(w, Insert(x, s)) == OfWeight(w, s + [x])
  {
    if s == [] || Weight(x) <= Weight(s[|s| - 1]) {
    } else {
      var front, last := s[..|s| - 1], s[|s| - 1];
      InsertStable(w, x, front);
      OfWeightSnoc(w, Insert(x, front), last);
      OfWeightSnoc(w, front, x);
      OfWeightSnoc(w, s, x);
    }
  }

  lemma {:induction false} SortSorts(v: seq<Item>)
    ensures Descending(SortDescending(v))
    ensures multiset(SortDescending(v)) == multiset(v)
  {
    hide Insert, Descending;
    if v == [] {
      NothingDescends();
    } else {
      var front, x := v[..|v| - 1], v[|v| - 1];
      SortSorts(front);
      InsertDescends(x, SortDescending(front));
      InsertItems(x, SortDescending(front));
      assert v == front + [x];
    }
  }

  lemma NothingDescends()
    ensures Descending([])
  {}

  /** Tables of equal size keep the order of the catalog query. */
  lemma {:induction false} SortIsStable(w: nat, v: seq<Item>)
    ensures OfWeight(w, SortDescending(v)) == OfWeight(w, v)
  {
    if v != [] {
      var front, x := v[..|v| - 1], v[|v| - 1];
      SortIsStable(w, front);
      InsertStable(w, x, SortDescending(front));
      OfWeightSnoc(w, SortDescending(front), x);
    }
  }

  // ---------- the greedy placement ----------

  /** Index of the first least loaded part. */
  function Least(parts: Parts): (m: nat)
    requires parts != []
    ensures m < |parts|
    ensures forall i :: 0 <= i < |parts| ==> Load(parts[m]) <= Load(parts[i])
    ensures forall i :: 0 <= i < m ==> Load(parts[m]) < Load(parts[i])
  {
    var n := |parts| - 1;
    if n == 0 then 0 else
    var m := Least(parts[..n]);
    if Load(parts[n]) < Load(parts[m]) then n else m
  }

  function Greedy(s: seq<Item>, k: nat): (parts: Parts)
    requires k >= 1 || s == []
    ensures |parts| == k
  {
    if s == [] then seq(k, _ => [])
    else
      var parts := Greedy(s[..|s| - 1], k);
      Place(parts, s[|s| - 1])
  }

  function Place(parts: Parts, x: Item): (r: Parts)
    requires parts != []
    ensures |r| == |parts|
  {
    var m := Least(parts);
    parts[m := parts[m] + [x]]
  }

  /** The scheduler: sort, then place one table after the other. */
  method PartitionLpt(v: seq<Item>, k: nat) returns (result: Parts, workerLoads: seq<nat>)
    requires k >= 1 || v == []
    ensures result == Greedy(SortDescending(v), k)
    ensures |result| == |workerLoads| == k
    ensures forall m :: 0 <= m < k ==> workerLoads[m] == Size(result[m])
    ensures Splits(result, v) && NearOptimal(result, v)
  {
    hide *;
    var sorted := SortDescending(v);
    SortedNothing(v);
    var parts := new seq<Item>[k](_ => []);
    var loads := new nat[k](_ => 0);
    GreedyNothing(k, parts[..], loads[..]);
    assert sorted[..0] == [];
    for i := 0 to |sorted|
      invariant parts[..] == Greedy(sorted[..i], k)
      invariant Tracks(loads[..], parts[..])
    {
      Assign(parts, loads, sorted[i]);
      GreedySnoc(sorted, i, k);
    }
    assert sorted[..|sorted|] == sorted;
    result, workerLoads := parts[..], loads[..];
    LptSplits(v, k);
    TracksAt(workerLoads, result);
    GreedyIsNearOptimal(v, k);
  }

  /** The running loads are the loads of the parts. */
  ghost predicate Tracks(loads: seq<nat>, parts: Parts) {
    |loads| == |parts| && forall m :: 0 <= m < |parts| ==> loads[m] == Load(parts[m])
  }

  lemma TracksAt(loads: seq<nat>, parts: Parts)
    requires Tracks(loads, parts)
    ensures |loads| == |parts| && forall m :: 0 <= m < |parts| ==> loads[m] == Size(parts[m])
  {
    forall m | 0 <= m < |parts| ensures loads[m] == Size(parts[m]) {
      LoadIsSize(parts[m]);
    }
  }

  /** Every worker of the other split has at most d to do. */
  ghost predicate Within(other: Parts, d: nat) {
    forall i :: 0 <= i < |other| ==> Size(other[i]) <= d
  }

  /** No split of the same tables over as many workers beats the parts by more than the factor
      4/3 - 1/(3k). */
  ghost predicate NearOptimal(parts: Parts, v: seq<Item>) {
    forall other: Parts, d: nat :: |other| == |parts| && Splits(other, v) && Within(other, d) ==> Bounded(parts, d)
  }

  ghost predicate Bounded(parts: Parts, d: nat) {
    forall m :: 0 <= m < |parts| ==> 3 * |parts| * Size(parts[m]) <= (4 * |parts| - 1) * d
  }

  lemma GreedyIsNearOptimal(v: seq<Item>, k: nat)
    requires k >= 1 || SortDescending(v) == []
    ensures NearOptimal(Greedy(SortDescending(v), k), v)
  {
    hide Splits, Within, Greedy, SortDescending, Size;
    var parts := Greedy(SortDescending(v), k);
    forall other: Parts, d: nat | |other| == k && Splits(other, v) && Within(other, d) ensures Bounded(parts, d) {
      forall m | 0 <= m < k ensures 3 * k * Size(parts[m]) <= (4 * k - 1) * d {
        LptGuarantee(v, k, other, d, m);
      }
    }
  }

  lemma SortedNothing(v: seq<Item>)
    ensures v == [] ==> SortDescending(v) == []
  {}

  /** One turn of the loop: the table goes to the least loaded worker. */
  method Assign(parts: array<seq<Item>>, loads: array<nat>, x: Item)
    requires parts.Length == loads.Length >= 1
    requires Tracks(loads[..], parts[..])
    modifies parts, loads
    ensures parts[..] == Place(old(parts[..]), x)
    ensures Tracks(loads[..], parts[..])
  {
    hide Load, Least;
    var idx := LeastLoaded(loads, parts[..]);
    LoadSnoc(parts[idx], x);
    loads[idx] := loads[idx] + Weight(x);
    parts[idx] := parts[idx] + [x];
  }

  /** No table is lost or scheduled twice. */
  lemma LptSplits(v: seq<Item>, k: nat)
    requires k >= 1 || v == []
    ensures Splits(Greedy(SortDescending(v), k), v)
  {
    SortSorts(v);
    GreedyPlacesAll(SortDescending(v), k);
  }

  /** The index of the first minimum of the running loads. */
  method LeastLoaded(loads: array<nat>, ghost parts: Parts) returns (idx: nat)
    requires loads.Length == |parts| >= 1
    requires forall m :: 0 <= m < |parts| ==> loads[m] == Load(parts[m])
    ensures idx == Least(parts)
  {
    idx := 0;
    for m := 1 to loads.Length
      invariant idx < |parts|
      invariant forall j :: 0 <= j < m ==> loads[idx] <= loads[j]
      invariant forall j :: 0 <= j < idx ==> loads[idx] < loads[j]
    {
      if loads[m] < loads[idx] {
        idx := m;
      }
    }
  }

  lemma GreedyNothing(k: nat, parts: Parts, loads: seq<nat>)
    requires |parts| == |loads| == k && forall m :: 0 <= m < k ==> parts[m] == [] && loads[m] == 0
    ensures parts == Greedy([], k) && Tracks(loads, parts)
  {}

  lemma GreedySnoc(s: seq<Item>, i: nat, k: nat)
    requires k >= 1 && i < |s|
    ensures Greedy(s[..i + 1], k) == Place(Greedy(s[..i], k), s[i])
  {
    assert s[..i + 1][..i] == s[..i];
  }

  // ---------- sums over parts ----------

  lemma SumSnoc(f: Item -> nat, s: seq<Item>, x: Item)
    ensures Sum(f, s + [x]) == Sum(f, s) + f(x)
  {
    assert (s + [x])[..|s|] == s;
  }

  lemma LoadSnoc(s: seq<Item>, x: Item)
    ensures Load(s + [x]) == Load(s) + Weight(x)
  {
    assert (s + [x])[..|s|] == s;
  }

  /** Everything but part n, for the last part n. */
  lemma LastPart(f: Item -> nat, parts: Parts, p: seq<Item>)
    ensures Items(parts + [p]) == Items(parts) + multiset(p)
    ensures Total(f, parts + [p]) == Total(f, parts) + Sum(f, p)
  {
    assert (parts + [p])[..|parts|] == parts;
  }

  lemma {:induction false} UpdatePart(f: Item -> nat, parts: Parts, m: nat, p: seq<Item>)
    requires m < |parts|
    ensures Items(parts[m := p]) + multiset(parts[m]) == Items(parts) + multiset(p)
    ensures Total(f, parts[m := p]) + Sum(f, parts[m]) == Total(f, parts) + Sum(f, p)
  {
    var n := |parts| - 1;
    assert parts == parts[..n] + [parts[n]];
    LastPart(f, parts[..n], parts[n]);
    if m == n {
      assert parts[m := p] == parts[..n] + [p];
      LastPart(f, parts[..n], p);
    } else {
      UpdatePart(f, parts[..n], m, p);
      assert parts[m := p] == parts[..n][m := p] + [parts[n]];
      LastPart(f, parts[..n][m := p], parts[n]);
      Shuffle(Items(parts[..n][m := p]), Items(parts[..n]), multiset(parts[m]), multiset(p), multiset(parts[n]));
    }
  }

  lemma Shuffle(a: multiset<Item>, b: multiset<Item>, was: multiset<Item>, now: multiset<Item>, last: multiset<Item>)
    requires a + was == b + now
    ensures (a + last) + was == (b + last) + now
  {
    forall x ensures ((a + last) + was)[x] == ((b + last) + now)[x] {
      assert (a + was)[x] == (b + now)[x];
    }
  }

  lemma ItemsRemove(s: seq<Item>, i: nat)
    requires i < |s|
    ensures multiset(s) == multiset(s[..i] + s[i + 1..]) + multiset{s[i]}
  {
    assert s == s[..i] + [s[i]] + s[i + 1..];
  }

  lemma {:induction false} SumRemove(f: Item -> nat, s: seq<Item>, i: nat)
    requires i < |s|
    ensures Sum(f, s) == Sum(f, s[..i] + s[i + 1..]) + f(s[i])
  {
    var n := |s| - 1;
    if i == n {
      assert s[..i] + s[i + 1..] == s[..n];
    } else {
      SumRemove(f, s[..n], i);
      var cut := s[..i] + s[i + 1..];
      assert cut[..n - 1] == s[..n][..i] + s[..n][i + 1..] && cut[n - 1] == s[n];
    }
  }

  lemma Cancel(a: multiset<Item>, b: multiset<Item>, c: multiset<Item>)
    requires a + c == b + c
    ensures a == b
  {
    forall x ensures a[x] == b[x] {
      assert (a + c)[x] == (b + c)[x];
    }
  }

  /** Takes one occurrence of x away from whichever part holds it. */
  lemma TakeOut(f: Item -> nat, parts: Parts, x: Item) returns (rest: Parts)
    requires x in Items(parts)
    ensures |rest| == |parts| && Items(rest) + multiset{x} == Items(parts)
    ensures Total(f, rest) + f(x) == Total(f, parts)
    ensures forall m :: 0 <= m < |parts| ==> Load(rest[m]) <= Load(parts[m])
  {
    var m := Holder(parts, x);
    var i :| 0 <= i < |parts[m]| && parts[m][i] == x;
    var p := parts[m][..i] + parts[m][i + 1..];
    ItemsRemove(parts[m], i);
    SumRemove(f, parts[m], i);
    SumRemove(Weight, parts[m], i);
    UpdatePart(f, parts, m, p);
    rest := parts[m := p];
    assert Items(rest) + multiset{x} == Items(parts) by {
      assert (Items(rest) + multiset{x}) + multiset(p) == Items(rest) + (multiset(p) + multiset{x});
      Cancel(Items(rest) + multiset{x}, Items(parts), multiset(p));
    }
  }

  lemma {:induction false} Holder(parts: Parts, x: Item) returns (m: nat)
    requires x in Items(parts)
    ensures m < |parts| && x in parts[m]
  {
    var n := |parts| - 1;
    if x in parts[n] {
      m := n;
    } else {
      m := Holder(parts[..n], x);
    }
  }

  /** Whatever the split, the parts add up to the whole. */
  lemma {:induction false} SplitTotal(f: Item -> nat, parts: Parts, s: seq<Item>)
    requires Items(parts) == multiset(s)
    ensures Total(f, parts) == Sum(f, s)
    decreases |s|
  {
    if s == [] {
      EmptyTotal(f, parts);
    } else {
      var n := |s| - 1;
      assert s == s[..n] + [s[n]];
      var rest := TakeOut(f, parts, s[n]);
      Cancel(Items(rest), multiset(s[..n]), multiset{s[n]});
      SplitTotal(f, rest, s[..n]);
    }
  }

  lemma {:induction false} EmptyTotal(f: Item -> nat, parts: Parts)
    requires Items(parts) == multiset{}
    ensures Total(f, parts) == 0
  {
    if parts != [] {
      var n := |parts| - 1;
      assert forall x :: x in parts[n] ==> x in Items(parts);
      assert parts[n] == [];
      EmptyTotal(f, parts[..n]);
    }
  }

  /** A split of s restricts to a split of each prefix without raising a load. */
  lemma {:induction false} RestrictSplit(parts: Parts, s: seq<Item>, n: nat) returns (sub: Parts)
    requires Items(parts) == multiset(s) && n <= |s|
    ensures |sub| == |parts| && Items(sub) == multiset(s[..n])
    ensures forall m :: 0 <= m < |parts| ==> Load(sub[m]) <= Load(parts[m])
    decreases |s| - n
  {
    if n == |s| {
      assert s[..n] == s;
      sub := parts;
    } else {
      var wider := RestrictSplit(parts, s, n + 1);
      assert s[..n + 1] == s[..n] + [s[n]];
      sub := TakeOut(Weight, wider, s[n]);
      Cancel(Items(sub), multiset(s[..n]), multiset{s[n]});
    }
  }

  lemma {:induction false} TotalAtLeast(f: Item -> nat, parts: Parts, c: nat)
    requires forall m :: 0 <= m < |parts| ==> c <= Sum(f, parts[m])
    ensures |parts| * c <= Total(f, parts)
  {
    if parts != [] {
      TotalAtLeast(f, parts[..|parts| - 1], c);
      assert |parts| * c == (|parts| - 1) * c + c;
    }
  }

  lemma {:induction false} TotalAtMost(f: Item -> nat, parts: Parts, c: nat)
    requires forall m :: 0 <= m < |parts| ==> Sum(f, parts[m]) <= c
    ensures Total(f, parts) <= |parts| * c
  {
    if parts != [] {
      TotalAtMost(f, parts[..|parts| - 1], c);
      assert |parts| * c == (|parts| - 1) * c + c;
    }
  }

  lemma PlaceAdds(parts: Parts, x: Item)
    requires parts != []
    ensures Items(Place(parts, x)) == Items(parts) + multiset{x}
  {
    var m := Least(parts);
    UpdatePart(Weight, parts, m, parts[m] + [x]);
    var before, after := Items(parts), Items(Place(parts, x));
    assert after + multiset(parts[m]) == (before + multiset{x}) + multiset(parts[m]);
    Cancel(after, before + multiset{x}, multiset(parts[m]));
  }

  lemma {:induction false} GreedyPlacesAll(s: seq<Item>, k: nat)
    requires k >= 1 || s == []
    ensures Items(Greedy(s, k)) == multiset(s)
  {
    if s == [] {
      EmptyParts(k);
    } else {
      var n := |s| - 1;
      hide Items, Place;
      GreedyPlacesAll(s[..n], k);
      PlaceAdds(Greedy(s[..n], k), s[n]);
      assert s == s[..n] + [s[n]];
    }
  }

  lemma {:induction false} EmptyParts(k: nat)
    ensures Items(seq(k, _ => [])) == multiset{}
  {
    if k > 0 {
      EmptyParts(k - 1);
      assert seq(k, _ => [])[..k - 1] == seq<seq<Item>>(k - 1, _ => []);
    }
  }

  // ---------- the approximation bound ----------

  /** The last table a worker received was placed when that worker was the least loaded. */
  lemma {:induction false} LastPlaced(s: seq<Item>, k: nat, m: nat) returns (j: nat)
    requires m < k && Greedy(s, k)[m] != []
    ensures j < |s| && m == Least(Greedy(s[..j], k))
    ensures Greedy(s, k)[m] == Greedy(s[..j], k)[m] + [s[j]]
  {
    var n := |s| - 1;
    if m == Least(Greedy(s[..n], k)) {
      j := n;
    } else {
      j := LastPlaced(s[..n], k, m);
      assert s[..n][..j] == s[..j];
    }
  }

  lemma LeastTimesWorkers(s: seq<Item>, k: nat, j: nat)
    requires k >= 1 && j < |s|
    ensures var parts := Greedy(s[..j], k);
      k * Load(parts[Least(parts)]) + Weight(s[j]) <= Load(s)
  {
    var parts := Greedy(s[..j], k);
    TotalAtLeast(Weight, parts, Load(parts[Least(parts)]));
    GreedyPlacesAll(s[..j], k);
    SplitTotal(Weight, parts, s[..j]);
    PrefixLoad(s, j + 1);
    assert s[..j + 1] == s[..j] + [s[j]];
    LoadSnoc(s[..j], s[j]);
  }

  /** Stepping stone: k times a load is at most the total plus k-1 times the last table placed there. */
  lemma {:induction false} LoadBound(s: seq<Item>, k: nat, m: nat) returns (j: nat)
    requires m < k && Greedy(s, k)[m] != []
    ensures j < |s| && m == Least(Greedy(s[..j], k))
    ensures Load(Greedy(s, k)[m]) == Load(Greedy(s[..j], k)[m]) + Weight(s[j])
    ensures k * Load(Greedy(s, k)[m]) <= Load(s) + (k - 1) * Weight(s[j])
  {
    hide Greedy, Least, Sum;
    j := LastPlaced(s, k, m);
    var before := Load(Greedy(s[..j], k)[m]);
    LoadSnoc(Greedy(s[..j], k)[m], s[j]);
    LeastTimesWorkers(s, k, j);
    Spread(k, before, Weight(s[j]), Load(s));
  }

  lemma Spread(k: nat, load: nat, w: nat, total: nat)
    requires k >= 1 && k * load + w <= total
    ensures k * (load + w) <= total + (k - 1) * w
  {
    assert k * (load + w) == k * load + w + (k - 1) * w;
  }

  lemma {:induction false} PrefixLoad(s: seq<Item>, n: nat)
    requires n <= |s|
    ensures Load(s[..n]) <= Load(s)
    decreases |s| - n
  {
    if n < |s| {
      PrefixLoad(s, n + 1);
      assert s[..n + 1][..n] == s[..n];
    } else {
      assert s[..n] == s;
    }
  }

  /** 2 for a table that cannot share a worker of capacity d with one of weight p, else 1. */
  function Slots(p: nat, d: nat): Item -> nat {
    (x: Item) => if Weight(x) + p > d then 2 else 1
  }

  /** A worker that has no room for weight p fills at least two slots. */
  lemma {:induction false} FullWorker(p: nat, d: nat, s: seq<Item>)
    requires p <= d
    ensures Sum(Slots(p, d), s) == 0 ==> Load(s) == 0
    ensures Sum(Slots(p, d), s) <= 1 ==> Load(s) + p <= d
  {
    if s != [] {
      FullWorker(p, d, s[..|s| - 1]);
    }
  }

  /** Within capacity d, tables heavier than d/3 fill at most two slots. */
  lemma {:induction false} AtMostTwoSlots(p: nat, d: nat, s: seq<Item>)
    requires 3 * p > d
    requires forall x :: x in s ==> Weight(x) >= p
    ensures Sum(Slots(p, d), s) == 1 ==> Load(s) >= p
    ensures Sum(Slots(p, d), s) == 2 ==> Load(s) >= 2 * p || Load(s) + p > d
    ensures Sum(Slots(p, d), s) >= 3 ==> Load(s) > d
  {
    if s != [] {
      var n := |s| - 1;
      AtMostTwoSlots(p, d, s[..n]);
      assert s[n] in s;
    }
  }

  /** Workers without room for p: the tables placed so far fill at least two slots each. */
  lemma FullWorkersFill(s: seq<Item>, k: nat, p: nat, d: nat)
    requires k >= 1 && p <= d
    requires var parts := Greedy(s, k); Load(parts[Least(parts)]) + p > d
    ensures 2 * k <= Sum(Slots(p, d), s)
  {
    var parts := Greedy(s, k);
    var f := Slots(p, d);
    forall m | 0 <= m < k ensures 2 <= Sum(f, parts[m]) {
      FullWorker(p, d, parts[m]);
    }
    hide Greedy, Least, Load;
    TotalAtLeast(f, parts, 2);
    GreedyPlacesAll(s, k);
    SplitTotal(f, parts, s);
  }

  /** Workers within d: tables that weigh a third of d or more fill at most two slots each. */
  lemma HeavyTablesFill(s: seq<Item>, other: Parts, p: nat, d: nat)
    requires |other| >= 1 && Items(other) == multiset(s) && 3 * p > d
    requires forall i :: 0 <= i < |other| ==> Load(other[i]) <= d
    requires forall x :: x in s ==> Weight(x) >= p
    ensures Sum(Slots(p, d), s) <= 2 * |other|
  {
    var f := Slots(p, d);
    forall m | 0 <= m < |other| ensures Sum(f, other[m]) <= 2 {
      forall x | x in other[m] ensures Weight(x) >= p {
        InSomePart(other, m, x);
        assert x in multiset(s);
      }
      AtMostTwoSlots(p, d, other[m]);
    }
    hide Load;
    TotalAtMost(f, other, 2);
    SplitTotal(f, other, s);
  }

  /** A table is no heavier than any worker that holds it. */
  lemma NoHeavierThanHolder(other: Parts, x: Item, d: nat)
    requires x in Items(other) && forall i :: 0 <= i < |other| ==> Load(other[i]) <= d
    ensures Weight(x) <= d
  {
    var h := Holder(other, x);
    var at :| 0 <= at < |other[h]| && other[h][at] == x;
    SumRemove(Weight, other[h], at);
  }

  /** When the last table weighs more than a third of d, and some split keeps every
      worker within d, the least loaded worker still has room for it. */
  lemma HeavyTableFits(s: seq<Item>, j: nat, k: nat, other: Parts, d: nat)
    requires k >= 1 && j < |s| && Descending(s)
    requires |other| == k && Items(other) == multiset(s[..j + 1])
    requires forall i :: 0 <= i < k ==> Load(other[i]) <= d
    requires 3 * Weight(s[j]) > d
    ensures var parts := Greedy(s[..j], k); Load(parts[Least(parts)]) + Weight(s[j]) <= d
  {
    hide Load, Greedy, Least, Sum, Items, Descending;
    var parts := Greedy(s[..j], k);
    var p := Weight(s[j]);
    AllHeavier(s, j);
    assert s[j] in s[..j + 1];
    NoHeavierThanHolder(other, s[j], d);
    if Load(parts[Least(parts)]) + p > d {
      FullWorkersFill(s[..j], k, p, d);
      HeavyTablesFill(s[..j + 1], other, p, d);
      LastFillsOne(s, j, d);
      assert false;
    }
  }

  lemma AllHeavier(s: seq<Item>, j: nat)
    requires j < |s| && Descending(s)
    ensures forall x :: x in s[..j + 1] ==> Weight(x) >= Weight(s[j])
    ensures s[j] in s[..j + 1]
  {
    assert s[..j + 1][j] == s[j];
  }

  lemma LastFillsOne(s: seq<Item>, j: nat, d: nat)
    requires j < |s| && 3 * Weight(s[j]) > d
    ensures Sum(Slots(Weight(s[j]), d), s[..j + 1]) >= Sum(Slots(Weight(s[j]), d), s[..j]) + 1
  {
    assert s[..j + 1] == s[..j] + [s[j]];
    hide Sum;
    SumSnoc(Slots(Weight(s[j]), d), s[..j], s[j]);
  }

  lemma {:induction false} InSomePart(parts: Parts, m: nat, x: Item)
    requires m < |parts| && x in parts[m]
    ensures x in Items(parts)
  {
    if m < |parts| - 1 {
      InSomePart(parts[..|parts| - 1], m, x);
    }
  }

  /** The 4/3 - 1/(3k) guarantee against every other split of the same tables. */
  lemma LptGuarantee(v: seq<Item>, k: nat, other: Parts, d: nat, m: nat)
    requires m < k
    requires |other| == k && Splits(other, v) && Within(other, d)
    ensures 3 * k * Size(Greedy(SortDescending(v), k)[m]) <= (4 * k - 1) * d
  {
    hide Greedy, SortDescending, Load, Size, Items, Descending;
    forall i | 0 <= i < k ensures Load(other[i]) <= d {
      LoadIsSize(other[i]);
    }
    LoadIsSize(Greedy(SortDescending(v), k)[m]);
    SortSorts(v);
    SortedGuarantee(SortDescending(v), k, other, d, m);
  }

  lemma SortedGuarantee(s: seq<Item>, k: nat, other: Parts, d: nat, m: nat)
    requires m < k && Descending(s)
    requires |other| == k && Items(other) == multiset(s)
    requires forall i :: 0 <= i < k ==> Load(other[i]) <= d
    ensures 3 * k * Load(Greedy(s, k)[m]) <= (4 * k - 1) * d
  {
    if Greedy(s, k)[m] == [] {
      HeavyBound(k, 0, d);
    } else {
      hide Greedy, Load, Weight, Least, Items;
      var j := LoadBound(s, k, m);
      if 3 * Weight(s[j]) > d {
        LoadWithin(s, k, other, d, m, j);
        HeavyBound(k, Load(Greedy(s, k)[m]), d);
      } else {
        SumAtMost(s, k, other, d);
        LightBound(k, Load(Greedy(s, k)[m]), Weight(s[j]), d, Load(s));
      }
    }
  }

  /** A worker whose last table is heavy stays within the capacity of the other split. */
  lemma LoadWithin(s: seq<Item>, k: nat, other: Parts, d: nat, m: nat, j: nat)
    requires m < k && j < |s| && Descending(s) && |other| == k && Items(other) == multiset(s)
    requires forall i :: 0 <= i < k ==> Load(other[i]) <= d
    requires 3 * Weight(s[j]) > d && m == Least(Greedy(s[..j], k))
    requires Load(Greedy(s, k)[m]) == Load(Greedy(s[..j], k)[m]) + Weight(s[j])
    ensures Load(Greedy(s, k)[m]) <= d
  {
    hide Greedy, Load, Weight, Least, Items;
    var sub := RestrictSplit(other, s, j + 1);
    HeavyTableFits(s, j, k, sub, d);
  }

  lemma SumAtMost(s: seq<Item>, k: nat, other: Parts, d: nat)
    requires |other| == k && Items(other) == multiset(s)
    requires forall i :: 0 <= i < k ==> Load(other[i]) <= d
    ensures Load(s) <= k * d
  {
    TotalAtMost(Weight, other, d);
    SplitTotal(Weight, other, s);
  }

  lemma HeavyBound(k: nat, load: nat, d: nat)
    requires k >= 1 && load <= d
    ensures 3 * k * load <= (4 * k - 1) * d
  {
    ScaleUp(3 * k, load, d);
    ScaleUp(d, 3 * k, 4 * k - 1);
  }

  lemma LightBound(k: nat, load: nat, w: nat, d: nat, total: nat)
    requires k >= 1 && 3 * w <= d && total <= k * d && k * load <= total + (k - 1) * w
    ensures 3 * k * load <= (4 * k - 1) * d
  {
    ScaleUp(k - 1, 3 * w, d);
    assert 3 * ((k - 1) * w) == (k - 1) * (3 * w);
    assert (4 * k - 1) * d == 3 * (k * d) + (k - 1) * d;
  }

  lemma ScaleUp(a: nat, b: nat, c: nat)
    requires b <= c
    ensures a * b <= a * c
  {}
}
