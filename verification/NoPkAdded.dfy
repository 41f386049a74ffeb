/** The two-way diff of a table without a key to which CURRENT has added columns. The rows of
    the two sides then differ in width, so none cancel: every row of a changed page is
    inserted, and every old one is deleted by its common columns, after the INSERTs. */
module NoPkAdded {
  import opened Types
  import opened NoPkMerge
  import TwoWay

  // ---------- rows as the diff compares them ----------

  /** The values of a row, column by column. */
  function TupleOf(cols: seq<string>, r: Row): seq<Value> {
    seq(|cols|, i requires 0 <= i < |cols| => Get(r, cols[i]))
  }

  /** Rows over the same columns are equal iff their tuples are. */
  lemma SameColumnsSameTuple(cols: seq<string>, a: Row, b: Row)
    requires a.Keys == b.Keys && forall c :: c in a <==> c in cols
    ensures TupleOf(cols, a) == TupleOf(cols, b) <==> a == b
  {
    if TupleOf(cols, a) == TupleOf(cols, b) {
      forall c | c in a ensures a[c] == b[c] {
        var i :| 0 <= i < |cols| && cols[i] == c;
        assert TupleOf(cols, a)[i] == TupleOf(cols, b)[i];
      }
    }
  }

  // ---------- what is written ----------

  /** CURRENT's columns, and the added ones with their defaults. */
  datatype Setting = Setting(cols: set<string>, defaults: Row, kept: seq<Row>, gone: seq<Row>, arrived: seq<Row>)

  /** kept are SOURCE's rows on unchanged pages, gone those on changed pages, arrived are
      CURRENT's rows on changed pages. */
  ghost predicate Shaped(x: Setting) {
    && x.cols !! x.defaults.Keys && x.defaults != map[]
    && (forall r :: r in x.kept || r in x.gone ==> r.Keys == x.cols)
    && (forall r :: r in x.arrived ==> r.Keys == x.cols + x.defaults.Keys)
  }

  lemma NoRowOnBoth(x: Setting, r: Row)
    requires Shaped(x)
    ensures !(r in x.gone && r in x.arrived)
  {
    var c :| c in x.defaults;
    assert r in x.gone ==> c !in r;
    assert r in x.arrived ==> c in r;
  }

  /** Nothing cancels: all new rows are inserted and all old ones deleted. */
  lemma NothingCancels(x: Setting, rows: seq<Row>)
    requires Shaped(x) && Distinct(rows) && forall r :: r in x.gone || r in x.arrived ==> r in rows
    ensures var c := TwoWay.Against(multiset(x.arrived), multiset(x.gone));
      multiset(Added(c, rows)) == multiset(x.arrived) && multiset(Removed(c, rows)) == multiset(x.gone)
  {
    var c := TwoWay.Against(multiset(x.arrived), multiset(x.gone));
    hide Shaped, Added, Removed, ActionOf, Count;
    forall r ensures Count(multiset(Added(c, rows)), r) == Count(multiset(x.arrived), r) {
      AddedCount(c, rows, r);
      OneRow(x, r);
    }
    forall r ensures Count(multiset(Removed(c, rows)), r) == Count(multiset(x.gone), r) {
      RemovedCount(c, rows, r);
      OneRow(x, r);
    }
    SameCounts(multiset(Added(c, rows)), multiset(x.arrived));
    SameCounts(multiset(Removed(c, rows)), multiset(x.gone));
  }

  lemma OneRow(x: Setting, r: Row)
    requires Shaped(x)
    ensures var c := TwoWay.Against(multiset(x.arrived), multiset(x.gone));
      && (r in x.arrived <==> ActionOf(c, r).AddCopies?) && (r in x.gone <==> ActionOf(c, r).RemoveCopies?)
      && Count(multiset(x.arrived), r) == (if r in x.arrived then ActionOf(c, r).n else 0)
      && Count(multiset(x.gone), r) == (if r in x.gone then ActionOf(c, r).n else 0)
  {
    NoRowOnBoth(x, r);
    hide Shaped;
    assert r in x.arrived <==> multiset(x.arrived)[r] > 0;
    assert r in x.gone <==> multiset(x.gone)[r] > 0;
  }

  // ---------- what running it does ----------

  function Wide(defaults: Row, r: Row): Row {
    r + defaults
  }

  function WideAll(defaults: Row, rows: seq<Row>): seq<Row> {
    seq(|rows|, i requires 0 <= i < |rows| => Wide(defaults, rows[i]))
  }

  /** SOURCE after ADD COLUMN. */
  function Source(x: Setting): multiset<Row> {
    multiset(WideAll(x.defaults, x.kept)) + multiset(WideAll(x.defaults, x.gone))
  }

  /** SOURCE after the INSERTs. */
  function Start(x: Setting): multiset<Row> {
    Source(x) + multiset(x.arrived)
  }

  /** CURRENT. */
  function Wanted(x: Setting): multiset<Row> {
    multiset(WideAll(x.defaults, x.kept)) + multiset(x.arrived)
  }

  /** The WHERE clause lists the common columns. */
  predicate Matches(r: Row, old_: Row) {
    forall c :: c in old_ ==> Get(r, c) == old_[c]
  }

  /** DELETE with a LIMIT 1 subselect: any one matching row goes. */
  ghost predicate OneDelete(t: multiset<Row>, old_: Row, t': multiset<Row>) {
    if exists r :: r in t && Matches(r, old_) then exists r :: r in t && Matches(r, old_) && t' == t - multiset{r}
    else t' == t
  }

  /** t' can be what is left after the deletes. */
  ghost predicate Ends(t: multiset<Row>, olds: seq<Row>, t': multiset<Row>)
    decreases |olds|, 1
  {
    if olds == [] then t' == t else exists mid :: EndsVia(t, olds, mid, t')
  }

  ghost predicate EndsVia(t: multiset<Row>, olds: seq<Row>, mid: multiset<Row>, t': multiset<Row>)
    requires olds != []
    decreases |olds|, 0
  {
    Ends(t, olds[..|olds| - 1], mid) && OneDelete(mid, olds[|olds| - 1], t')
  }

  function Common(x: Setting, r: Row): Row {
    map c | c in x.cols && c in r :: r[c]
  }

  /** Every inserted row that agrees with a deleted one on the common columns has the
      defaults in the added ones. */
  ghost predicate OnlyDefaults(x: Setting) {
    forall r :: r in x.arrived && Common(x, r) in x.gone ==> r == Wide(x.defaults, Common(x, r))
  }

  lemma MatchIsCommon(x: Setting, r: Row, old_: Row)
    requires Shaped(x) && old_ in x.gone && r.Keys == x.cols + x.defaults.Keys
    ensures Matches(r, old_) <==> Common(x, r) == old_
  {
    if Matches(r, old_) {
      forall c | c in old_ ensures Common(x, r)[c] == old_[c] {}
    }
    if Common(x, r) == old_ {
      forall c | c in old_ ensures Get(r, c) == old_[c] { assert Common(x, r)[c] == r[c]; }
    }
  }

  lemma WideMatches(x: Setting, r: Row)
    requires Shaped(x) && r.Keys == x.cols
    ensures Wide(x.defaults, r).Keys == x.cols + x.defaults.Keys && Common(x, Wide(x.defaults, r)) == r
  {}

  lemma AllAreWide(x: Setting, r: Row)
    requires Shaped(x) && r in Start(x)
    ensures r.Keys == x.cols + x.defaults.Keys
    ensures r in x.arrived || r == Wide(x.defaults, Common(x, r))
  {
    if r !in x.arrived {
      var rows := if r in WideAll(x.defaults, x.kept) then x.kept else x.gone;
      assert r in WideAll(x.defaults, rows);
      var i :| 0 <= i < |rows| && WideAll(x.defaults, rows)[i] == r;
      WideMatches(x, rows[i]);
    }
  }

  // ---------- unique values ----------

  /** A row of a changed page that kept its unique values, changed or not, is inserted beside
      its old copy and stops the script. */
  lemma ReinsertedRowCollides(x: Setting, us: Uniques, u: set<string>, old_: Row, r: Row)
    requires Shaped(x) && u in us && u <= x.cols && old_ in x.gone && r in x.arrived && SameOn(u, r, old_)
    ensures !InsertsFit(us, Source(x), InsertsOf(x.arrived) + DeletesOf(x.gone))
  {
    var held := Wide(x.defaults, old_);
    WideMatches(x, old_);
    assert SameOn(u, r, held) by {
      forall c | c in u ensures Get(held, c) == Get(old_, c) {}
    }
    assert Collide(us, r, held);
    var i :| 0 <= i < |x.arrived| && x.arrived[i] == r;
    HeldInSource(x, old_);
    hide Shaped, Collide, InsertsFit, Source, Wide;
    InsertsFitInTurn(us, Source(x), x.arrived, x.gone);
    assert held in Source(x) + multiset(x.arrived[..i]);
  }

  lemma HeldInSource(x: Setting, old_: Row)
    requires old_ in x.gone
    ensures Wide(x.defaults, old_) in Source(x)
  {
    hide Wide;
    var i :| 0 <= i < |x.gone| && x.gone[i] == old_;
    assert WideAll(x.defaults, x.gone)[i] == Wide(x.defaults, old_);
  }

  // ---------- when it goes right ----------

  /** A row that a delete may take is the one meant. */
  lemma OnlyTheOldRow(x: Setting, r: Row, old_: Row)
    requires Shaped(x) && OnlyDefaults(x) && r in Start(x) && old_ in x.gone && Matches(r, old_)
    ensures r == Wide(x.defaults, old_)
  {
    AllAreWide(x, r);
    MatchIsCommon(x, r, old_);
  }

  lemma WidePrefix(defaults: Row, rows: seq<Row>, n: nat)
    requires n < |rows|
    ensures WideAll(defaults, rows[..n + 1]) == WideAll(defaults, rows[..n]) + [Wide(defaults, rows[n])]
    ensures multiset(WideAll(defaults, rows[..n + 1])) <= multiset(WideAll(defaults, rows))
  {
    assert WideAll(defaults, rows) == WideAll(defaults, rows[..n + 1]) + WideAll(defaults, rows[n + 1..]);
  }

  lemma {:induction false} DeletesTakeOld(x: Setting, n: nat, t': multiset<Row>)
    requires Shaped(x) && OnlyDefaults(x) && n <= |x.gone| && Ends(Start(x), x.gone[..n], t')
    ensures t' == Start(x) - multiset(WideAll(x.defaults, x.gone[..n]))
  {
    hide Start, Wide, WideAll, Matches, Shaped, OnlyDefaults, OneDelete;
    if n > 0 {
      var olds := x.gone[..n];
      assert olds[..n - 1] == x.gone[..n - 1] && olds[n - 1] == x.gone[n - 1];
      var mid :| EndsVia(Start(x), olds, mid, t');
      DeletesTakeOld(x, n - 1, mid);
      NextTakesOld(x, n - 1, mid, t');
    } else {
      assert WideAll(x.defaults, []) == [] by { NoneWide(x.defaults); }
      assert x.gone[..0] == [];
    }
  }

  lemma NoneWide(defaults: Row)
    ensures WideAll(defaults, []) == []
  {}

  lemma NextTakesOld(x: Setting, n: nat, mid: multiset<Row>, t': multiset<Row>)
    requires Shaped(x) && OnlyDefaults(x) && n < |x.gone|
    requires mid == Start(x) - multiset(WideAll(x.defaults, x.gone[..n])) && OneDelete(mid, x.gone[n], t')
    ensures t' == Start(x) - multiset(WideAll(x.defaults, x.gone[..n + 1]))
  {
    hide Start, Wide, WideAll, Matches, Shaped, OnlyDefaults;
    var old_ := x.gone[n];
    OldRowIsThere(x, n, mid);
    OldRowMatches(x, old_);
    var r :| r in mid && Matches(r, old_) && t' == mid - multiset{r};
    assert r in Start(x);
    OnlyTheOldRow(x, r, old_);
    WidePrefix(x.defaults, x.gone, n);
    MinusOne(Start(x), WideAll(x.defaults, x.gone[..n]), r);
  }

  lemma MinusOne(t: multiset<Row>, rows: seq<Row>, r: Row)
    ensures t - multiset(rows) - multiset{r} == t - multiset(rows + [r])
  {
    assert multiset(rows + [r]) == multiset(rows) + multiset{r};
  }

  lemma OldRowMatches(x: Setting, old_: Row)
    requires Shaped(x) && old_ in x.gone
    ensures Matches(Wide(x.defaults, old_), old_)
  {
    WideMatches(x, old_);
    MatchIsCommon(x, Wide(x.defaults, old_), old_);
  }

  lemma OldRowIsThere(x: Setting, n: nat, mid: multiset<Row>)
    requires n < |x.gone| && mid == Start(x) - multiset(WideAll(x.defaults, x.gone[..n]))
    ensures Wide(x.defaults, x.gone[n]) in mid
  {
    WidePrefix(x.defaults, x.gone, n);
    var r := Wide(x.defaults, x.gone[n]);
    assert multiset(WideAll(x.defaults, x.gone[..n + 1]))[r] == multiset(WideAll(x.defaults, x.gone[..n]))[r] + 1;
    hide WideAll, Wide;
  }

  // ---------- when it goes wrong ----------

  /** The deletes take the old rows, but at place j the new row f. */
  function Choice(x: Setting, j: nat, f: Row): seq<Row>
    requires j < |x.gone|
  {
    WideAll(x.defaults, x.gone)[j := f]
  }

  lemma ChoiceIsThere(x: Setting, j: nat, f: Row)
    requires j < |x.gone| && f in x.arrived
    ensures multiset(Choice(x, j, f)) <= Start(x)
  {
    var olds := WideAll(x.defaults, x.gone);
    assert multiset(olds[j := f]) == multiset(olds) - multiset{olds[j]} + multiset{f};
    hide WideAll;
  }

  lemma {:induction false} SomeRunTakes(x: Setting, j: nat, f: Row, n: nat)
    requires Shaped(x) && j < |x.gone| && f in x.arrived && Common(x, f) == x.gone[j] && n <= |x.gone|
    ensures Ends(Start(x), x.gone[..n], Start(x) - multiset(Choice(x, j, f)[..n]))
  {
    hide Start, Wide, WideAll, Matches, Shaped, OneDelete, Common;
    assert |Choice(x, j, f)| == |x.gone| by { WholeChoice(x, j, f); }
    hide Choice;
    if n > 0 {
      SomeRunTakes(x, j, f, n - 1);
      var mid := Start(x) - multiset(Choice(x, j, f)[..n - 1]);
      assert x.gone[..n][..n - 1] == x.gone[..n - 1] && x.gone[..n][n - 1] == x.gone[n - 1];
      TakeNext(x, j, f, n - 1);
      assert EndsVia(Start(x), x.gone[..n], mid, Start(x) - multiset(Choice(x, j, f)[..n]));
    } else {
      assert multiset(Choice(x, j, f)[..0]) == multiset{};
    }
  }

  lemma TakeNext(x: Setting, j: nat, f: Row, n: nat)
    requires Shaped(x) && j < |x.gone| && f in x.arrived && Common(x, f) == x.gone[j] && n < |x.gone|
    requires |Choice(x, j, f)| == |x.gone|
    ensures OneDelete(Start(x) - multiset(Choice(x, j, f)[..n]), x.gone[n],
      Start(x) - multiset(Choice(x, j, f)[..n + 1]))
  {
    hide Start, Wide, WideAll, Matches, Shaped, Common, Choice;
    var all := Choice(x, j, f);
    var r := all[n];
    ChoiceIsThere(x, j, f);
    ChoiceMatches(x, j, f, n);
    NextIsThere(Start(x), all, n);
    assert all[..n + 1] == all[..n] + [r];
    MinusOne(Start(x), all[..n], r);
  }

  lemma NextIsThere(t: multiset<Row>, all: seq<Row>, n: nat)
    requires n < |all| && multiset(all) <= t
    ensures all[n] in t - multiset(all[..n])
  {
    assert all == all[..n] + [all[n]] + all[n + 1..];
  }

  lemma ChoiceMatches(x: Setting, j: nat, f: Row, n: nat)
    requires Shaped(x) && j < |x.gone| && f in x.arrived && Common(x, f) == x.gone[j] && n < |x.gone|
    requires |Choice(x, j, f)| == |x.gone|
    ensures Matches(Choice(x, j, f)[n], x.gone[n])
  {
    if n == j {
      FreshMatches(x, f, x.gone[j]);
    } else {
      OldRowMatches(x, x.gone[n]);
    }
    hide Matches, Shaped, Common, Wide;
  }

  lemma FreshMatches(x: Setting, f: Row, old_: Row)
    requires Shaped(x) && f in x.arrived && old_ in x.gone && Common(x, f) == old_
    ensures Matches(f, old_)
  {
    MatchIsCommon(x, f, old_);
  }

  lemma TakesTooMuch(x: Setting, j: nat, f: Row)
    requires j < |x.gone| && f in x.arrived && f != Wide(x.defaults, x.gone[j])
    ensures Start(x) - multiset(Choice(x, j, f)) != Wanted(x)
  {
    ChoiceIsThere(x, j, f);
    var olds := WideAll(x.defaults, x.gone);
    assert olds[j] != f;
    assert multiset(olds[j := f]) == multiset(olds) - multiset{olds[j]} + multiset{f};
    hide WideAll;
    assert (Start(x) - multiset(Choice(x, j, f)))[f] == Wanted(x)[f] - 1;
  }

  /** Whatever rows the deletes happen to take, the result is CURRENT: exactly when no
      inserted row with other values than the defaults agrees with a deleted row on the
      common columns. */
  lemma AddedColumnsConvergeIff(x: Setting)
    requires Shaped(x)
    ensures (forall t' :: Ends(Start(x), x.gone, t') ==> t' == Wanted(x)) <==> OnlyDefaults(x)
  {
    hide Ends, Shaped, Choice;
    assert x.gone[..|x.gone|] == x.gone;
    if OnlyDefaults(x) {
      forall t' | Ends(Start(x), x.gone, t') ensures t' == Wanted(x) {
        DeletesTakeOld(x, |x.gone|, t');
        Leftover(x);
      }
    } else {
      var f :| f in x.arrived && Common(x, f) in x.gone && f != Wide(x.defaults, Common(x, f));
      var j :| 0 <= j < |x.gone| && x.gone[j] == Common(x, f);
      SomeRunTakes(x, j, f, |x.gone|);
      WholeChoice(x, j, f);
      TakesTooMuch(x, j, f);
    }
  }

  lemma WholeChoice(x: Setting, j: nat, f: Row)
    requires j < |x.gone|
    ensures |Choice(x, j, f)| == |x.gone| && Choice(x, j, f)[..|x.gone|] == Choice(x, j, f)
  {}

  lemma Leftover(x: Setting)
    ensures Start(x) - multiset(WideAll(x.defaults, x.gone)) == Wanted(x)
  {
    hide WideAll;
  }

  /** One row, to which CURRENT gave a value in the added column: the delete may take it. */
  lemma AddedValueMayBeLost(v: Value, w: Value)
    requires w != None
    ensures var x := Setting({"a"}, map["b" := None], [], [map["a" := v]], [map["a" := v, "b" := w]]);
      Shaped(x) && exists t' :: Ends(Start(x), x.gone, t') && t' != Wanted(x)
  {
    var x := Setting({"a"}, map["b" := None], [], [map["a" := v]], [map["a" := v, "b" := w]]);
    assert "a"[0] != "b"[0];
    var r := x.arrived[0];
    assert r in x.arrived && Common(x, r) == map["a" := v] && Common(x, r) in x.gone;
    assert Wide(x.defaults, Common(x, r))["b"] == None && r["b"] == w;
    hide Ends, Start, Wanted;
    AddedColumnsConvergeIff(x);
  }
}
