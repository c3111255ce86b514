/** Python's insertion-ordered `dict`, as the list of its (key, value) pairs.

    Iteration order matters in this pipeline (tables are paired by position,
    parameters are zipped by position, table headers come from the first
    entry), so a dict is a sequence, not a Dafny `map`. */
module Dicts {
  import opened Tables

  type Dict<K, V> = seq<(K, V)>

  /** `list(d.keys())` */
  function Keys<K, V>(d: Dict<K, V>): (r: seq<K>)
    ensures |r| == |d|
    ensures forall i :: 0 <= i < |d| ==> r[i] == d[i].0
  {
    seq(|d|, i requires 0 <= i < |d| => d[i].0)
  }

  /** `list(d.values())` */
  function Values<K, V>(d: Dict<K, V>): (r: seq<V>)
    ensures |r| == |d|
    ensures forall i :: 0 <= i < |d| ==> r[i] == d[i].1
  {
    seq(|d|, i requires 0 <= i < |d| => d[i].1)
  }

  /** Every value a Python dict can hold: no key twice. */
  predicate DistinctKeys<K(==), V>(d: Dict<K, V>)
  {
    NoDuplicates(Keys(d))
  }

  /** `d[k]`, with None for the KeyError case. */
  function Get<K(==), V>(d: Dict<K, V>, k: K): (r: Option<V>)
    ensures r.Some? <==> k in Keys(d)
  {
    if d == [] then None
    else if d[0].0 == k then Some(d[0].1)
    else Get(d[1..], k)
  }

  /** A value found under `k` is stored under `k`. */
  lemma {:induction false} GetFound<K, V>(d: Dict<K, V>, k: K)
    requires Get(d, k).Some?
    ensures (k, Get(d, k).value) in d
  {
    if d[0].0 != k {
      GetFound(d[1..], k);
    }
  }

  /** `d[k] = v`: an existing key keeps its position, a new key goes last. */
  function Put<K(==,!new), V>(d: Dict<K, V>, k: K, v: V): (r: Dict<K, V>)
    ensures Keys(r) == if k in Keys(d) then Keys(d) else Keys(d) + [k]
  {
    if d == [] then [(k, v)]
    else if d[0].0 == k then
      var r := [(k, v)] + d[1..];
      assert r[1..] == d[1..];
      r
    else
      var r' := Put(d[1..], k, v);
      var r := [d[0]] + r';
      assert r[1..] == r';
      r
  }

  /** Inserting a new key appends the pair at the end. */
  lemma {:induction false} PutAppends<K(!new), V>(d: Dict<K, V>, k: K, v: V)
    requires k !in Keys(d)
    ensures Put(d, k, v) == d + [(k, v)]
  {
    if d != [] {
      assert Keys(d)[0] == d[0].0;
      assert Keys(d[1..]) == Keys(d)[1..];
      PutAppends(d[1..], k, v);
      assert d == [d[0]] + d[1..];
    }
  }

  /** Four insertions under distinct keys list the keys in insertion order. */
  lemma PutFourKeys<K(!new), V>(k1: K, k2: K, k3: K, k4: K, v1: V, v2: V, v3: V, v4: V)
    requires k1 != k2 && k1 != k3 && k1 != k4 && k2 != k3 && k2 != k4 && k3 != k4
    ensures Keys(Put(Put(Put(Put([], k1, v1), k2, v2), k3, v3), k4, v4)) == [k1, k2, k3, k4]
  {
    var d1: Dict<K, V> := [(k1, v1)];
    var d2 := d1 + [(k2, v2)];
    var d3 := d2 + [(k3, v3)];
    assert Keys(d1) == [k1] && Keys(d2) == [k1, k2] && Keys(d3) == [k1, k2, k3];
    PutAppends([], k1, v1);
    PutAppends(d1, k2, v2);
    PutAppends(d2, k3, v3);
    PutAppends(d3, k4, v4);
    assert Keys(d3 + [(k4, v4)]) == [k1, k2, k3, k4];
  }

  /** After inserting under `k`, `k` holds the new value. */
  lemma {:induction false} GetPutSame<K(!new), V>(d: Dict<K, V>, k: K, v: V)
    ensures Get(Put(d, k, v), k) == Some(v)
  {
    if d != [] && d[0].0 != k {
      GetPutSame(d[1..], k, v);
      assert Put(d, k, v)[1..] == Put(d[1..], k, v);
    }
  }

  /** Inserting under `k` leaves every other key's value as it was. */
  lemma {:induction false} GetPut<K(!new), V>(d: Dict<K, V>, k: K, v: V, k': K)
    requires k' != k
    ensures Get(Put(d, k, v), k') == Get(d, k')
  {
    if d != [] && d[0].0 != k {
      GetPut(d[1..], k, v, k');
      assert Put(d, k, v)[1..] == Put(d[1..], k, v);
    }
  }

  /** Four insertions under distinct keys keep each value under its own key. */
  lemma PutFourGet<K(!new), V>(k1: K, k2: K, k3: K, k4: K, v1: V, v2: V, v3: V, v4: V)
    requires k1 != k2 && k1 != k3 && k1 != k4 && k2 != k3 && k2 != k4 && k3 != k4
    ensures var d := Put(Put(Put(Put([], k1, v1), k2, v2), k3, v3), k4, v4);
      Get(d, k1) == Some(v1) && Get(d, k2) == Some(v2) && Get(d, k3) == Some(v3) && Get(d, k4) == Some(v4)
  {
    var d1 := Put([], k1, v1);
    var d2 := Put(d1, k2, v2);
    var d3 := Put(d2, k3, v3);
    GetPutSame([], k1, v1);
    GetPutSame(d1, k2, v2);
    GetPutSame(d2, k3, v3);
    GetPutSame(d3, k4, v4);
    GetPut(d1, k2, v2, k1);
    GetPut(d2, k3, v3, k1);
    GetPut(d2, k3, v3, k2);
    GetPut(d3, k4, v4, k1);
    GetPut(d3, k4, v4, k2);
    GetPut(d3, k4, v4, k3);
  }

  /** Inserting keeps a dict's keys distinct. */
  lemma PutDistinct<K(!new), V>(d: Dict<K, V>, k: K, v: V)
    requires DistinctKeys(d)
    ensures DistinctKeys(Put(d, k, v))
  {
    var ks := Keys(d);
    if k !in ks {
      forall i, j | 0 <= i < j < |ks| + 1
        ensures (ks + [k])[i] != (ks + [k])[j]
      {
        if j == |ks| {
          assert ks[i] in ks;
        }
      }
    }
  }

  /** `d[kv.0] = kv.1`, as the body of a loop that fills a dict. */
  function PutPair<K(==,!new), V>(d: Dict<K, V>, kv: (K, V)): Dict<K, V>
  {
    Put(d, kv.0, kv.1)
  }

  /** `d[k] = v` for each pair of `kvs` in turn. */
  function PutAll<K(==,!new), V>(d: Dict<K, V>, kvs: seq<(K, V)>): Dict<K, V>
    decreases |kvs|
  {
    if kvs == [] then d else PutAll(Put(d, kvs[0].0, kvs[0].1), kvs[1..])
  }

  /** Inserting distinct new keys appends their pairs in order. */
  lemma {:induction false} PutAllFresh<K(!new), V>(d: Dict<K, V>, kvs: seq<(K, V)>)
    requires NoDuplicates(Keys(d + kvs))
    ensures PutAll(d, kvs) == d + kvs
    decreases |kvs|
  {
    if kvs != [] {
      var k, v := kvs[0].0, kvs[0].1;
      var d' := d + [(k, v)];
      var ks := Keys(d + kvs);
      assert ks[|d|] == k;
      assert k !in Keys(d) by {
        forall i | 0 <= i < |d| ensures Keys(d)[i] != k {
          assert Keys(d)[i] == ks[i];
        }
      }
      PutAppends(d, k, v);
      assert d' + kvs[1..] == d + kvs;
      PutAllFresh(d', kvs[1..]);
    }
  }

  /** A loop that stores one pair per pass, every pass succeeding under a new key,
      builds the list of those pairs. */
  lemma {:induction false} FoldPutFresh<K(!new), V>(outcomes: seq<Result<(K, V)>>, pairs: Dict<K, V>)
    requires |outcomes| == |pairs| && DistinctKeys(pairs)
    requires forall i :: 0 <= i < |pairs| ==> outcomes[i] == Ok(pairs[i])
    ensures FoldResults(outcomes, [], PutPair) == Ok(pairs)
    decreases |pairs|
  {
    if pairs != [] {
      var n := |pairs| - 1;
      var init := pairs[..n];
      assert Keys(init) == Keys(pairs)[..n];
      FoldPutFresh(outcomes[..n], init);
      assert Keys(pairs)[n] == pairs[n].0;
      assert pairs[n].0 !in Keys(init);
      PutAppends(init, pairs[n].0, pairs[n].1);
      assert init + [pairs[n]] == pairs;
    }
  }

  /** Five insertions, one statement each. */
  lemma PutAllFive<K(!new), V>(d: Dict<K, V>, kvs: seq<(K, V)>)
    requires |kvs| == 5
    ensures PutAll(d, kvs) ==
      Put(Put(Put(Put(Put(d, kvs[0].0, kvs[0].1), kvs[1].0, kvs[1].1), kvs[2].0, kvs[2].1), kvs[3].0, kvs[3].1), kvs[4].0, kvs[4].1)
  {
    var d1 := Put(d, kvs[0].0, kvs[0].1);
    var d2 := Put(d1, kvs[1].0, kvs[1].1);
    var d3 := Put(d2, kvs[2].0, kvs[2].1);
    var d4 := Put(d3, kvs[3].0, kvs[3].1);
    assert PutAll(d, kvs) == PutAll(d1, kvs[1..]);
    assert PutAll(d1, kvs[1..]) == PutAll(d2, kvs[2..]) by { assert kvs[1..][1..] == kvs[2..]; }
    assert PutAll(d2, kvs[2..]) == PutAll(d3, kvs[3..]) by { assert kvs[2..][1..] == kvs[3..]; }
    assert PutAll(d3, kvs[3..]) == PutAll(d4, kvs[4..]) by { assert kvs[3..][1..] == kvs[4..]; }
    assert PutAll(d4, kvs[4..]) == Put(d4, kvs[4].0, kvs[4].1) by { assert kvs[4..][1..] == []; }
  }

  /** A dict's value under its `i`-th key, when no earlier key is the same. */
  lemma {:induction false} GetIndex<K, V>(d: Dict<K, V>, i: nat)
    requires i < |d| && forall j :: 0 <= j < i ==> d[j].0 != d[i].0
    ensures Get(d, d[i].0) == Some(d[i].1)
    decreases i
  {
    if i > 0 {
      var d' := d[1..];
      assert d'[i - 1] == d[i];
      forall j | 0 <= j < i - 1 ensures d'[j].0 != d'[i - 1].0 {
        assert d'[j] == d[j + 1];
      }
      GetIndex(d', i - 1);
    }
  }

  /** Storing under a key other than the first leaves the first pair in front. */
  lemma PutSkips<K(!new), V>(d: Dict<K, V>, k: K, v: V)
    requires 0 < |d| && d[0].0 != k
    ensures Put(d, k, v) == [d[0]] + Put(d[1..], k, v)
  {
  }

  lemma UpdateTail<T>(s: seq<T>, i: nat, x: T)
    requires 0 < i < |s|
    ensures [s[0]] + s[1..][i - 1 := x] == s[i := x]
  {
  }

  /** Storing under the `i`-th key, when no earlier key is the same, replaces the `i`-th pair. */
  lemma {:induction false} PutIndex<K(!new), V>(d: Dict<K, V>, i: nat, v: V)
    requires i < |d| && forall j :: 0 <= j < i ==> d[j].0 != d[i].0
    ensures Put(d, d[i].0, v) == d[i := (d[i].0, v)]
    decreases i
  {
    var k := d[i].0;
    if i > 0 {
      var d' := d[1..];
      assert d'[i - 1] == d[i];
      forall j | 0 <= j < i - 1 ensures d'[j].0 != d'[i - 1].0 {
        assert d'[j] == d[j + 1];
      }
      PutIndex(d', i - 1, v);
      PutSkips(d, k, v);
      UpdateTail(d, i, (k, v));
    } else {
      assert Put(d, k, v) == [(k, v)] + d[1..];
    }
  }

  /** One cell of the pivot loop: `out.setdefault(k, {})[j] = v`. */
  function PivotCell<J(==,!new), K(==,!new), V>(out: Dict<K, Dict<J, V>>, j: J, k: K, v: V): Dict<K, Dict<J, V>>
  {
    var column := match Get(out, k) case Some(c) => c case None => [];
    Put(out, k, Put(column, j, v))
  }

  /** The cells of one row `j`, in order. */
  function PivotRow<J(==,!new), K(==,!new), V>(out: Dict<K, Dict<J, V>>, j: J, row: Dict<K, V>): Dict<K, Dict<J, V>>
    decreases |row|
  {
    if row == [] then out
    else PivotCell(PivotRow(out, j, row[..|row| - 1]), j, row[|row| - 1].0, row[|row| - 1].1)
  }

  /** The dict of dicts `rows[j][k]` regrouped as `out[k][j]`, keys in order of first sight. */
  function Pivot<J(==,!new), K(==,!new), V>(rows: Dict<J, Dict<K, V>>): Dict<K, Dict<J, V>>
    decreases |rows|
  {
    if rows == [] then []
    else PivotRow(Pivot(rows[..|rows| - 1]), rows[|rows| - 1].0, rows[|rows| - 1].1)
  }

  /** Row `j` of a full grid: every column key `ks[t]` with the cell `cell(j, t)`. */
  function GridRow<J, K, V>(ks: seq<K>, cell: (J, nat) -> V, j: J): (r: Dict<K, V>)
    ensures Keys(r) == ks
  {
    seq(|ks|, t requires 0 <= t < |ks| => (ks[t], cell(j, t)))
  }

  /** A full grid, row by row. */
  function Grid<J, K, V>(js: seq<J>, ks: seq<K>, cell: (J, nat) -> V): (r: Dict<J, Dict<K, V>>)
    ensures Keys(r) == js
  {
    seq(|js|, i requires 0 <= i < |js| => (js[i], GridRow(ks, cell, js[i])))
  }

  /** Column `t` of a full grid: every row key with its cell. */
  function GridColumn<J, V>(js: seq<J>, cell: (J, nat) -> V, t: nat): (r: Dict<J, V>)
    ensures Keys(r) == js
  {
    seq(|js|, i requires 0 <= i < |js| => (js[i], cell(js[i], t)))
  }

  lemma GridColumnSnoc<J, V>(js: seq<J>, cell: (J, nat) -> V, t: nat)
    requires |js| > 0
    ensures GridColumn(js[..|js| - 1], cell, t) + [(js[|js| - 1], cell(js[|js| - 1], t))] == GridColumn(js, cell, t)
  {
    var n := |js| - 1;
    var a, b := GridColumn(js[..n], cell, t) + [(js[n], cell(js[n], t))], GridColumn(js, cell, t);
    forall i | 0 <= i < |js| ensures a[i] == b[i] {
      if i < n {
        assert a[i] == GridColumn(js[..n], cell, t)[i];
      }
    }
  }

  /** A full grid, column by column. */
  function Transposed<J, K, V>(js: seq<J>, ks: seq<K>, cell: (J, nat) -> V): (r: Dict<K, Dict<J, V>>)
    ensures Keys(r) == ks
  {
    seq(|ks|, t requires 0 <= t < |ks| => (ks[t], GridColumn(js, cell, t)))
  }

  /** The pivot loop over one more cell of a row. */
  lemma PivotRowSnoc<J(!new), K(!new), V>(out: Dict<K, Dict<J, V>>, j: J, row: Dict<K, V>, m: nat)
    requires m < |row|
    ensures PivotRow(out, j, row[..m + 1]) == PivotCell(PivotRow(out, j, row[..m]), j, row[m].0, row[m].1)
  {
    assert row[..m + 1][..m] == row[..m];
  }

  /** A cell under a key not seen yet opens a new column after the others. */
  lemma PivotCellNew<J(!new), K(!new), V>(out: Dict<K, Dict<J, V>>, j: J, k: K, v: V)
    requires k !in Keys(out)
    ensures PivotCell(out, j, k, v) == out + [(k, [(j, v)])]
  {
    PutAppends(out, k, [(j, v)]);
  }

  /** A cell under the key of column `t`, for a row key not in that column, extends it. */
  lemma PivotCellExtends<J(!new), K(!new), V>(out: Dict<K, Dict<J, V>>, t: nat, j: J, v: V)
    requires t < |out| && (forall i :: 0 <= i < t ==> out[i].0 != out[t].0) && j !in Keys(out[t].1)
    ensures PivotCell(out, j, out[t].0, v) == out[t := (out[t].0, out[t].1 + [(j, v)])]
  {
    GetIndex(out, t);
    PutAppends(out[t].1, j, v);
    PutIndex(out, t, out[t].1 + [(j, v)]);
  }

  /** The columns that the first row `j` of a pivot opens: one per cell. */
  function Opened<J, K, V>(j: J, row: Dict<K, V>): (r: Dict<K, Dict<J, V>>)
    ensures Keys(r) == Keys(row)
  {
    seq(|row|, t requires 0 <= t < |row| => (row[t].0, [(j, row[t].1)]))
  }

  lemma OpenedSnoc<J, K, V>(j: J, row: Dict<K, V>)
    requires row != []
    ensures Opened(j, row[..|row| - 1]) + [(row[|row| - 1].0, [(j, row[|row| - 1].1)])] == Opened(j, row)
  {
  }

  /** The first row of a pivot opens one column per key, in order. */
  lemma {:induction false} PivotFirstRow<J(!new), K(!new), V>(j: J, row: Dict<K, V>)
    requires DistinctKeys(row)
    ensures PivotRow([], j, row) == Opened(j, row)
    decreases |row|
  {
    if row != [] {
      var n := |row| - 1;
      assert row[n].0 !in Keys(row[..n]) && DistinctKeys(row[..n]) by {
        assert Keys(row[..n]) == Keys(row)[..n];
      }
      PivotFirstRow(j, row[..n]);
      PivotCellNew(Opened(j, row[..n]), j, row[n].0, row[n].1);
      OpenedSnoc(j, row);
    }
  }

  /** The columns `out` after the first `m` cells of a row `j` that has a cell for each. */
  function Extended<J, K, V>(out: Dict<K, Dict<J, V>>, j: J, row: Dict<K, V>, m: nat): Dict<K, Dict<J, V>>
    requires |row| == |out|
  {
    seq(|out|, t requires 0 <= t < |out| => if t < m then (out[t].0, out[t].1 + [(j, row[t].1)]) else out[t])
  }

  /** Extending column `t` as well. */
  lemma ExtendedUpdate<J, K, V>(out: Dict<K, Dict<J, V>>, j: J, row: Dict<K, V>, t: nat)
    requires |row| == |out| && t < |out|
    ensures Extended(out, j, row, t)[t := (out[t].0, out[t].1 + [(j, row[t].1)])] == Extended(out, j, row, t + 1)
  {
    var before := Extended(out, j, row, t);
    var after := before[t := (out[t].0, out[t].1 + [(j, row[t].1)])];
    forall i | 0 <= i < |out| ensures after[i] == Extended(out, j, row, t + 1)[i] {
      if i != t {
        assert after[i] == before[i];
      }
    }
  }

  /** The cell of row `j` under the `t`-th key extends the `t`-th column. */
  lemma ExtendedStep<J(!new), K(!new), V>(out: Dict<K, Dict<J, V>>, j: J, row: Dict<K, V>, t: nat)
    requires Keys(row) == Keys(out) && DistinctKeys(out) && t < |row|
    requires j !in Keys(out[t].1)
    ensures PivotCell(Extended(out, j, row, t), j, row[t].0, row[t].1) == Extended(out, j, row, t + 1)
  {
    var before := Extended(out, j, row, t);
    assert before[t] == out[t];
    assert row[t].0 == Keys(out)[t] == out[t].0;
    forall i | 0 <= i < t ensures before[i].0 != before[t].0 {
      assert Keys(out)[i] != Keys(out)[t];
    }
    PivotCellExtends(before, t, j, row[t].1);
    ExtendedUpdate(out, j, row, t);
  }

  /** A further row, with a cell for each column in column order, extends every column. */
  lemma {:induction false} PivotNextRow<J(!new), K(!new), V>(out: Dict<K, Dict<J, V>>, j: J, row: Dict<K, V>, m: nat)
    requires Keys(row) == Keys(out) && DistinctKeys(out) && m <= |row|
    requires forall t :: 0 <= t < |out| ==> j !in Keys(out[t].1)
    ensures PivotRow(out, j, row[..m]) == Extended(out, j, row, m)
    decreases m
  {
    if m == 0 {
      assert row[..0] == [];
      forall i | 0 <= i < |out| ensures out[i] == Extended(out, j, row, 0)[i] {
      }
      assert out == Extended(out, j, row, 0);
    } else {
      PivotNextRow(out, j, row, m - 1);
      PivotRowSnoc(out, j, row, m - 1);
      ExtendedStep(out, j, row, m - 1);
    }
  }

  /** The pivot of rows `js` is the pivot of all but the last row, extended by the last. */
  lemma PivotSnoc<J(!new), K(!new), V>(js: seq<J>, ks: seq<K>, cell: (J, nat) -> V)
    requires |js| > 0
    ensures Pivot(Grid(js, ks, cell)) ==
      PivotRow(Pivot(Grid(js[..|js| - 1], ks, cell)), js[|js| - 1], GridRow(ks, cell, js[|js| - 1]))
  {
    assert Grid(js, ks, cell)[..|js| - 1] == Grid(js[..|js| - 1], ks, cell);
  }

  lemma PivotGridOne<J(!new), K(!new), V>(js: seq<J>, ks: seq<K>, cell: (J, nat) -> V)
    requires |js| == 1 && NoDuplicates(ks)
    ensures Pivot(Grid(js, ks, cell)) == Transposed(js, ks, cell)
  {
    var row := GridRow(ks, cell, js[0]);
    PivotSnoc(js, ks, cell);
    assert js[..0] == [];
    PivotFirstRow(js[0], row);
    forall t | 0 <= t < |ks| ensures Opened(js[0], row)[t] == Transposed(js, ks, cell)[t] {
      var column := GridColumn(js, cell, t);
      assert |column| == 1 && column[0] == (js[0], cell(js[0], t));
      assert column == [(js[0], cell(js[0], t))];
    }
    assert Opened(js[0], row) == Transposed(js, ks, cell);
  }

  /** Appending the cells of row `js[n]` to the columns of the rows before it. */
  lemma ExtendedTransposed<J, K, V>(js: seq<J>, ks: seq<K>, cell: (J, nat) -> V)
    requires |js| > 1
    ensures Extended(Transposed(js[..|js| - 1], ks, cell), js[|js| - 1], GridRow(ks, cell, js[|js| - 1]), |ks|)
      == Transposed(js, ks, cell)
  {
    var n := |js| - 1;
    var ext := Extended(Transposed(js[..n], ks, cell), js[n], GridRow(ks, cell, js[n]), |ks|);
    forall t | 0 <= t < |ks| ensures ext[t] == Transposed(js, ks, cell)[t] {
      GridColumnSnoc(js, cell, t);
    }
  }

  /** Row `js[n]` extends the columns of the rows before it. */
  lemma PivotLastRow<J(!new), K(!new), V>(js: seq<J>, ks: seq<K>, cell: (J, nat) -> V)
    requires |js| > 1 && NoDuplicates(js) && NoDuplicates(ks)
    ensures var n := |js| - 1; var out := Transposed(js[..n], ks, cell); var row := GridRow(ks, cell, js[n]);
      PivotRow(out, js[n], row) == Extended(out, js[n], row, |ks|)
  {
    var n := |js| - 1;
    var row := GridRow(ks, cell, js[n]);
    var out := Transposed(js[..n], ks, cell);
    assert js[n] !in js[..n];
    forall t | 0 <= t < |out| ensures js[n] !in Keys(out[t].1) {
      assert Keys(out[t].1) == js[..n];
    }
    assert row[..|ks|] == row;
    PivotNextRow(out, js[n], row, |ks|);
  }

  lemma PivotGridStep<J(!new), K(!new), V>(js: seq<J>, ks: seq<K>, cell: (J, nat) -> V)
    requires |js| > 1 && NoDuplicates(js) && NoDuplicates(ks)
    requires Pivot(Grid(js[..|js| - 1], ks, cell)) == Transposed(js[..|js| - 1], ks, cell)
    ensures Pivot(Grid(js, ks, cell)) == Transposed(js, ks, cell)
  {
    PivotSnoc(js, ks, cell);
    PivotLastRow(js, ks, cell);
    ExtendedTransposed(js, ks, cell);
  }

  /** Pivoting a full grid, given row by row, lists it column by column. */
  lemma {:induction false} PivotGrid<J(!new), K(!new), V>(js: seq<J>, ks: seq<K>, cell: (J, nat) -> V)
    requires |js| > 0 && NoDuplicates(js) && NoDuplicates(ks)
    ensures Pivot(Grid(js, ks, cell)) == Transposed(js, ks, cell)
    decreases |js|
  {
    if |js| == 1 {
      PivotGridOne(js, ks, cell);
    } else {
      PivotGrid(js[..|js| - 1], ks, cell);
      PivotGridStep(js, ks, cell);
    }
  }

  /** Storing twice under one key keeps the second value only. */
  lemma {:induction false} PutTwice<K(!new), V>(d: Dict<K, V>, k: K, a: V, b: V)
    ensures Put(Put(d, k, a), k, b) == Put(d, k, b)
  {
    if d != [] && d[0].0 != k {
      PutTwice(d[1..], k, a, b);
      PutSkips(d, k, a);
      PutSkips(Put(d, k, a), k, b);
      assert Put(d, k, a)[1..] == Put(d[1..], k, a);
    }
  }

  /** `d[o.0] = o.1` when there is a pair to store. */
  function PutSome<K(==,!new), V>(d: Dict<K, V>, o: Option<(K, V)>): Dict<K, V>
  {
    if o.Some? then Put(d, o.value.0, o.value.1) else d
  }

  /** The values of the entries that are present, in order. */
  function Present<T>(os: seq<Option<T>>): (r: seq<T>)
    ensures |r| <= |os|
  {
    if os == [] then []
    else
      var p := Present(os[..|os| - 1]);
      if os[|os| - 1].Some? then p + [os[|os| - 1].value] else p
  }

  /** Entries filed under distinct names `ks`, some of them absent: the names kept
      are distinct, and they are the names of the entries present. */
  lemma {:induction false} PresentKeys<K(!new), V>(os: seq<Option<(K, V)>>, ks: seq<K>)
    requires |os| == |ks| && NoDuplicates(ks)
    requires forall i :: 0 <= i < |os| && os[i].Some? ==> os[i].value.0 == ks[i]
    ensures DistinctKeys(Present(os))
    ensures forall k :: k in Keys(Present(os)) <==> exists i :: 0 <= i < |os| && os[i].Some? && ks[i] == k
    decreases |os|
  {
    if os != [] {
      var n := |os| - 1;
      var p := Present(os[..n]);
      PresentKeys(os[..n], ks[..n]);
      if os[n].Some? {
        var x := os[n].value;
        assert Keys(p + [x]) == Keys(p) + [ks[n]];
        assert ks[n] !in Keys(p);
        PutAppends(p, x.0, x.1);
        PutDistinct(p, x.0, x.1);
      }
    }
  }

  /** A loop whose every pass succeeds, storing what it finds under names it has
      not used, builds the list of the entries present. */
  lemma {:induction false} FoldSomeFresh<K(!new), V>(outcomes: seq<Result<Option<(K, V)>>>, os: seq<Option<(K, V)>>)
    requires |outcomes| == |os| && forall i :: 0 <= i < |os| ==> outcomes[i] == Ok(os[i])
    requires DistinctKeys(Present(os))
    ensures FoldResults(outcomes, [], PutSome) == Ok(Present(os))
    decreases |os|
  {
    if os != [] {
      var n := |os| - 1;
      var p := Present(os[..n]);
      if os[n].Some? {
        var x := os[n].value;
        var ks := Keys(p + [x]);
        assert Keys(p) == ks[..|p|];
        assert ks[|p|] == x.0;
        FoldSomeFresh(outcomes[..n], os[..n]);
        PutAppends(p, x.0, x.1);
      } else {
        FoldSomeFresh(outcomes[..n], os[..n]);
      }
    }
  }

  lemma {:induction false} PresentNone<T>(os: seq<Option<T>>)
    requires forall i :: 0 <= i < |os| ==> os[i].None?
    ensures Present(os) == []
    decreases |os|
  {
    if os != [] {
      PresentNone(os[..|os| - 1]);
    }
  }

  /** Every entry present. */
  function Somes<T>(xs: seq<T>): (r: seq<Option<T>>)
    ensures |r| == |xs|
    ensures forall i :: 0 <= i < |xs| ==> r[i] == Some(xs[i])
  {
    seq(|xs|, i requires 0 <= i < |xs| => Some(xs[i]))
  }

  lemma {:induction false} PresentSomes<T>(xs: seq<T>)
    ensures Present(Somes(xs)) == xs
    decreases |xs|
  {
    if xs != [] {
      var n := |xs| - 1;
      assert Somes(xs)[..n] == Somes(xs[..n]);
      PresentSomes(xs[..n]);
      assert xs[..n] + [xs[n]] == xs;
    }
  }
}
