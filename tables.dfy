/** Relational building blocks shared by the pipeline.

    A pandas DataFrame is modelled as a sequence of records. A group-by-sum
    is the list of the distinct keys (in order of first occurrence) together
    with `SumWhere`, the sum of a column over the rows that carry one key. */
module Tables {

  datatype Option<T> = None | Some(value: T)

  /** The Python exceptions that the pipeline lets escape. */
  datatype Error =
    | KeyError(key: string)
    | IndexError
    | ValueError(message: string)
    | TypeError(message: string)
    | InvalidIndexError

  datatype Result<T> = Ok(value: T) | Err(error: Error)

  /** A float column cell: a number, or NaN. */
  datatype Float = Num(value: real) | NaN

  /** Sum of `f` over all rows of `s`. */
  function Sum<T>(s: seq<T>, f: T -> real): real
  {
    if s == [] then 0.0 else Sum(s[..|s| - 1], f) + f(s[|s| - 1])
  }

  /** Sum of `f` over the rows of `s` whose key is `k`: one cell of a group-by sum. */
  function SumWhere<T, K(==)>(s: seq<T>, key: T -> K, k: K, f: T -> real): real
  {
    if s == [] then 0.0
    else SumWhere(s[..|s| - 1], key, k, f) + (if key(s[|s| - 1]) == k then f(s[|s| - 1]) else 0.0)
  }

  /** The column `key` of the table `s`. */
  function Column<T, K>(s: seq<T>, key: T -> K): (r: seq<K>)
    ensures |r| == |s|
    ensures forall i :: 0 <= i < |s| ==> r[i] == key(s[i])
  {
    seq(|s|, i requires 0 <= i < |s| => key(s[i]))
  }

  /** The rows of `s` that satisfy `p`, in order. */
  function Filter<T(!new)>(s: seq<T>, p: T -> bool): (r: seq<T>)
    ensures |r| <= |s|
    ensures forall x :: x in r <==> x in s && p(x)
  {
    if s == [] then []
    else Filter(s[..|s| - 1], p) + (if p(s[|s| - 1]) then [s[|s| - 1]] else [])
  }

  lemma FilterSnoc<T(!new)>(s: seq<T>, x: T, p: T -> bool)
    ensures Filter(s + [x], p) == Filter(s, p) + (if p(x) then [x] else [])
  {
    assert (s + [x])[..|s|] == s;
  }

  predicate NoDuplicates<K(==)>(s: seq<K>)
  {
    forall i, j :: 0 <= i < j < |s| ==> s[i] != s[j]
  }

  /** The distinct values of `s` in order of first occurrence (the key list of a group-by). */
  function Distinct<K(==,!new)>(s: seq<K>): (r: seq<K>)
    ensures NoDuplicates(r)
    ensures forall x :: x in r <==> x in s
  {
    if s == [] then []
    else
      var d := Distinct(s[..|s| - 1]);
      assert forall x :: x in s <==> x in s[..|s| - 1] || x == s[|s| - 1];
      if s[|s| - 1] in d then d else d + [s[|s| - 1]]
  }

  /** Number of positions of `s` holding `x`. */
  function Count<K(==)>(s: seq<K>, x: K): nat
  {
    if s == [] then 0 else Count(s[..|s| - 1], x) + (if s[|s| - 1] == x then 1 else 0)
  }

  /** A key absent from the key column contributes an empty sum. */
  lemma {:induction false} SumWhereAbsent<T, K>(s: seq<T>, key: T -> K, k: K, f: T -> real)
    requires k !in Column(s, key)
    ensures SumWhere(s, key, k, f) == 0.0
  {
    if s != [] {
      var s' := s[..|s| - 1];
      assert Column(s, key)[|s| - 1] == key(s[|s| - 1]);
      assert forall i :: 0 <= i < |s'| ==> Column(s', key)[i] == Column(s, key)[i];
      SumWhereAbsent(s', key, k, f);
    }
  }

  /** Appending a row adds its value to its own group. */
  lemma SumWhereSnoc<T, K>(s: seq<T>, x: T, key: T -> K, k: K, f: T -> real)
    ensures SumWhere(s + [x], key, k, f) == SumWhere(s, key, k, f) + (if key(x) == k then f(x) else 0.0)
  {
    assert (s + [x])[..|s|] == s;
  }

  /** Splitting the rows by a predicate and its negation splits every group sum:
      the two subsets partition each group. */
  lemma {:induction false} SumWherePartition<T(!new), K>(
    s: seq<T>, p: T -> bool, q: T -> bool, key: T -> K, k: K, f: T -> real)
    requires forall x :: q(x) == !p(x)
    ensures SumWhere(Filter(s, p), key, k, f) + SumWhere(Filter(s, q), key, k, f) == SumWhere(s, key, k, f)
  {
    if s != [] {
      var s', x := s[..|s| - 1], s[|s| - 1];
      assert s == s' + [x];
      SumWherePartition(s', p, q, key, k, f);
      SumWhereSnoc(s', x, key, k, f);
      var fp, fq := Filter(s', p), Filter(s', q);
      var c := if key(x) == k then f(x) else 0.0;
      FilterSnoc(s', x, p);
      FilterSnoc(s', x, q);
      if p(x) {
        assert Filter(s, p) == fp + [x] && Filter(s, q) == fq;
        SumWhereSnoc(fp, x, key, k, f);
        assert SumWhere(Filter(s, p), key, k, f) == SumWhere(fp, key, k, f) + c;
      } else {
        assert !p(x) && q(x);
        assert Filter(s, q) == fq + [x] && Filter(s, p) == fp;
        SumWhereSnoc(fq, x, key, k, f);
        assert SumWhere(Filter(s, q), key, k, f) == SumWhere(fq, key, k, f) + c;
      }
    }
  }

  /** The sum over the fine groups `js` that refine the coarse group `k`. */
  function SumOfGroups<T, J(==), K(==)>(
    js: seq<J>, s: seq<T>, fine: T -> J, proj: J -> K, k: K, f: T -> real): real
  {
    if js == [] then 0.0
    else
      SumOfGroups(js[..|js| - 1], s, fine, proj, k, f)
      + (if proj(js[|js| - 1]) == k then SumWhere(s, fine, js[|js| - 1], f) else 0.0)
  }

  /** Adding one row to the table adds its value to the one listed fine group it belongs to. */
  lemma {:induction false} SumOfGroupsSnoc<T, J, K>(
    js: seq<J>, s: seq<T>, x: T, fine: T -> J, proj: J -> K, k: K, f: T -> real)
    requires NoDuplicates(js)
    ensures SumOfGroups(js, s + [x], fine, proj, k, f)
         == SumOfGroups(js, s, fine, proj, k, f)
            + (if fine(x) in js && proj(fine(x)) == k then f(x) else 0.0)
  {
    assert (s + [x])[..|s|] == s;
    if js != [] {
      var js' := js[..|js| - 1];
      assert NoDuplicates(js');
      SumOfGroupsSnoc(js', s, x, fine, proj, k, f);
      assert fine(x) in js <==> fine(x) in js' || fine(x) == js[|js| - 1];
      assert fine(x) == js[|js| - 1] ==> fine(x) !in js';
    }
  }

  lemma DistinctSnoc<K(!new)>(c: seq<K>, y: K)
    ensures Distinct(c + [y]) == if y in Distinct(c) then Distinct(c) else Distinct(c) + [y]
  {
    assert (c + [y])[..|c|] == c;
  }

  lemma ColumnSnoc<T, K>(s: seq<T>, x: T, key: T -> K)
    ensures Column(s + [x], key) == Column(s, key) + [key(x)]
  {
  }

  /** Summing the fine groups (e.g. per country and port) that refine a coarse group
      (e.g. per country) gives the coarse group's sum: a group-by total is
      conserved when it is computed in two stages. */
  lemma {:induction false} SumOfGroupsRefines<T, J(!new), K>(
    s: seq<T>, fine: T -> J, coarse: T -> K, proj: J -> K, k: K, f: T -> real)
    requires forall x :: coarse(x) == proj(fine(x))
    ensures SumOfGroups(Distinct(Column(s, fine)), s, fine, proj, k, f) == SumWhere(s, coarse, k, f)
  {
    if s != [] {
      var s', x := s[..|s| - 1], s[|s| - 1];
      assert s == s' + [x];
      SumOfGroupsRefines(s', fine, coarse, proj, k, f);
      var d := Distinct(Column(s', fine));
      ColumnSnoc(s', x, fine);
      DistinctSnoc(Column(s', fine), fine(x));
      SumOfGroupsSnoc(d, s', x, fine, proj, k, f);
      SumWhereSnoc(s', x, coarse, k, f);
      if fine(x) !in d {
        SumOfGroupsNewGroup(d, s', x, fine, proj, k, f);
      }
    }
  }

  /** A row opening a new fine group adds that group, holding only its value. */
  lemma SumOfGroupsNewGroup<T, J, K>(js: seq<J>, s: seq<T>, x: T, fine: T -> J, proj: J -> K, k: K, f: T -> real)
    requires fine(x) !in Column(s, fine)
    ensures SumOfGroups(js + [fine(x)], s + [x], fine, proj, k, f)
         == SumOfGroups(js, s + [x], fine, proj, k, f) + (if proj(fine(x)) == k then f(x) else 0.0)
  {
    assert (js + [fine(x)])[..|js|] == js;
    SumWhereAbsent(s, fine, fine(x), f);
    SumWhereSnoc(s, x, fine, fine(x), f);
  }

  /** A value lies in a column exactly when some row projects to it. */
  lemma ColumnMembers<T, K>(s: seq<T>, key: T -> K, y: K)
    ensures y in Column(s, key) <==> exists x :: x in s && y == key(x)
  {
    if y in Column(s, key) {
      var i :| 0 <= i < |s| && Column(s, key)[i] == y;
      assert s[i] in s;
    }
  }

  lemma ColumnAppend<T, K>(a: seq<T>, b: seq<T>, key: T -> K)
    ensures Column(a + b, key) == Column(a, key) + Column(b, key)
  {
  }

  function Fst<A, B>(p: (A, B)): A { p.0 }

  /** `x` paired with each row of `right` whose key equals its own, in the order of `right`. */
  function Matches<A, B, K(==)>(x: A, right: seq<B>, lkey: A -> K, rkey: B -> K): seq<(A, B)>
  {
    if right == [] then []
    else
      Matches(x, right[..|right| - 1], lkey, rkey)
      + (if rkey(right[|right| - 1]) == lkey(x) then [(x, right[|right| - 1])] else [])
  }

  /** `left.merge(right, on=...)`, an inner join: every pair of rows with equal keys,
      grouped by left row in the order of `left`. */
  function Join<A, B, K(==)>(left: seq<A>, right: seq<B>, lkey: A -> K, rkey: B -> K): seq<(A, B)>
  {
    if left == [] then []
    else Join(left[..|left| - 1], right, lkey, rkey) + Matches(left[|left| - 1], right, lkey, rkey)
  }

  lemma {:induction false} MatchesMembers<A, B, K>(x: A, right: seq<B>, lkey: A -> K, rkey: B -> K, p: (A, B))
    ensures p in Matches(x, right, lkey, rkey) <==> p.0 == x && p.1 in right && rkey(p.1) == lkey(x)
  {
    if right != [] {
      var rs, y := right[..|right| - 1], right[|right| - 1];
      MatchesMembers(x, rs, lkey, rkey, p);
      assert p.1 in right <==> p.1 in rs || p.1 == y;
    }
  }

  /** The joined pairs are exactly the pairs of rows with equal keys. */
  lemma {:induction false} JoinMembers<A, B, K>(left: seq<A>, right: seq<B>, lkey: A -> K, rkey: B -> K, p: (A, B))
    ensures p in Join(left, right, lkey, rkey) <==> p.0 in left && p.1 in right && lkey(p.0) == rkey(p.1)
  {
    if left != [] {
      var ls, x := left[..|left| - 1], left[|left| - 1];
      JoinMembers(ls, right, lkey, rkey, p);
      MatchesMembers(x, right, lkey, rkey, p);
      assert p.0 in left <==> p.0 in ls || p.0 == x;
    }
  }

  lemma {:induction false} JoinAppend<A, B, K>(a: seq<A>, b: seq<A>, right: seq<B>, lkey: A -> K, rkey: B -> K)
    ensures Join(a + b, right, lkey, rkey) == Join(a, right, lkey, rkey) + Join(b, right, lkey, rkey)
  {
    if b != [] {
      var b', x := b[..|b| - 1], b[|b| - 1];
      assert (a + b)[..|a + b| - 1] == a + b';
      JoinAppend(a, b', right, lkey, rkey);
    } else {
      assert a + b == a;
    }
  }

  /** The left rows whose key occurs among the keys of `right`. */
  function HasKeyIn<A, B, K(==)>(right: seq<B>, rkey: B -> K, lkey: A -> K): A -> bool
  {
    x => lkey(x) in Column(right, rkey)
  }

  lemma {:induction false} MatchesNone<A, B, K>(x: A, right: seq<B>, lkey: A -> K, rkey: B -> K)
    requires lkey(x) !in Column(right, rkey)
    ensures Matches(x, right, lkey, rkey) == []
  {
    if right != [] {
      var rs := right[..|right| - 1];
      assert Column(right, rkey) == Column(rs, rkey) + [rkey(right[|right| - 1])];
      MatchesNone(x, rs, lkey, rkey);
    }
  }

  /** Left rows without a partner contribute nothing to an inner join: dropping them first
      changes nothing. */
  lemma {:induction false} JoinDropsUnmatched<A(!new), B, K>(left: seq<A>, right: seq<B>, lkey: A -> K, rkey: B -> K)
    ensures Join(left, right, lkey, rkey) == Join(Filter(left, HasKeyIn(right, rkey, lkey)), right, lkey, rkey)
  {
    if left != [] {
      var ls, x := left[..|left| - 1], left[|left| - 1];
      var p := HasKeyIn(right, rkey, lkey);
      JoinDropsUnmatched(ls, right, lkey, rkey);
      var f := Filter(ls, p);
      if !p(x) {
        assert Filter(left, p) == f;
        MatchesNone(x, right, lkey, rkey);
      } else {
        assert Filter(left, p) == f + [x];
        assert (f + [x])[..|f|] == f;
      }
    }
  }

  lemma {:induction false} MatchesUnique<A, B, K>(x: A, right: seq<B>, lkey: A -> K, rkey: B -> K)
    requires NoDuplicates(Column(right, rkey))
    ensures Column(Matches(x, right, lkey, rkey), Fst) == if lkey(x) in Column(right, rkey) then [x] else []
  {
    if right != [] {
      var rs, y := right[..|right| - 1], right[|right| - 1];
      assert Column(right, rkey) == Column(rs, rkey) + [rkey(y)];
      assert NoDuplicates(Column(rs, rkey));
      MatchesUnique(x, rs, lkey, rkey);
      if rkey(y) == lkey(x) {
        forall i | 0 <= i < |rs| ensures Column(rs, rkey)[i] != lkey(x) {
          assert Column(right, rkey)[i] != Column(right, rkey)[|rs|];
        }
        ColumnSnoc(Matches(x, rs, lkey, rkey), (x, y), Fst);
      }
    }
  }

  /** Joining with a table whose keys are unique keeps exactly the left rows that have a
      partner, each once and in order. */
  lemma {:induction false} JoinUniqueRight<A(!new), B, K>(left: seq<A>, right: seq<B>, lkey: A -> K, rkey: B -> K)
    requires NoDuplicates(Column(right, rkey))
    ensures Column(Join(left, right, lkey, rkey), Fst) == Filter(left, HasKeyIn(right, rkey, lkey))
  {
    if left != [] {
      var ls, x := left[..|left| - 1], left[|left| - 1];
      JoinUniqueRight(ls, right, lkey, rkey);
      MatchesUnique(x, right, lkey, rkey);
      ColumnAppend(Join(ls, right, lkey, rkey), Matches(x, right, lkey, rkey), Fst);
    }
  }

  /** A filter every row passes keeps the table as it is. */
  lemma {:induction false} FilterAll<T(!new)>(s: seq<T>, p: T -> bool)
    requires forall x :: x in s ==> p(x)
    ensures Filter(s, p) == s
  {
    if s != [] {
      var s', x := s[..|s| - 1], s[|s| - 1];
      assert s == s' + [x];
      forall y | y in s'
        ensures p(y)
      {
        assert y in s;
      }
      FilterAll(s', p);
      assert p(x);
    }
  }

  /** A group sum over a projected table is the group sum over the original rows,
      with key and value read through the projection. */
  lemma {:induction false} SumWhereColumn<T, U, K>(
    s: seq<T>, g: T -> U, key: U -> K, f: U -> real, key': T -> K, f': T -> real, k: K)
    requires forall x :: key'(x) == key(g(x)) && f'(x) == f(g(x))
    ensures SumWhere(Column(s, g), key, k, f) == SumWhere(s, key', k, f')
  {
    if s != [] {
      var s' := s[..|s| - 1];
      SumWhereColumn(s', g, key, f, key', f', k);
      assert Column(s, g) == Column(s', g) + [g(s[|s| - 1])];
      SumWhereSnoc(Column(s', g), g(s[|s| - 1]), key, k, f);
    }
  }

  /** A table holding one row per fine group, carrying the group's coarse key and its
      sum, adds up per coarse key like `SumOfGroups`. */
  lemma {:induction false} SumOfGroupsTable<T, J, K, R>(
    js: seq<J>, s: seq<T>, fine: T -> J, proj: J -> K, k: K, f: T -> real,
    table: seq<R>, rkey: R -> K, rval: R -> real)
    requires |table| == |js|
    requires forall i :: 0 <= i < |js| ==> rkey(table[i]) == proj(js[i]) && rval(table[i]) == SumWhere(s, fine, js[i], f)
    ensures SumWhere(table, rkey, k, rval) == SumOfGroups(js, s, fine, proj, k, f)
  {
    if js != [] {
      SumOfGroupsTable(js[..|js| - 1], s, fine, proj, k, f, table[..|table| - 1], rkey, rval);
    }
  }

  /** A group that occurs, over strictly positive values, has a strictly positive sum. */
  lemma {:induction false} SumWherePositive<T, K>(s: seq<T>, key: T -> K, k: K, f: T -> real)
    requires k in Column(s, key)
    requires forall x :: x in s ==> f(x) > 0.0
    ensures SumWhere(s, key, k, f) > 0.0
  {
    var s', x := s[..|s| - 1], s[|s| - 1];
    assert Column(s, key) == Column(s', key) + [key(x)];
    assert forall y :: y in s' ==> y in s;
    if k in Column(s', key) {
      SumWherePositive(s', key, k, f);
    } else {
      SumWhereNonNegative(s', key, k, f);
    }
  }

  lemma {:induction false} SumWhereNonNegative<T, K>(s: seq<T>, key: T -> K, k: K, f: T -> real)
    requires forall x :: x in s ==> f(x) >= 0.0
    ensures SumWhere(s, key, k, f) >= 0.0
  {
    if s != [] {
      assert forall y :: y in s[..|s| - 1] ==> y in s;
      SumWhereNonNegative(s[..|s| - 1], key, k, f);
    }
  }

  /** When every left row has exactly one partner, the join keeps the left table as it is. */
  lemma JoinKeepsAll<A(!new), B, K>(left: seq<A>, right: seq<B>, lkey: A -> K, rkey: B -> K)
    requires NoDuplicates(Column(right, rkey))
    requires forall x :: x in left ==> lkey(x) in Column(right, rkey)
    ensures Column(Join(left, right, lkey, rkey), Fst) == left
  {
    JoinUniqueRight(left, right, lkey, rkey);
    FilterAll(left, HasKeyIn(right, rkey, lkey));
  }

  /** The distinct values listed once each: as many as the set of values. */
  lemma {:induction false} DistinctCount<K(!new)>(s: seq<K>)
    ensures |Distinct(s)| == |set x | x in s|
  {
    if s != [] {
      var s', y := s[..|s| - 1], s[|s| - 1];
      DistinctCount(s');
      assert (set x | x in s) == (set x | x in s') + {y} by {
        assert forall x :: x in s <==> x in s' || x == y;
      }
      if y !in Distinct(s') {
        assert y !in (set x | x in s');
      } else {
        assert y in (set x | x in s');
      }
    }
  }

  /** Applying `step` to each successful value in turn, stopping at the first error:
      a loop whose body may raise. */
  function FoldResults<S, D>(outcomes: seq<Result<S>>, init: D, step: (D, S) -> D): Result<D>
  {
    if outcomes == [] then Ok(init)
    else match FoldResults(outcomes[..|outcomes| - 1], init, step)
      case Err(e) => Err(e)
      case Ok(d) =>
        match outcomes[|outcomes| - 1]
        case Err(e) => Err(e)
        case Ok(x) => Ok(step(d, x))
  }

  /** One more successful pass. */
  lemma FoldResultsStep<S, D>(outcomes: seq<Result<S>>, init: D, step: (D, S) -> D, k: nat, d: D, x: S)
    requires k < |outcomes| && FoldResults(outcomes[..k], init, step) == Ok(d) && outcomes[k] == Ok(x)
    ensures FoldResults(outcomes[..k + 1], init, step) == Ok(step(d, x))
  {
    assert outcomes[..k + 1][..k] == outcomes[..k];
  }

  /** A failed pass is the outcome of the whole loop. */
  lemma {:induction false} FoldResultsFails<S, D>(outcomes: seq<Result<S>>, init: D, step: (D, S) -> D, k: nat, e: Error)
    requires k < |outcomes| && FoldResults(outcomes[..k], init, step).Ok? && outcomes[k] == Err(e)
    ensures FoldResults(outcomes, init, step) == Err(e)
    decreases |outcomes|
  {
    if k + 1 < |outcomes| {
      var n := |outcomes| - 1;
      assert outcomes[..n][..k] == outcomes[..k];
      FoldResultsFails(outcomes[..n], init, step, k, e);
    } else {
      assert outcomes[..k] == outcomes[..|outcomes| - 1];
    }
  }

  /** A loop that completes had no failing pass. */
  lemma {:induction false} FoldResultsAllOk<S, D>(outcomes: seq<Result<S>>, init: D, step: (D, S) -> D)
    requires FoldResults(outcomes, init, step).Ok?
    ensures forall i :: 0 <= i < |outcomes| ==> outcomes[i].Ok?
    decreases |outcomes|
  {
    if outcomes != [] {
      var n := |outcomes| - 1;
      FoldResultsAllOk(outcomes[..n], init, step);
      assert forall i :: 0 <= i < n ==> outcomes[..n][i] == outcomes[i];
    }
  }

  /** A loop whose last pass fails fails; with its error when every earlier pass succeeded. */
  lemma {:induction false} FoldLastFails<S, D>(outcomes: seq<Result<S>>, init: D, step: (D, S) -> D)
    requires |outcomes| > 0 && outcomes[|outcomes| - 1].Err?
    ensures FoldResults(outcomes, init, step).Err?
    ensures (forall k :: 0 <= k < |outcomes| - 1 ==> outcomes[k].Ok?) ==>
      FoldResults(outcomes, init, step) == Err(outcomes[|outcomes| - 1].error)
  {
    var n := |outcomes| - 1;
    if forall k :: 0 <= k < n ==> outcomes[k].Ok? {
      assert forall k :: 0 <= k < n ==> outcomes[..n][k] == outcomes[k];
      FoldAllOk(outcomes[..n], init, step);
    }
  }

  /** A loop whose every pass succeeds completes. */
  lemma {:induction false} FoldAllOk<S, D>(outcomes: seq<Result<S>>, init: D, step: (D, S) -> D)
    requires forall k :: 0 <= k < |outcomes| ==> outcomes[k].Ok?
    ensures FoldResults(outcomes, init, step).Ok?
    decreases |outcomes|
  {
    if outcomes != [] {
      var n := |outcomes| - 1;
      assert forall k :: 0 <= k < n ==> outcomes[..n][k] == outcomes[k];
      FoldAllOk(outcomes[..n], init, step);
    }
  }

  /** `xs.append(x)`, as the body of a loop that builds a list. */
  function Append<T>(xs: seq<T>, x: T): seq<T>
  {
    xs + [x]
  }

  /** A loop whose every pass succeeds lists the values of its passes, in order. */
  lemma {:induction false} FoldAppendAll<T>(outcomes: seq<Result<T>>, xs: seq<T>)
    requires |outcomes| == |xs| && forall i :: 0 <= i < |xs| ==> outcomes[i] == Ok(xs[i])
    ensures FoldResults(outcomes, [], Append) == Ok(xs)
    decreases |xs|
  {
    if xs != [] {
      var n := |xs| - 1;
      FoldAppendAll(outcomes[..n], xs[..n]);
      assert xs[..n] + [xs[n]] == xs;
    }
  }

  /** Two left rows with a common partner appear in the join in their left order,
      at the positions `a` < `b`. */
  lemma {:induction false} JoinKeepsOrder<A, B, K>(
    left: seq<A>, right: seq<B>, lkey: A -> K, rkey: B -> K, i: nat, j: nat, y: B)
    returns (a: nat, b: nat)
    requires i < j < |left| && y in right && lkey(left[i]) == rkey(y) && lkey(left[j]) == rkey(y)
    ensures a < b < |Join(left, right, lkey, rkey)|
    ensures Join(left, right, lkey, rkey)[a] == (left[i], y) && Join(left, right, lkey, rkey)[b] == (left[j], y)
    decreases |left|
  {
    var n := |left| - 1;
    var ls := left[..n];
    var pre, last := Join(ls, right, lkey, rkey), Matches(left[n], right, lkey, rkey);
    assert Join(left, right, lkey, rkey) == pre + last;
    if j < n {
      a, b := JoinKeepsOrder(ls, right, lkey, rkey, i, j, y);
      assert (pre + last)[a] == pre[a] && (pre + last)[b] == pre[b];
    } else {
      assert ls[i] == left[i];
      JoinMembers(ls, right, lkey, rkey, (left[i], y));
      a :| a < |pre| && pre[a] == (left[i], y);
      MatchesMembers(left[n], right, lkey, rkey, (left[j], y));
      var c: nat :| c < |last| && last[c] == (left[j], y);
      b := |pre| + c;
      assert (pre + last)[a] == pre[a] && (pre + last)[b] == last[c];
    }
  }
}
