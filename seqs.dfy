/** Whole-table operations on sequences of rows: a boolean-mask selection
    (`df.loc[mask]`), column sums (`df[col].sum()`), per-key sums and the
    ascending list of distinct keys that a `groupby` produces. */
module Seqs {
  import opened Orders

  /** Positions, in ascending order, of the elements of `s` that satisfy `p`. */
  ghost function Positions<T(!new)>(s: seq<T>, p: T -> bool): (idx: seq<nat>)
    ensures forall k :: 0 <= k < |idx| ==> idx[k] < |s|
    ensures forall j, k :: 0 <= j < k < |idx| ==> idx[j] < idx[k]
    ensures forall i :: 0 <= i < |s| ==> (i in idx <==> p(s[i]))
  {
    if s == [] then []
    else
      var n := |s| - 1;
      Positions(s[..n], p) + (if p(s[n]) then [n] else [])
  }

  /** `r` lists, in their original order, exactly the elements of `s` at the
      positions where `p` holds. */
  ghost predicate SelectsInOrder<T(!new)>(r: seq<T>, s: seq<T>, p: T -> bool) {
    var idx := Positions(s, p);
    |r| == |idx| && forall k :: 0 <= k < |r| ==> r[k] == s[idx[k]]
  }

  /** The rows of `s` where the mask `p` is true, in their original order. */
  function Filter<T(!new)>(s: seq<T>, p: T -> bool): (r: seq<T>)
    ensures forall x :: x in r <==> x in s && p(x)
  {
    if s == [] then []
    else
      var n := |s| - 1;
      Filter(s[..n], p) + (if p(s[n]) then [s[n]] else [])
  }

  /** The selection keeps the rows at exactly the positions where the mask
      holds, in order, and nothing else. */
  lemma {:induction false} FilterSelectsInOrder<T(!new)>(s: seq<T>, p: T -> bool)
    ensures SelectsInOrder(Filter(s, p), s, p)
  {
    if s != [] {
      var n := |s| - 1;
      FilterSelectsInOrder(s[..n], p);
    }
  }

  /** Applying two masks one after the other keeps what their conjunction keeps. */
  lemma {:induction false} FilterTwice<T(!new)>(s: seq<T>, p: T -> bool, q: T -> bool, pq: T -> bool)
    requires forall x :: pq(x) == (p(x) && q(x))
    ensures Filter(Filter(s, p), q) == Filter(s, pq)
  {
    if s != [] {
      var n := |s| - 1;
      FilterTwice(s[..n], p, q, pq);
      var fp := Filter(s[..n], p);
      if p(s[n]) {
        assert Filter(s, p) == fp + [s[n]];
        assert (fp + [s[n]])[..|fp|] == fp;
      } else {
        assert Filter(s, p) == fp;
      }
    }
  }

  /** A mask that holds on every row keeps the whole table. */
  lemma {:induction false} FilterKeepsAll<T(!new)>(s: seq<T>, p: T -> bool)
    requires forall i :: 0 <= i < |s| ==> p(s[i])
    ensures Filter(s, p) == s
  {
    if s != [] {
      var n := |s| - 1;
      FilterKeepsAll(s[..n], p);
      assert p(s[n]);
      assert Filter(s, p) == s[..n] + [s[n]];
      assert s[..n] + [s[n]] == s;
    }
  }

  /** `df[col].sum()` for an integer column (0 on an empty table). */
  function SumInt<T(!new)>(s: seq<T>, f: T -> int): (total: int)
    ensures (forall i :: 0 <= i < |s| ==> f(s[i]) >= 0) ==> total >= 0
  {
    if s == [] then 0 else SumInt(s[..|s| - 1], f) + f(s[|s| - 1])
  }

  /** `df[col].sum()` for a float column, with amounts as exact reals. */
  function SumReal<T(!new)>(s: seq<T>, f: T -> real): (total: real)
    ensures (forall i :: 0 <= i < |s| ==> f(s[i]) >= 0.0) ==> total >= 0.0
  {
    if s == [] then 0.0 else SumReal(s[..|s| - 1], f) + f(s[|s| - 1])
  }

  lemma {:induction false} SumIntAppend<T(!new)>(a: seq<T>, b: seq<T>, f: T -> int)
    ensures SumInt(a + b, f) == SumInt(a, f) + SumInt(b, f)
  {
    if b == [] {
      assert a + b == a;
    } else {
      var n := |b| - 1;
      assert (a + b)[..|a + b| - 1] == a + b[..n];
      SumIntAppend(a, b[..n], f);
    }
  }

  /** Two tables whose rows correspond one to one with equal values have equal sums. */
  lemma {:induction false} SumIntPointwise<T(!new), U(!new)>(s: seq<T>, f: T -> int, t: seq<U>, g: U -> int)
    requires |s| == |t|
    requires forall i :: 0 <= i < |s| ==> f(s[i]) == g(t[i])
    ensures SumInt(s, f) == SumInt(t, g)
  {
    if s != [] {
      SumIntPointwise(s[..|s| - 1], f, t[..|t| - 1], g);
    }
  }

  /** With non-negative values, a mask that keeps fewer rows gives a smaller sum. */
  lemma {:induction false} FilterSumMonotone<T(!new)>(s: seq<T>, p: T -> bool, q: T -> bool, f: T -> int)
    requires forall x :: p(x) ==> q(x)
    requires forall i :: 0 <= i < |s| ==> f(s[i]) >= 0
    ensures SumInt(Filter(s, p), f) <= SumInt(Filter(s, q), f)
  {
    if s != [] {
      var n := |s| - 1;
      FilterSumMonotone(s[..n], p, q, f);
      SumIntAppend(Filter(s[..n], p), if p(s[n]) then [s[n]] else [], f);
      SumIntAppend(Filter(s[..n], q), if q(s[n]) then [s[n]] else [], f);
      assert SumInt([s[n]], f) == f(s[n]) by {
        assert [s[n]][..0] == [];
      }
    }
  }

  /** Sum of `f` over the rows whose key is `k`: one cell of a `groupby(...).sum()`.
      A key no row carries sums to 0, and with non-negative values a cell
      lies between 0 and the column total. */
  function SumIntWhere<T(!new), K(!new,==)>(s: seq<T>, keyOf: T -> K, k: K, f: T -> int): (cell: int)
    ensures (forall i :: 0 <= i < |s| ==> keyOf(s[i]) != k) ==> cell == 0
    ensures (forall i :: 0 <= i < |s| ==> f(s[i]) >= 0) ==> 0 <= cell <= SumInt(s, f)
  {
    if s == [] then 0
    else
      var n := |s| - 1;
      SumIntWhere(s[..n], keyOf, k, f) + (if keyOf(s[n]) == k then f(s[n]) else 0)
  }

  function SumRealWhere<T(!new), K(!new,==)>(s: seq<T>, keyOf: T -> K, k: K, f: T -> real): (cell: real)
    ensures (forall i :: 0 <= i < |s| ==> keyOf(s[i]) != k) ==> cell == 0.0
    ensures (forall i :: 0 <= i < |s| ==> f(s[i]) >= 0.0) ==> 0.0 <= cell <= SumReal(s, f)
  {
    if s == [] then 0.0
    else
      var n := |s| - 1;
      SumRealWhere(s[..n], keyOf, k, f) + (if keyOf(s[n]) == k then f(s[n]) else 0.0)
  }

  /** A per-key sum is the column sum over the rows that the key selects. */
  lemma {:induction false} SumIntWhereIsFilteredSum<T(!new), K(!new)>(s: seq<T>, keyOf: T -> K, k: K, f: T -> int)
    ensures SumIntWhere(s, keyOf, k, f) == SumInt(Filter(s, x => keyOf(x) == k), f)
  {
    if s != [] {
      var n := |s| - 1;
      SumIntWhereIsFilteredSum(s[..n], keyOf, k, f);
      var rest := Filter(s[..n], x => keyOf(x) == k);
      if keyOf(s[n]) == k {
        SumIntAppend(rest, [s[n]], f);
        assert [s[n]][..0] == [];
      } else {
        assert rest + [] == rest;
      }
    }
  }

  /** The set of keys that occur among the rows of `s`. */
  ghost function KeySet<T, K>(s: seq<T>, keyOf: T -> K): set<K> {
    if s == [] then {} else KeySet(s[..|s| - 1], keyOf) + {keyOf(s[|s| - 1])}
  }

  lemma {:induction false} KeySetMembers<T, K>(s: seq<T>, keyOf: T -> K, k: K)
    ensures k in KeySet(s, keyOf) <==> exists j :: 0 <= j < |s| && keyOf(s[j]) == k
  {
    if s != [] {
      var n := |s| - 1;
      KeySetMembers(s[..n], keyOf, k);
      if k in KeySet(s[..n], keyOf) {
        var j :| 0 <= j < n && keyOf(s[..n][j]) == k;
        assert keyOf(s[j]) == k;
      }
    }
  }

  /** The per-key sums of `keys`, added up. */
  function SumOverKeys<T(!new), K(!new,==)>(keys: seq<K>, s: seq<T>, keyOf: T -> K, f: T -> int): int {
    if keys == [] then 0
    else
      var m := |keys| - 1;
      SumOverKeys(keys[..m], s, keyOf, f) + SumIntWhere(s, keyOf, keys[m], f)
  }

  ghost predicate Distinct<K>(keys: seq<K>) {
    forall i, j :: 0 <= i < j < |keys| ==> keys[i] != keys[j]
  }

  lemma {:induction false} SumOverKeysSnoc<T(!new), K(!new)>(keys: seq<K>, s: seq<T>, x: T, keyOf: T -> K, f: T -> int)
    requires Distinct(keys)
    ensures SumOverKeys(keys, s + [x], keyOf, f)
         == SumOverKeys(keys, s, keyOf, f) + (if keyOf(x) in keys then f(x) else 0)
  {
    if keys != [] {
      var m := |keys| - 1;
      assert (s + [x])[..|s|] == s;
      SumOverKeysSnoc(keys[..m], s, x, keyOf, f);
      assert keyOf(x) in keys <==> keyOf(x) in keys[..m] || keyOf(x) == keys[m] by {
        assert keys == keys[..m] + [keys[m]];
      }
    }
  }

  /** Grouping conserves totals: summing the per-key sums over a list of
      distinct keys that covers every row's key gives the column total. */
  lemma {:induction false} SumOverKeysConserves<T(!new), K(!new)>(keys: seq<K>, s: seq<T>, keyOf: T -> K, f: T -> int)
    requires Distinct(keys)
    requires forall k :: k in KeySet(s, keyOf) ==> k in keys
    ensures SumOverKeys(keys, s, keyOf, f) == SumInt(s, f)
  {
    if s == [] {
      EmptySumOverKeys(keys, keyOf, f);
    } else {
      var n := |s| - 1;
      SumOverKeysConserves(keys, s[..n], keyOf, f);
      SumOverKeysSnoc(keys, s[..n], s[n], keyOf, f);
      assert s[..n] + [s[n]] == s;
    }
  }

  lemma {:induction false} EmptySumOverKeys<T(!new), K(!new)>(keys: seq<K>, keyOf: T -> K, f: T -> int)
    ensures SumOverKeys(keys, [], keyOf, f) == 0
  {
    if keys != [] {
      EmptySumOverKeys(keys[..|keys| - 1], keyOf, f);
    }
  }

  /** Keys listed in strictly ascending `lt` order (hence without repetition). */
  ghost predicate StrictlySorted<K>(keys: seq<K>, lt: (K, K) -> bool) {
    forall i, j :: 0 <= i < j < |keys| ==> lt(keys[i], keys[j])
  }

  lemma SortedIsDistinct<K(!new)>(keys: seq<K>, lt: (K, K) -> bool)
    requires StrictTotalOrder(lt)
    requires StrictlySorted(keys, lt)
    ensures Distinct(keys)
  {
  }

  /** Adds `k` to an ascending list of distinct keys. */
  function InsertKey<K(!new,==)>(keys: seq<K>, k: K, lt: (K, K) -> bool): (r: seq<K>)
    requires StrictTotalOrder(lt)
    requires StrictlySorted(keys, lt)
    ensures StrictlySorted(r, lt)
    ensures forall x :: x in r <==> x in keys || x == k
  {
    if keys == [] then [k]
    else if k == keys[0] then keys
    else if lt(k, keys[0]) then [k] + keys
    else
      var rest := InsertKey(keys[1..], k, lt);
      assert forall x :: x in rest ==> lt(keys[0], x) by {
        forall x | x in rest ensures lt(keys[0], x) {
          if x != k {
            var i :| 1 <= i < |keys| && keys[i] == x;
          }
        }
      }
      [keys[0]] + rest
  }

  /** The distinct keys of the rows of `s`, ascending: the group labels of a
      sorted `groupby`. */
  function SortedKeys<T(!new), K(!new,==)>(s: seq<T>, keyOf: T -> K, lt: (K, K) -> bool): (keys: seq<K>)
    requires StrictTotalOrder(lt)
    ensures StrictlySorted(keys, lt)
    ensures forall k :: k in keys <==> k in KeySet(s, keyOf)
  {
    if s == [] then []
    else
      var n := |s| - 1;
      InsertKey(SortedKeys(s[..n], keyOf, lt), keyOf(s[n]), lt)
  }
}
