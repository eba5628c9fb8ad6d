/** `df.groupby(key, as_index=False).agg(trips=("trips", "sum"))`: one output
    row per distinct key, in ascending key order, holding the summed trips. */
module Grouping {
  import opened Orders
  import opened Seqs

  datatype Group<K> = Group(key: K, trips: int)

  function GroupTrips<K>(g: Group<K>): int {
    g.trips
  }

  function GroupByTrips<T(!new), K(!new,==)>(s: seq<T>, keyOf: T -> K, trips: T -> int, lt: (K, K) -> bool): (r: seq<Group<K>>)
    requires StrictTotalOrder(lt)
    ensures forall i, j :: 0 <= i < j < |r| ==> lt(r[i].key, r[j].key)
    ensures GroupKeys(r) == KeySet(s, keyOf)
    ensures forall i :: 0 <= i < |r| ==> r[i].trips == SumIntWhere(s, keyOf, r[i].key, trips)
  {
    var keys := SortedKeys(s, keyOf, lt);
    var r := seq(|keys|, i requires 0 <= i < |keys| => Group(keys[i], SumIntWhere(s, keyOf, keys[i], trips)));
    GroupKeysCover(r, keys, KeySet(s, keyOf));
    r
  }

  /** The keys labelling the rows of a grouped table. */
  ghost function GroupKeys<K>(r: seq<Group<K>>): set<K> {
    set g | g in r :: g.key
  }

  lemma GroupKeysCover<K>(r: seq<Group<K>>, keys: seq<K>, expected: set<K>)
    requires |r| == |keys|
    requires forall i :: 0 <= i < |r| ==> r[i].key == keys[i]
    requires forall k :: k in keys <==> k in expected
    ensures GroupKeys(r) == expected
  {
    forall k | k in expected ensures k in GroupKeys(r) {
      var i :| 0 <= i < |keys| && keys[i] == k;
      assert r[i] in r;
    }
  }

  lemma {:induction false} GroupsSumOverKeys<T(!new), K(!new)>(r: seq<Group<K>>, keys: seq<K>, s: seq<T>, keyOf: T -> K, trips: T -> int)
    requires |r| == |keys|
    requires forall i :: 0 <= i < |r| ==> r[i] == Group(keys[i], SumIntWhere(s, keyOf, keys[i], trips))
    ensures SumInt(r, GroupTrips) == SumOverKeys(keys, s, keyOf, trips)
  {
    if r != [] {
      var m := |r| - 1;
      GroupsSumOverKeys(r[..m], keys[..m], s, keyOf, trips);
    }
  }

  /** Grouping conserves the total: the group sums add up to the column sum. */
  lemma GroupByTripsConserves<T(!new), K(!new)>(s: seq<T>, keyOf: T -> K, trips: T -> int, lt: (K, K) -> bool)
    requires StrictTotalOrder(lt)
    ensures SumInt(GroupByTrips(s, keyOf, trips, lt), GroupTrips) == SumInt(s, trips)
  {
    var keys := SortedKeys(s, keyOf, lt);
    var r := GroupByTrips(s, keyOf, trips, lt);
    SortedIsDistinct(keys, lt);
    GroupsSumOverKeys(r, keys, s, keyOf, trips);
    SumOverKeysConserves(keys, s, keyOf, trips);
  }
}
