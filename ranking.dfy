/** The zone ranking: `groupby(["borough", "zone"]).agg(...)`,
    `.sort_values("trips", ascending=False)` and `.head(20)`. pandas' default
    sort is not stable, so the contracts below say nothing about the order of
    zones with equal trip counts; the model sorts with an insertion sort that
    happens to keep their grouped order. */
module Ranking {

  /** One ranked zone: its borough and zone names with the summed trips and revenue. */
  datatype ZoneRank = ZoneRank(borough: string, zone: string, trips: int, revenue: real)

  function ZoneOf(g: ZoneRank): (string, string) {
    (g.borough, g.zone)
  }

  /** How many zones the ranking table shows. */
  const TOP_N: nat := 20

  ghost predicate ByTripsDescending(s: seq<ZoneRank>) {
    forall i, j :: 0 <= i < j < |s| ==> s[i].trips >= s[j].trips
  }

  /** No (borough, zone) appears twice. */
  ghost predicate DistinctZones(s: seq<ZoneRank>) {
    forall i, j :: 0 <= i < j < |s| ==> ZoneOf(s[i]) != ZoneOf(s[j])
  }

  /** Puts `x` into a list already in descending trip order, after every
      entry with at least as many trips. */
  function InsertByTrips(s: seq<ZoneRank>, x: ZoneRank): (r: seq<ZoneRank>)
    requires ByTripsDescending(s)
    ensures ByTripsDescending(r)
    ensures multiset(r) == multiset(s) + multiset{x}
    ensures forall y :: y in r ==> y in s || y == x
  {
    if s == [] then [x]
    else if s[0].trips < x.trips then [x] + s
    else
      var rest := InsertByTrips(s[1..], x);
      assert s == [s[0]] + s[1..];
      assert forall k :: 0 <= k < |rest| ==> rest[k] in s[1..] || rest[k] == x;
      [s[0]] + rest
  }

  /** `sort_values("trips", ascending=False)`: the same groups, most trips first. */
  function SortByTrips(s: seq<ZoneRank>): (r: seq<ZoneRank>)
    ensures ByTripsDescending(r)
    ensures multiset(r) == multiset(s)
    ensures |r| == |s|
  {
    if s == [] then []
    else
      var n := |s| - 1;
      assert s == s[..n] + [s[n]];
      var r := InsertByTrips(SortByTrips(s[..n]), s[n]);
      assert |r| == |multiset(r)| == |multiset(s)| == |s|;
      r
  }

  /** `.head(20)` of the sorted groups: the (at most) twenty zones with the
      most trips, most first; a zone left out has no more trips than any zone
      shown, and none has more than the first. */
  function TopZones(groups: seq<ZoneRank>): (top: seq<ZoneRank>)
    ensures |top| == if |groups| < TOP_N then |groups| else TOP_N
    ensures ByTripsDescending(top)
    ensures multiset(top) <= multiset(groups)
    ensures forall g :: g in groups && g !in top ==> forall x :: x in top ==> g.trips <= x.trips
    ensures forall i :: 0 <= i < |top| ==> top[i].trips <= top[0].trips
  {
    var sorted := SortByTrips(groups);
    var m := if |sorted| < TOP_N then |sorted| else TOP_N;
    TopIsPrefixOfSorted(groups, sorted, m);
    sorted[..m]
  }

  lemma TopIsPrefixOfSorted(groups: seq<ZoneRank>, sorted: seq<ZoneRank>, m: nat)
    requires ByTripsDescending(sorted)
    requires multiset(sorted) == multiset(groups)
    requires m <= |sorted|
    ensures ByTripsDescending(sorted[..m])
    ensures multiset(sorted[..m]) <= multiset(groups)
    ensures forall g :: g in groups && g !in sorted[..m] ==> forall x :: x in sorted[..m] ==> g.trips <= x.trips
  {
    assert sorted == sorted[..m] + sorted[m..];
    forall g, x | g in groups && g !in sorted[..m] && x in sorted[..m] ensures g.trips <= x.trips {
      assert g in multiset(sorted);
      var j :| 0 <= j < |sorted| && sorted[j] == g;
      var i :| 0 <= i < m && sorted[..m][i] == x;
    }
  }

  lemma {:induction false} InsertKeepsZonesDistinct(s: seq<ZoneRank>, x: ZoneRank)
    requires ByTripsDescending(s)
    requires DistinctZones(s)
    requires forall y :: y in s ==> ZoneOf(y) != ZoneOf(x)
    ensures DistinctZones(InsertByTrips(s, x))
  {
    if s != [] && s[0].trips >= x.trips {
      InsertKeepsZonesDistinct(s[1..], x);
      var rest := InsertByTrips(s[1..], x);
      forall k | 0 <= k < |rest| ensures ZoneOf(rest[k]) != ZoneOf(s[0]) {
        assert rest[k] in s[1..] || rest[k] == x;
      }
    }
  }

  /** Sorting neither merges nor duplicates zones. */
  lemma {:induction false} SortKeepsZonesDistinct(s: seq<ZoneRank>)
    requires DistinctZones(s)
    ensures DistinctZones(SortByTrips(s))
  {
    if s != [] {
      var n := |s| - 1;
      SortKeepsZonesDistinct(s[..n]);
      var sorted := SortByTrips(s[..n]);
      forall y | y in sorted ensures ZoneOf(y) != ZoneOf(s[n]) {
        assert y in multiset(s[..n]);
      }
      InsertKeepsZonesDistinct(sorted, s[n]);
    }
  }

  /** The ranking has at most one row per (borough, zone) when its input does. */
  lemma TopZonesDistinct(groups: seq<ZoneRank>)
    requires DistinctZones(groups)
    ensures DistinctZones(TopZones(groups))
  {
    SortKeepsZonesDistinct(groups);
  }
}
