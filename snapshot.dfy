/**
 * The data handed to the configuration template: every route of the map,
 * one record per domain, in ascending order of domain, so that equal maps
 * always render the same configuration.
 */
module Snapshot {
  import opened Order
  import opened Labels

  /** One record of the template data: `struct{ Domain, Container string }`. */
  datatype Route = Route(domain: string, container: string)

  /** The domains of the records, in order. */
  function DomainsOf(data: seq<Route>): seq<string> {
    seq(|data|, i requires 0 <= i < |data| => data[i].domain)
  }

  /**
   * `data` is a snapshot of `m`: strictly ascending by domain (so no domain
   * twice), each record carrying the domain's route in `m`, and every key of
   * `m` present.
   */
  ghost predicate IsSnapshot(m: Routes, data: seq<Route>) {
    && StrictlyAscending(DomainsOf(data))
    && (forall i :: 0 <= i < |data| ==> data[i].domain in m && data[i].container == m[data[i].domain])
    && (forall d :: d in m ==> exists i :: 0 <= i < |data| && data[i].domain == d)
  }

  lemma {:induction false} DistinctCounts(s: seq<string>, x: string)
    requires Distinct(s)
    ensures multiset(s)[x] <= 1
    decreases |s|
  {
    if s != [] {
      var n := |s| - 1;
      DistinctCounts(s[..n], x);
      assert s == s[..n] + [s[n]];
      if x == s[n] {
        forall i | 0 <= i < n
          ensures s[..n][i] != x
        {
          assert s[i] != s[n];
        }
        assert x !in s[..n];
      }
    }
  }

  lemma TwoCopies(t: seq<string>, i: nat, j: nat)
    requires i < j < |t| && t[i] == t[j]
    ensures multiset(t)[t[i]] >= 2
  {
    assert t == t[..j] + [t[j]] + t[j + 1..];
    assert t[..j][i] == t[i];
  }

  /** Rearranging a sequence without repetitions gives one without repetitions. */
  lemma PermutationDistinct(s: seq<string>, t: seq<string>)
    requires multiset(s) == multiset(t) && Distinct(s)
    ensures Distinct(t)
  {
    forall i, j | 0 <= i < j < |t|
      ensures t[i] != t[j]
    {
      DistinctCounts(s, t[i]);
      if t[i] == t[j] {
        TwoCopies(t, i, j);
      }
    }
  }

  /** The first loop of the snapshot step: the map's keys, in its arbitrary iteration order. */
  method CollectDomains(proxies: Routes) returns (domains: seq<string>)
    ensures Distinct(domains)
    ensures forall d :: d in domains <==> d in proxies
    ensures |domains| == |proxies|
  {
    domains := [];
    var rest := proxies.Keys;
    while rest != {}
      invariant rest <= proxies.Keys
      invariant forall d :: d in domains <==> d in proxies && d !in rest
      invariant Distinct(domains)
      invariant |domains| + |rest| == |proxies|
      decreases |rest|
    {
      var d :| d in rest;
      domains := domains + [d];
      rest := rest - {d};
    }
  }

  /** Sorting keys without repetitions makes them strictly ascending and keeps them all. */
  lemma SortDistinct(domains: seq<string>)
    requires Distinct(domains)
    ensures var sorted := SortStrings(domains);
      StrictlyAscending(sorted) && |sorted| == |domains| && forall d :: d in sorted <==> d in domains
  {
    var sorted := SortStrings(domains);
    SortStringsSorted(domains);
    PermutationDistinct(domains, sorted);
    SortedDistinctStrict(sorted);
    assert |sorted| == |multiset(sorted)|;
    forall d
      ensures d in sorted <==> d in domains
    {
      assert d in sorted <==> d in multiset(sorted);
    }
  }

  /** Pairing strictly ascending keys of a map with their routes gives its snapshot. */
  lemma PairedIsSnapshot(proxies: Routes, sorted: seq<string>, data: seq<Route>)
    requires StrictlyAscending(sorted) && forall d :: d in sorted <==> d in proxies
    requires |data| == |sorted|
    requires forall k :: 0 <= k < |data| ==> data[k].domain == sorted[k] && data[k].container == proxies[sorted[k]]
    ensures IsSnapshot(proxies, data)
  {
    assert DomainsOf(data) == sorted;
    forall d | d in proxies
      ensures exists k :: 0 <= k < |data| && data[k].domain == d
    {
      var k :| 0 <= k < |sorted| && sorted[k] == d;
      assert data[k].domain == d;
    }
  }

  /**
   * The snapshot step of setCaddyProxies: collect the keys, sort them with
   * `sort.Strings`, and pair each with its route.
   */
  method BuildSnapshot(proxies: Routes) returns (data: seq<Route>)
    ensures IsSnapshot(proxies, data)
    ensures |data| == |proxies|
    ensures data == SnapshotOf(proxies)
  {
    var domains := CollectDomains(proxies);
    var sorted := SortStrings(domains);
    SortDistinct(domains);

    data := [];
    var i := 0;
    while i < |sorted|
      invariant i <= |sorted|
      invariant |data| == i
      invariant forall k :: 0 <= k < i ==> data[k].domain == sorted[k] && data[k].container == proxies[sorted[k]]
    {
      data := data + [Route(sorted[i], proxies[sorted[i]])];
      i := i + 1;
    }
    PairedIsSnapshot(proxies, sorted, data);
    SnapshotOfIsSnapshot(proxies);
    SnapshotUnique(proxies, data, SnapshotOf(proxies));
  }

  /** The keys of a map in some order. */
  ghost function KeysOf(keys: set<string>): seq<string>
    decreases |keys|
  {
    if keys == {} then []
    else
      var d :| d in keys;
      KeysOf(keys - {d}) + [d]
  }

  /** `KeysOf` lists every key once and nothing else. */
  lemma {:induction false} KeysOfDistinct(keys: set<string>)
    ensures Distinct(KeysOf(keys)) && forall d :: d in KeysOf(keys) <==> d in keys
    decreases |keys|
  {
    if keys != {} {
      var d :| d in keys && KeysOf(keys) == KeysOf(keys - {d}) + [d];
      KeysOfDistinct(keys - {d});
    }
  }

  /** Each domain of `domains` paired with its route in `m`. */
  function Pair(m: Routes, domains: seq<string>): (data: seq<Route>)
    requires forall d :: d in domains ==> d in m
    ensures |data| == |domains|
    ensures forall k :: 0 <= k < |data| ==> data[k].domain == domains[k] && data[k].container == m[domains[k]]
    decreases |domains|
  {
    if domains == [] then []
    else Pair(m, domains[..|domains| - 1]) + [Route(domains[|domains| - 1], m[domains[|domains| - 1]])]
  }

  /** The snapshot of a map: its keys sorted, each paired with its route. */
  ghost function SnapshotOf(m: Routes): seq<Route> {
    var keys := KeysOf(m.Keys);
    KeysOfDistinct(m.Keys);
    SortDistinct(keys);
    Pair(m, SortStrings(keys))
  }

  lemma SnapshotOfIsSnapshot(m: Routes)
    ensures IsSnapshot(m, SnapshotOf(m))
  {
    var keys := KeysOf(m.Keys);
    KeysOfDistinct(m.Keys);
    SortDistinct(keys);
    PairedIsSnapshot(m, SortStrings(keys), SnapshotOf(m));
  }

  /** A map has exactly one snapshot: equal maps render identical data. */
  lemma SnapshotUnique(m: Routes, a: seq<Route>, b: seq<Route>)
    requires IsSnapshot(m, a) && IsSnapshot(m, b)
    ensures a == b
  {
    var da, db := DomainsOf(a), DomainsOf(b);
    forall x
      ensures x in da <==> x in db
    {
      if x in da {
        var i :| 0 <= i < |da| && da[i] == x;
        assert a[i].domain in m;
        var j :| 0 <= j < |b| && b[j].domain == x;
        assert db[j] == x;
      }
      if x in db {
        var j :| 0 <= j < |db| && db[j] == x;
        assert b[j].domain in m;
        var i :| 0 <= i < |a| && a[i].domain == x;
        assert da[i] == x;
      }
    }
    AscendingUnique(da, db);
    assert |a| == |b|;
    forall i | 0 <= i < |a|
      ensures a[i] == b[i]
    {
      assert da[i] == db[i];
    }
  }
}
