/**
 * The aggregations the query text asks the database for: GROUP BY with COUNT(*), with
 * COUNT(DISTINCT ...), and with AVG, then ORDER BY and LIMIT.
 */
module Aggregate {
  import opened Seqs
  import opened Ordering

  /** One output row of a counting query: the group's columns and its count. */
  datatype Bucket<K> = Bucket(key: K, count: nat)

  /** ORDER BY count DESC, ties in any order. */
  predicate NonIncreasing<K>(r: seq<Bucket<K>>) {
    forall i, j :: 0 <= i < j < |r| ==> r[i].count >= r[j].count
  }

  /** Each group appears in one row only. */
  predicate DistinctKeys<K(==)>(r: seq<Bucket<K>>) {
    forall i, j :: 0 <= i < j < |r| ==> r[i].key != r[j].key
  }

  /** GROUP BY key with COUNT(*): one bucket per distinct key, holding how often the key occurs. */
  function Tally<K(==)>(keys: seq<K>): (r: seq<Bucket<K>>)
    ensures |r| <= |keys|
    ensures DistinctKeys(r)
    ensures forall b :: b in r ==> b.key in keys && b.count == multiset(keys)[b.key]
    ensures forall k :: k in keys ==> Bucket(k, multiset(keys)[k]) in r
  {
    var d := Dedup(keys);
    var r := seq(|d|, i requires 0 <= i < |d| => Bucket(d[i], multiset(keys)[d[i]]));
    assert forall k :: k in keys ==> Bucket(k, multiset(keys)[k]) in r by {
      forall k | k in keys ensures Bucket(k, multiset(keys)[k]) in r {
        var i :| 0 <= i < |d| && d[i] == k;
        assert r[i] == Bucket(k, multiset(keys)[k]);
      }
    }
    r
  }

  /** The distinct values paired with key k. */
  function ValuesOf<K(==), V(==)>(pairs: seq<(K, V)>, k: K): set<V> {
    set p | p in pairs && p.0 == k :: p.1
  }

  function Firsts<K, V>(pairs: seq<(K, V)>): (r: seq<K>)
    ensures |r| == |pairs| && forall i :: 0 <= i < |r| ==> r[i] == pairs[i].0
  {
    seq(|pairs|, i requires 0 <= i < |pairs| => pairs[i].0)
  }

  /** GROUP BY key with COUNT(DISTINCT value): one bucket per key, holding how many different values it pairs with. */
  function DistinctTally<K(==), V(==)>(pairs: seq<(K, V)>): (r: seq<Bucket<K>>)
    ensures DistinctKeys(r)
    ensures forall b :: b in r ==> b.count == |ValuesOf(pairs, b.key)| && b.count >= 1
    ensures forall p :: p in pairs ==> Bucket(p.0, |ValuesOf(pairs, p.0)|) in r
  {
    var d := Dedup(Firsts(pairs));
    var r := seq(|d|, i requires 0 <= i < |d| => Bucket(d[i], |ValuesOf(pairs, d[i])|));
    assert forall b :: b in r ==> b.count >= 1 by {
      forall b | b in r ensures b.count >= 1 {
        var i :| 0 <= i < |r| && r[i] == b;
        var fs := Firsts(pairs);
        assert d[i] in fs;
        var j :| 0 <= j < |fs| && fs[j] == d[i];
        assert pairs[j] in pairs && pairs[j].0 == d[i];
        assert pairs[j].1 in ValuesOf(pairs, d[i]);
      }
    }
    assert forall p :: p in pairs ==> Bucket(p.0, |ValuesOf(pairs, p.0)|) in r by {
      forall p | p in pairs ensures Bucket(p.0, |ValuesOf(pairs, p.0)|) in r {
        var j :| 0 <= j < |pairs| && pairs[j] == p;
        assert Firsts(pairs)[j] == p.0;
        assert p.0 in Firsts(pairs);
        assert p.0 in d;
        var i :| 0 <= i < |d| && d[i] == p.0;
        assert r[i] == Bucket(p.0, |ValuesOf(pairs, p.0)|);
      }
    }
    r
  }

  predicate ByCountDesc<K>(a: Bucket<K>, b: Bucket<K>) { a.count >= b.count }

  /**
   * ORDER BY count DESC LIMIT limit: the limit largest buckets, largest first; a bucket left
   * out is counted no more than any bucket kept.
   */
  function Rank<K(==)>(bs: seq<Bucket<K>>, limit: nat): (r: seq<Bucket<K>>)
    ensures |r| == Min(limit, |bs|)
    ensures NonIncreasing(r)
    ensures forall b :: b in r ==> b in bs
    ensures Distinct(bs) ==> Distinct(r)
    ensures forall b, c :: b in bs && b !in r && c in r ==> c.count >= b.count
    ensures |bs| <= limit ==> forall b :: b in bs ==> b in r
  {
    var sorted := SortBy(bs, ByCountDesc);
    var r := Take(sorted, limit);
    assert |bs| <= limit ==> forall b :: b in bs ==> b in r by {
      if |bs| <= limit {
        assert |sorted| == |multiset(sorted)| == |multiset(bs)| == |bs|;
        assert r == sorted;
        forall b | b in bs ensures b in r { assert b in multiset(sorted); }
      }
    }
    assert forall b :: b in r ==> b in bs by {
      forall b | b in r ensures b in bs {
        assert b in multiset(sorted);
      }
    }
    assert Distinct(bs) ==> Distinct(sorted) by {
      if Distinct(bs) { DistinctPermutation(sorted, bs); }
    }
    assert forall b, c :: b in bs && b !in r && c in r ==> c.count >= b.count by {
      forall b, c | b in bs && b !in r && c in r ensures c.count >= b.count {
        assert b in multiset(sorted);
        var j :| 0 <= j < |sorted| && sorted[j] == b;
        var i :| 0 <= i < |r| && r[i] == c;
        assert j >= |r|;
        assert ByCountDesc(sorted[i], sorted[j]);
      }
    }
    r
  }

  /** Distinct buckets whose count is a function of their key have distinct keys. */
  lemma CountedByKey<K>(r: seq<Bucket<K>>, count: K -> nat)
    requires Distinct(r)
    requires forall b :: b in r ==> b.count == count(b.key)
    ensures DistinctKeys(r)
  {
    forall i, j | 0 <= i < j < |r| ensures r[i].key != r[j].key {
      assert r[i] in r && r[j] in r;
    }
  }

  /** GROUP BY key COUNT(*) ORDER BY count DESC LIMIT limit. */
  function RankedTally<K(==)>(keys: seq<K>, limit: nat): (r: seq<Bucket<K>>)
    ensures |r| <= limit && |r| <= |keys|
    ensures NonIncreasing(r)
    ensures DistinctKeys(r)
    ensures forall b :: b in r ==> b.key in keys && b.count == multiset(keys)[b.key] && b.count >= 1
    ensures forall k :: k in keys ==>
              Bucket(k, multiset(keys)[k]) in r
              || (|r| == limit && forall b :: b in r ==> b.count >= multiset(keys)[k])
  {
    var t := Tally(keys);
    var r := Rank(t, limit);
    CountedByKey(r, k => multiset(keys)[k]);
    assert forall k :: k in keys ==>
              Bucket(k, multiset(keys)[k]) in r
              || (|r| == limit && forall b :: b in r ==> b.count >= multiset(keys)[k]) by {
      forall k | k in keys
        ensures Bucket(k, multiset(keys)[k]) in r
                || (|r| == limit && forall b :: b in r ==> b.count >= multiset(keys)[k])
      {
        var kb := Bucket(k, multiset(keys)[k]);
        assert kb in t;
        if kb !in r {
          assert |r| == limit;
        }
      }
    }
    r
  }

  /** GROUP BY key COUNT(DISTINCT value) ORDER BY count DESC LIMIT limit. */
  function RankedDistinctTally<K(==), V(==)>(pairs: seq<(K, V)>, limit: nat): (r: seq<Bucket<K>>)
    ensures |r| <= limit
    ensures NonIncreasing(r)
    ensures DistinctKeys(r)
    ensures forall b :: b in r ==> b.count == |ValuesOf(pairs, b.key)| && b.count >= 1
    ensures forall p :: p in pairs ==>
              Bucket(p.0, |ValuesOf(pairs, p.0)|) in r
              || (|r| == limit && forall b :: b in r ==> b.count >= |ValuesOf(pairs, p.0)|)
  {
    var t := DistinctTally(pairs);
    var r := Rank(t, limit);
    assert forall b :: b in r ==> b.count == |ValuesOf(pairs, b.key)| && b.count >= 1 by {
      forall b | b in r ensures b.count == |ValuesOf(pairs, b.key)| && b.count >= 1 {
        assert b in t;
      }
    }
    CountedByKey(r, k => |ValuesOf(pairs, k)|);
    assert forall p :: p in pairs ==>
              Bucket(p.0, |ValuesOf(pairs, p.0)|) in r
              || (|r| == limit && forall b :: b in r ==> b.count >= |ValuesOf(pairs, p.0)|) by {
      forall p | p in pairs
        ensures Bucket(p.0, |ValuesOf(pairs, p.0)|) in r
                || (|r| == limit && forall b :: b in r ==> b.count >= |ValuesOf(pairs, p.0)|)
      {
        var pb := Bucket(p.0, |ValuesOf(pairs, p.0)|);
        assert pb in t;
        if pb !in r {
          assert |r| == limit;
        }
      }
    }
    r
  }

  /** The grouping columns of the trend query. */
  datatype TrendKey = TrendKey(scrapeDate: int, keyword: string)

  /** One row of the trend query; its avg_position is positionSum / samples, kept exact. */
  datatype TrendRow = TrendRow(scrapeDate: int, keyword: string, positionSum: int, samples: nat)

  function KeyOfRow(row: TrendRow): TrendKey {
    TrendKey(row.scrapeDate, row.keyword)
  }

  /** The positions observed in group k, in order. */
  function PositionsOf(samples: seq<(TrendKey, int)>, k: TrendKey): seq<int> {
    if samples == [] then []
    else (if samples[0].0 == k then [samples[0].1] else []) + PositionsOf(samples[1..], k)
  }

  /** A group that occurs has at least one observation, and every observation in it is one of the samples. */
  lemma {:induction false} PositionsOfGroup(samples: seq<(TrendKey, int)>, k: TrendKey)
    ensures k in Firsts(samples) ==> PositionsOf(samples, k) != []
    ensures forall p :: p in PositionsOf(samples, k) ==> (k, p) in samples
  {
    if samples != [] {
      PositionsOfGroup(samples[1..], k);
      assert samples == [samples[0]] + samples[1..];
      assert Firsts(samples) == [samples[0].0] + Firsts(samples[1..]);
    }
  }

  /** The row a group produces: AVG(position) as the exact pair (sum, count). */
  function GroupRow(samples: seq<(TrendKey, int)>, k: TrendKey): TrendRow {
    var ps := PositionsOf(samples, k);
    TrendRow(k.scrapeDate, k.keyword, Sum(ps), |ps|)
  }

  function AvgPosition(row: TrendRow): real
    requires row.samples > 0
  {
    row.positionSum as real / row.samples as real
  }

  /** ORDER BY scrape_date, keyword (both ascending). */
  predicate TrendLe(a: TrendRow, b: TrendRow) {
    a.scrapeDate < b.scrapeDate || (a.scrapeDate == b.scrapeDate && StrLe(a.keyword, b.keyword))
  }

  /** a comes strictly before b in the trend order. */
  predicate TrendBefore(a: TrendRow, b: TrendRow) {
    a.scrapeDate < b.scrapeDate
    || (a.scrapeDate == b.scrapeDate && StrLe(a.keyword, b.keyword) && a.keyword != b.keyword)
  }

  lemma TrendLeTotalPreorder(rows: seq<TrendRow>)
    ensures TotalPreorderOn(rows, TrendLe)
  {
    forall a, b | a in rows && b in rows ensures TrendLe(a, b) || TrendLe(b, a) {
      StrLeTotal(a.keyword, b.keyword);
    }
    forall a, b, c | a in rows && b in rows && c in rows && TrendLe(a, b) && TrendLe(b, c)
      ensures TrendLe(a, c)
    {
      if a.scrapeDate == b.scrapeDate == c.scrapeDate {
        StrLeTransitive(a.keyword, b.keyword, c.keyword);
      }
    }
  }

  /** One row per distinct group, before ordering. */
  function TrendGroups(samples: seq<(TrendKey, int)>): seq<TrendRow> {
    var d := Dedup(Firsts(samples));
    seq(|d|, i requires 0 <= i < |d| => GroupRow(samples, d[i]))
  }

  lemma TrendGroupsAreGroups(samples: seq<(TrendKey, int)>)
    ensures Distinct(TrendGroups(samples))
    ensures forall row :: row in TrendGroups(samples) ==>
              KeyOfRow(row) in Firsts(samples) && row == GroupRow(samples, KeyOfRow(row)) && row.samples >= 1
    ensures forall k :: k in Firsts(samples) ==> GroupRow(samples, k) in TrendGroups(samples)
  {
    var d := Dedup(Firsts(samples));
    var groups := TrendGroups(samples);
    forall i, j | 0 <= i < j < |groups| ensures groups[i] != groups[j] {
      assert KeyOfRow(groups[i]) == d[i] && KeyOfRow(groups[j]) == d[j];
    }
    forall row | row in groups
      ensures KeyOfRow(row) in Firsts(samples) && row == GroupRow(samples, KeyOfRow(row)) && row.samples >= 1
    {
      var i :| 0 <= i < |groups| && groups[i] == row;
      PositionsOfGroup(samples, d[i]);
    }
    forall k | k in Firsts(samples) ensures GroupRow(samples, k) in groups {
      var i :| 0 <= i < |d| && d[i] == k;
      assert groups[i] == GroupRow(samples, k);
    }
  }

  /** Sorting distinct rows of distinct groups in the trend order puts each strictly before the next. */
  lemma SortedGroupsAscend(samples: seq<(TrendKey, int)>, r: seq<TrendRow>)
    requires SortedBy(r, TrendLe)
    requires forall row :: row in r ==> row == GroupRow(samples, KeyOfRow(row))
    requires Distinct(r)
    ensures forall i, j :: 0 <= i < j < |r| ==> TrendBefore(r[i], r[j])
  {
    forall i, j | 0 <= i < j < |r| ensures TrendBefore(r[i], r[j]) {
      assert TrendLe(r[i], r[j]);
      assert r[i] in r && r[j] in r;
    }
  }

  /**
   * GROUP BY scrape_date, keyword with AVG(position), ORDER BY scrape_date, keyword:
   * one row per group that occurs, strictly ascending, each with its group's sum and size.
   */
  function TrendRows(samples: seq<(TrendKey, int)>): (r: seq<TrendRow>)
    ensures forall i, j :: 0 <= i < j < |r| ==> TrendBefore(r[i], r[j])
    ensures forall row :: row in r ==>
              KeyOfRow(row) in Firsts(samples) && row == GroupRow(samples, KeyOfRow(row)) && row.samples >= 1
    ensures forall k :: k in Firsts(samples) ==> GroupRow(samples, k) in r
  {
    var groups := TrendGroups(samples);
    TrendGroupsAreGroups(samples);
    TrendLeTotalPreorder(groups);
    var r := SortBy(groups, TrendLe);
    DistinctPermutation(r, groups);
    assert forall row :: row in r <==> row in groups by {
      forall row ensures row in r <==> row in groups {
        assert row in r <==> row in multiset(r);
        assert row in groups <==> row in multiset(groups);
      }
    }
    SortedGroupsAscend(samples, r);
    r
  }

  lemma AvgBetween(sum: int, n: int, lo: int, hi: int)
    requires n > 0 && n * lo <= sum <= n * hi
    ensures lo as real <= sum as real / n as real <= hi as real
  {
    var q := sum as real / n as real;
    assert q - lo as real == (sum as real - lo as real * n as real) / n as real;
    assert hi as real - q == (hi as real * n as real - sum as real) / n as real;
    assert (n * lo) as real == lo as real * n as real;
    assert (n * hi) as real == hi as real * n as real;
  }

  /** A group's average position lies between its smallest and its largest position. */
  lemma AvgWithinGroup(samples: seq<(TrendKey, int)>, k: TrendKey)
    requires k in Firsts(samples)
    ensures PositionsOf(samples, k) != []
    ensures GroupRow(samples, k).samples > 0
    ensures MinOf(PositionsOf(samples, k)) as real <= AvgPosition(GroupRow(samples, k))
                                            <= MaxOf(PositionsOf(samples, k)) as real
  {
    PositionsOfGroup(samples, k);
    var ps := PositionsOf(samples, k);
    SumBounds(ps, MinOf(ps), MaxOf(ps));
    AvgBetween(Sum(ps), |ps|, MinOf(ps), MaxOf(ps));
  }
}
