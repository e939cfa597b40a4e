/** Where the report reads its percentiles: the first counter at which the running total
    reaches a rank. */
module Percentile {
  import opened Counting
  import opened LatencyIndex
  import opened RecordedCounts

  /** The first position at which the counts up to and including it add up to rank. */
  function FirstReaching(counts: seq<nat>, rank: nat): (p: nat)
    requires 1 <= rank <= Total(counts)
    ensures p < |counts| && Total(counts[..p]) < rank <= Total(counts[..p + 1])
  {
    var last := |counts| - 1;
    if Total(counts[..last]) < rank then
      assert counts[..last + 1] == counts;
      last
    else
      var p := FirstReaching(counts[..last], rank);
      assert counts[..last][..p] == counts[..p] && counts[..last][..p + 1] == counts[..p + 1];
      p
  }

  function LandsBelow(p: nat): int -> nat {
    v => if CountsIndex(v) < p then 1 else 0
  }

  /** The running total before position p counts the values that land before p. */
  lemma {:induction false} RunningTotal(values: seq<int>, p: nat)
    requires p <= COUNTS_LENGTH
    ensures Total(CountsOf(values)[..p]) == Sum(LandsBelow(p), values)
  {
    var counts := CountsOf(values);
    if p == 0 {
      SumZero(LandsBelow(0), values);
    } else {
      RunningTotal(values, p - 1);
      assert counts[..p][..p - 1] == counts[..p - 1];
      SumSplit(LandsBelow(p), LandsBelow(p - 1), Lands(p - 1), values);
    }
  }

  predicate Sorted(s: seq<int>) {
    forall j, k :: 0 <= j < k < |s| ==> s[j] <= s[k]
  }

  function ClampAll(values: seq<int>): (r: seq<int>)
    ensures |r| == |values|
  {
    seq(|values|, k requires 0 <= k < |values| => Clamp(values[k]))
  }

  lemma ClampKeepsCounts(values: seq<int>)
    ensures CountsOf(ClampAll(values)) == CountsOf(values)
  {
    forall i | 0 <= i < COUNTS_LENGTH ensures Hits(ClampAll(values), i) == Hits(values, i) {
      SameWeights(Lands(i), ClampAll(values), values);
    }
  }

  lemma {:induction false} SameWeights(weight: int -> nat, s: seq<int>, t: seq<int>)
    requires |s| == |t| && forall k :: 0 <= k < |s| ==> weight(s[k]) == weight(t[k])
    ensures Sum(weight, s) == Sum(weight, t)
  {
    if s != [] {
      SameWeights(weight, s[..|s| - 1], t[..|t| - 1]);
    }
  }

  lemma SortedBuckets(sorted: seq<int>, rank: nat, k: nat)
    requires Sorted(sorted) && 1 <= rank <= |sorted| && k < |sorted|
    ensures k < rank ==> CountsIndex(sorted[k]) <= CountsIndex(sorted[rank - 1])
    ensures k >= rank - 1 ==> CountsIndex(sorted[k]) >= CountsIndex(sorted[rank - 1])
  {
    if k < rank - 1 {
      CountsIndexMonotone(sorted[k], sorted[rank - 1]);
    } else if k > rank - 1 {
      CountsIndexMonotone(sorted[rank - 1], sorted[k]);
    }
  }

  /** In sorted order, fewer than rank values land before the bucket of the value with that
      rank, and at least rank land before the next bucket. */
  lemma RankInBucket(sorted: seq<int>, rank: nat)
    requires Sorted(sorted) && 1 <= rank <= |sorted|
    ensures Sum(LandsBelow(CountsIndex(sorted[rank - 1])), sorted) < rank
    ensures Sum(LandsBelow(CountsIndex(sorted[rank - 1]) + 1), sorted) >= rank
  {
    hide CountsIndex;
    var i := CountsIndex(sorted[rank - 1]);
    forall k | 0 <= k < |sorted|
      ensures k >= rank - 1 ==> LandsBelow(i)(sorted[k]) == 0
      ensures k < rank ==> LandsBelow(i + 1)(sorted[k]) == 1
    {
      SortedBuckets(sorted, rank, k);
    }
    SumFewInHead(LandsBelow(i), sorted, rank - 1);
    SumManyInHead(LandsBelow(i + 1), sorted, rank);
  }

  lemma {:induction false} RunningTotalMonotone(counts: seq<nat>, p: nat, q: nat)
    requires p <= q <= |counts|
    ensures Total(counts[..p]) <= Total(counts[..q])
  {
    assert counts[..q] == counts[..p] + counts[p..q];
    SumConcat(Count, counts[..p], counts[p..q]);
  }

  /** However the latencies were spread over shards and in whatever order they were recorded,
      the position read from the merged counters for a rank is the bucket of the latency with
      that rank, in sorted order, after clamping. */
  lemma PercentileIsBucketOfRank(shards: seq<seq<int>>, sorted: seq<int>, rank: nat)
    requires Sorted(sorted) && multiset(sorted) == multiset(ClampAll(Flatten(shards)))
    requires 1 <= rank <= |sorted|
    ensures rank <= Total(RecordEach(ZEROES, Flatten(shards)))
    ensures FirstReaching(RecordEach(ZEROES, Flatten(shards)), rank) == CountsIndex(sorted[rank - 1])
  {
    MergedCountsOfSorted(Flatten(shards), sorted);
    CountsConserved(sorted);
    FirstReachingRank(sorted, rank, CountsIndex(sorted[rank - 1]));
  }

  lemma MergedCountsOfSorted(values: seq<int>, sorted: seq<int>)
    requires multiset(sorted) == multiset(ClampAll(values))
    ensures RecordEach(ZEROES, values) == CountsOf(sorted)
  {
    RecordEachIntoEmpty(values);
    ClampKeepsCounts(values);
    CountsIgnoreOrder(sorted, ClampAll(values));
  }

  lemma FirstReachingRank(sorted: seq<int>, rank: nat, i: nat)
    requires Sorted(sorted) && 1 <= rank <= |sorted| && rank <= Total(CountsOf(sorted))
    requires i == CountsIndex(sorted[rank - 1])
    ensures FirstReaching(CountsOf(sorted), rank) == i
  {
    RankInBucket(sorted, rank);
    RunningTotal(sorted, i);
    RunningTotal(sorted, i + 1);
    var p := FirstReaching(CountsOf(sorted), rank);
    if p < i {
      RunningTotalMonotone(CountsOf(sorted), p + 1, i);
    } else if p > i {
      RunningTotalMonotone(CountsOf(sorted), i + 1, p);
    }
  }
}
