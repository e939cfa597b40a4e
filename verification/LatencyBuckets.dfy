/** The two counter implementations and the histogram they are merged into. */
module LatencyBuckets {
  import opened Counting
  import opened LatencyIndex
  import opened RecordedCounts

  /** The library histogram: an array of counts indexed by LayoutIndex, and their total. */
  class Histogram {
    const counts: array<nat>
    var totalCount: nat

    ghost predicate Valid()
      reads this, counts
    {
      counts.Length == COUNTS_LENGTH && totalCount == Total(counts[..])
    }

    constructor ()
      ensures Valid() && fresh(counts)
      ensures counts[..] == ZEROES && totalCount == 0
    {
      counts := new nat[COUNTS_LENGTH](_ => 0);
      totalCount := 0;
      new;
      assert counts[..] == ZEROES;
      SumZero(Count, ZEROES);
    }

    /** The library's contract: n more at the position of the value, or an error and no change
        when there is no such position. */
    method RecordValues(value: nat, n: nat) returns (ok: bool)
      requires Valid()
      modifies this, counts
      ensures Valid()
      ensures ok <==> 0 <= LayoutIndex(value) < COUNTS_LENGTH
      ensures !ok ==> counts[..] == old(counts[..]) && totalCount == old(totalCount)
      ensures ok ==> counts[..] == old(counts[..])[LayoutIndex(value) := old(counts[LayoutIndex(value)]) + n]
      ensures ok ==> totalCount == old(totalCount) + n
    {
      var i := LayoutIndex(value);
      ok := 0 <= i < COUNTS_LENGTH;
      if ok {
        SumUpdate<nat>(Count, counts[..], i, counts[i] + n);
        counts[i] := counts[i] + n;
        totalCount := totalCount + n;
        assert counts[..] == old(counts[..])[i := old(counts[i]) + n];
      }
    }
  }

  /** After every position has been merged, the counts are those of recording each value. */
  lemma MergedEverything(before: seq<nat>, after: seq<nat>, recorded: seq<int>)
    requires |before| == |after| == COUNTS_LENGTH
    requires forall i :: 0 <= i < COUNTS_LENGTH ==> after[i] == before[i] + CountsOf(recorded)[i]
    ensures after == RecordEach(before, recorded)
    ensures Total(after) == Total(before) + |recorded|
  {
    forall i | 0 <= i < COUNTS_LENGTH ensures after[i] == RecordEach(before, recorded)[i] {
      RecordEachAddsHits(before, recorded, i);
    }
    RecordEachTotal(before, recorded);
  }

  /** One dense array of counters. */
  class DenseBuckets {
    const counts: array<nat>
    ghost var recorded: seq<int>

    ghost predicate Valid()
      reads this, counts
    {
      counts.Length == COUNTS_LENGTH && counts[..] == CountsOf(recorded)
    }

    constructor ()
      ensures Valid() && fresh(counts) && recorded == []
    {
      counts := new nat[COUNTS_LENGTH](_ => 0);
      recorded := [];
      new;
      assert counts[..] == CountsOf([]);
    }

    method Record(microseconds: int)
      requires Valid()
      modifies this, counts
      ensures Valid() && recorded == old(recorded) + [microseconds]
    {
      var i := CountsIndex(microseconds);
      CountsOfAppend(recorded, microseconds);
      counts[i] := counts[i] + 1;
      recorded := recorded + [microseconds];
      assert counts[..] == old(counts[..])[i := old(counts[i]) + 1];
    }

    /** Merging into a histogram is the same as recording every value in it directly. */
    method AddTo(histogram: Histogram)
      requires Valid() && histogram.Valid() && histogram.counts != counts
      modifies histogram, histogram.counts
      ensures Valid() && histogram.Valid()
      ensures histogram.counts[..] == RecordEach(old(histogram.counts[..]), recorded)
      ensures histogram.totalCount == old(histogram.totalCount) + |recorded|
    {
      for i := 0 to COUNTS_LENGTH
        invariant Valid() && histogram.Valid()
        invariant forall k :: 0 <= k < i ==> histogram.counts[k] == old(histogram.counts[k]) + counts[k]
        invariant forall k :: i <= k < COUNTS_LENGTH ==> histogram.counts[k] == old(histogram.counts[k])
      {
        var count := counts[i];
        if count == 0 {
          continue;
        }
        LayoutRoundTrip(i);
        var _ := histogram.RecordValues(ValueForIndex(i), count);
      }
      MergedEverything(old(histogram.counts[..]), histogram.counts[..], recorded);
    }
  }

  /** A fixed number of dense arrays shared by all clients. */
  class BucketSet {
    const buckets: seq<DenseBuckets>

    ghost predicate Valid()
      reads this, buckets, set b | b in buckets :: b.counts
    {
      && 64 <= |buckets| <= 256
      && (forall b :: b in buckets ==> b.Valid())
      && forall j, k :: 0 <= j < k < |buckets| ==> buckets[j] != buckets[k] && buckets[j].counts != buckets[k].counts
    }

    /** What each shard has recorded so far. */
    ghost function Shards(): (r: seq<seq<int>>)
      reads this, buckets
      ensures |r| == |buckets|
    {
      seq(|buckets|, k requires 0 <= k < |buckets| reads this, buckets => buckets[k].recorded)
    }

    constructor (processors: nat)
      ensures Valid() && fresh(buckets) && fresh(set b | b in buckets :: b.counts)
      ensures |buckets| in {64, 128, 256}
      ensures |buckets| >= 4 * processors || |buckets| == 256
      ensures |buckets| > 64 ==> |buckets| < 8 * processors
      ensures forall k :: 0 <= k < |buckets| ==> Shards()[k] == []
    {
      var size := 64;
      while size < 4 * processors && size < 256
        invariant size in {64, 128, 256}
        invariant size > 64 ==> size < 8 * processors
        decreases 256 - size
      {
        size := size * 2;
      }
      var made: seq<DenseBuckets> := [];
      while |made| < size
        invariant |made| <= size
        invariant fresh(made) && forall b :: b in made ==> fresh(b.counts) && b.Valid() && b.recorded == []
        invariant forall j, k :: 0 <= j < k < |made| ==> made[j] != made[k] && made[j].counts != made[k].counts
      {
        var b := new DenseBuckets();
        made := made + [b];
      }
      buckets := made;
    }

    /** The shard a client records into. */
    function ForClient(clientNumber: nat): DenseBuckets
      requires |buckets| > 0
    {
      buckets[clientNumber % |buckets|]
    }

    /** A client's record goes to its own shard and leaves every other shard alone. */
    method RecordFor(clientNumber: nat, microseconds: int)
      requires Valid()
      modifies ForClient(clientNumber), ForClient(clientNumber).counts
      ensures Valid()
      ensures Shards() == var s := clientNumber % |buckets|;
                          old(Shards())[s := old(Shards())[s] + [microseconds]]
    {
      ForClient(clientNumber).Record(microseconds);
    }

    method AddTo(histogram: Histogram)
      requires Valid() && histogram.Valid()
      requires forall b :: b in buckets ==> b.counts != histogram.counts
      modifies histogram, histogram.counts
      ensures Valid() && histogram.Valid()
      ensures Shards() == old(Shards())
      ensures histogram.counts[..] == RecordEach(old(histogram.counts[..]), Flatten(Shards()))
      ensures histogram.totalCount == old(histogram.totalCount) + |Flatten(Shards())|
    {
      ghost var before := histogram.counts[..];
      for k := 0 to |buckets|
        invariant Valid() && histogram.Valid() && Shards() == old(Shards())
        invariant histogram.counts[..] == RecordEach(before, Flatten(Shards()[..k]))
        invariant histogram.totalCount == old(histogram.totalCount) + |Flatten(Shards()[..k])|
      {
        buckets[k].AddTo(histogram);
        RecordEachConcat(before, Flatten(Shards()[..k]), Shards()[k]);
        assert Shards()[..k + 1][..k] == Shards()[..k];
      }
      assert Shards()[..|buckets|] == Shards();
    }
  }

  const CHUNKS := COUNTS_LENGTH / HALF_COUNT

  /** One client's counters, with a chunk of 128 positions allocated when first hit. */
  class ChunkedBuckets {
    const chunks: array<array?<nat>>
    ghost var recorded: seq<int>
    ghost var Repr: set<object>

    ghost predicate Valid()
      reads this, Repr
    {
      && chunks in Repr
      && chunks.Length == CHUNKS
      && (forall n :: 0 <= n < CHUNKS && chunks[n] != null ==> chunks[n] in Repr && chunks[n].Length == HALF_COUNT)
      && (forall m, n :: 0 <= m < n < CHUNKS && chunks[m] != null ==> chunks[m] != chunks[n])
      && forall n, offset :: 0 <= n < CHUNKS && 0 <= offset < HALF_COUNT ==>
           Stored(n, offset) == Hits(recorded, HALF_COUNT * n + offset)
    }

    ghost function Stored(n: nat, offset: nat): nat
      requires n < chunks.Length && offset < HALF_COUNT
      requires chunks[n] != null ==> chunks[n].Length == HALF_COUNT
      reads chunks, chunks[n]
    {
      if chunks[n] == null then 0 else chunks[n][offset]
    }

    constructor ()
      ensures Valid() && fresh(Repr) && recorded == []
    {
      chunks := new array?<nat>[CHUNKS](_ => null);
      recorded := [];
      Repr := {chunks};
    }

    method Record(microseconds: int)
      requires Valid()
      modifies Repr, this
      ensures Valid() && fresh(Repr - old(Repr))
      ensures recorded == old(recorded) + [microseconds]
    {
      hide CountsIndex, Hits;
      var i := CountsIndex(microseconds);
      var n, offset := i / HALF_COUNT, i % HALF_COUNT;
      if chunks[n] == null {
        var chunk := new nat[HALF_COUNT](_ => 0);
        chunks[n] := chunk;
        Repr := Repr + {chunk};
      }
      chunks[n][offset] := chunks[n][offset] + 1;
      recorded := recorded + [microseconds];
      forall m, o | 0 <= m < CHUNKS && 0 <= o < HALF_COUNT
        ensures Stored(m, o) == Hits(recorded, HALF_COUNT * m + o)
      {
        assert old(Stored(m, o)) == Hits(old(recorded), HALF_COUNT * m + o);
        HitsAppend(old(recorded), microseconds, HALF_COUNT * m + o);
        assert Stored(m, o) == old(Stored(m, o)) + (if HALF_COUNT * m + o == i then 1 else 0);
      }
    }

    /** Merges the counters of one allocated chunk. */
    method AddChunk(n: nat, histogram: Histogram, ghost before: seq<nat>)
      requires Valid() && histogram.Valid() && histogram.counts !in Repr && histogram !in Repr
      requires n < CHUNKS && chunks[n] != null
      requires Merged(before, histogram.counts[..], recorded, HALF_COUNT * n)
      modifies histogram, histogram.counts
      ensures Valid() && histogram.Valid()
      ensures Merged(before, histogram.counts[..], recorded, HALF_COUNT * (n + 1))
    {
      hide LayoutIndex, ValueForIndex, Hits;
      for offset := 0 to HALF_COUNT
        invariant Valid() && histogram.Valid()
        invariant Merged(before, histogram.counts[..], recorded, HALF_COUNT * n + offset)
      {
        var count := chunks[n][offset];
        assert count == Stored(n, offset);
        if count == 0 {
          continue;
        }
        LayoutRoundTrip(HALF_COUNT * n + offset);
        var _ := histogram.RecordValues(ValueForIndex(HALF_COUNT * n + offset), count);
      }
    }

    /** As for a dense array: merging is the same as recording every value directly. */
    method AddTo(histogram: Histogram)
      requires Valid() && histogram.Valid() && histogram.counts !in Repr && histogram !in Repr
      modifies histogram, histogram.counts
      ensures Valid() && histogram.Valid()
      ensures histogram.counts[..] == RecordEach(old(histogram.counts[..]), recorded)
      ensures histogram.totalCount == old(histogram.totalCount) + |recorded|
    {
      ghost var before := histogram.counts[..];
      for n := 0 to CHUNKS
        invariant Valid() && histogram.Valid()
        invariant Merged(before, histogram.counts[..], recorded, HALF_COUNT * n)
      {
        if chunks[n] == null {
          forall k | HALF_COUNT * n <= k < HALF_COUNT * (n + 1) ensures Hits(recorded, k) == 0 {
            assert Stored(n, k - HALF_COUNT * n) == 0;
          }
          continue;
        }
        AddChunk(n, histogram, before);
      }
      MergedEverything(before, histogram.counts[..], recorded);
    }
  }

  /** The positions before limit have been merged, the others not yet. */
  ghost predicate Merged(before: seq<nat>, after: seq<nat>, recorded: seq<int>, limit: nat) {
    && |before| == |after| == COUNTS_LENGTH
    && limit <= COUNTS_LENGTH
    && (forall k :: 0 <= k < limit ==> after[k] == before[k] + Hits(recorded, k))
    && forall k :: limit <= k < COUNTS_LENGTH ==> after[k] == before[k]
  }
}
