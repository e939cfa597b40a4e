/** What a set of counters should hold: the number of recorded latencies that land on each
    position. Every counter implementation is measured against this. */
module RecordedCounts {
  import opened Counting
  import opened LatencyIndex

  function Lands(i: nat): int -> nat {
    v => if CountsIndex(v) == i then 1 else 0
  }

  /** How many of the values land on position i. */
  function Hits(values: seq<int>, i: nat): nat { Sum(Lands(i), values) }

  function CountsOf(values: seq<int>): (counts: seq<nat>)
    ensures |counts| == COUNTS_LENGTH
  {
    seq(COUNTS_LENGTH, i requires 0 <= i => Hits(values, i))
  }

  function Count(n: nat): nat { n }

  function Total(counts: seq<nat>): nat { Sum(Count, counts) }

  const ZEROES: seq<nat> := seq(COUNTS_LENGTH, _ => 0)

  /** The library's own RecordValue, one value after the other, each clamped first. Like the
      library it ignores a value whose position it does not have. */
  function RecordEach(counts: seq<nat>, values: seq<int>): (r: seq<nat>)
    requires |counts| == COUNTS_LENGTH
    ensures |r| == COUNTS_LENGTH
  {
    if values == [] then counts
    else
      var before := RecordEach(counts, values[..|values| - 1]);
      var i := LayoutIndex(Clamp(values[|values| - 1]));
      if 0 <= i < COUNTS_LENGTH then before[i := before[i] + 1] else before
  }

  function Flatten(shards: seq<seq<int>>): seq<int> {
    if shards == [] then [] else Flatten(shards[..|shards| - 1]) + shards[|shards| - 1]
  }

  lemma HitsAppend(values: seq<int>, v: int, i: nat)
    ensures Hits(values + [v], i) == Hits(values, i) + (if CountsIndex(v) == i then 1 else 0)
  {
    SumAppend(Lands(i), values, v);
  }

  /** One more recorded latency is one more on its counter, and no change elsewhere. */
  lemma CountsOfAppend(values: seq<int>, v: int)
    ensures CountsOf(values + [v]) == CountsOf(values)[CountsIndex(v) := Hits(values, CountsIndex(v)) + 1]
  {
    forall i | 0 <= i < COUNTS_LENGTH
      ensures Hits(values + [v], i) == Hits(values, i) + (if CountsIndex(v) == i then 1 else 0)
    {
      HitsAppend(values, v, i);
    }
  }

  /** No recorded latency is lost or counted twice. */
  lemma {:induction false} CountsConserved(values: seq<int>)
    ensures Total(CountsOf(values)) == |values|
  {
    if values == [] {
      SumZero(Count, CountsOf(values));
    } else {
      var init, v := values[..|values| - 1], values[|values| - 1];
      CountsConserved(init);
      assert init + [v] == values;
      CountsOfAppend(init, v);
      TotalPlusOne(CountsOf(init), CountsIndex(v));
    }
  }

  /** Recording each value directly adds its hits to what was there. */
  lemma {:induction false} RecordEachAddsHits(counts: seq<nat>, values: seq<int>, i: nat)
    requires |counts| == COUNTS_LENGTH && i < COUNTS_LENGTH
    ensures RecordEach(counts, values)[i] == counts[i] + Hits(values, i)
  {
    if values != [] {
      RecordEachAddsHits(counts, values[..|values| - 1], i);
    }
  }

  lemma RecordEachIntoEmpty(values: seq<int>)
    ensures RecordEach(ZEROES, values) == CountsOf(values)
  {
    forall i | 0 <= i < COUNTS_LENGTH ensures RecordEach(ZEROES, values)[i] == CountsOf(values)[i] {
      RecordEachAddsHits(ZEROES, values, i);
    }
  }

  /** Recording in two goes is the same as recording everything in one. */
  lemma RecordEachConcat(counts: seq<nat>, first: seq<int>, second: seq<int>)
    requires |counts| == COUNTS_LENGTH
    ensures RecordEach(RecordEach(counts, first), second) == RecordEach(counts, first + second)
  {
    var left, right := RecordEach(RecordEach(counts, first), second), RecordEach(counts, first + second);
    forall i | 0 <= i < COUNTS_LENGTH ensures left[i] == right[i] {
      RecordEachAddsHits(RecordEach(counts, first), second, i);
      RecordEachAddsHits(counts, first, i);
      RecordEachAddsHits(counts, first + second, i);
      SumConcat(Lands(i), first, second);
    }
  }

  /** Neither recording order nor the way latencies are spread over shards changes the counts. */
  lemma CountsIgnoreOrder(values: seq<int>, others: seq<int>)
    requires multiset(values) == multiset(others)
    ensures CountsOf(values) == CountsOf(others)
  {
    forall i | 0 <= i < COUNTS_LENGTH ensures Hits(values, i) == Hits(others, i) {
      SumPermutation(Lands(i), values, others);
    }
  }

  lemma TotalPlusOne(counts: seq<nat>, i: nat)
    requires i < |counts|
    ensures Total(counts[i := counts[i] + 1]) == Total(counts) + 1
  {
    SumUpdate<nat>(Count, counts, i, counts[i] + 1);
  }

  /** The total after recording is the total before plus one per value. */
  lemma {:induction false} RecordEachTotal(counts: seq<nat>, values: seq<int>)
    requires |counts| == COUNTS_LENGTH
    ensures Total(RecordEach(counts, values)) == Total(counts) + |values|
  {
    hide LayoutIndex, Clamp, Sum;
    if values != [] {
      var before := RecordEach(counts, values[..|values| - 1]);
      var i := CountsIndex(values[|values| - 1]);
      RecordEachTotal(counts, values[..|values| - 1]);
      TotalPlusOne(before, i);
    }
  }
}
