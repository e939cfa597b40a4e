/** Reading many counters one after the other while they keep growing, and sampling the sum. */
module CounterScan {
  import opened Counting

  /** One client's counters. */
  datatype Counters = Counters(published: nat, acked: nat, failed: nat, timedOut: nat)

  function PublishedOf(c: Counters): nat { c.published }
  function AckedOf(c: Counters): nat { c.acked }
  function FailedOf(c: Counters): nat { c.failed }
  function TimedOutOf(c: Counters): nat { c.timedOut }
  function CountedOf(c: Counters): nat { c.acked + c.failed + c.timedOut }

  ghost predicate NoneSmaller(c: Counters, d: Counters) {
    c.published <= d.published && c.acked <= d.acked && c.failed <= d.failed && c.timedOut <= d.timedOut
  }

  /** All clients' counters at every instant of a run: no counter ever goes back. */
  ghost predicate Growing(history: seq<seq<Counters>>, clients: nat) {
    && (forall t :: 0 <= t < |history| ==> |history[t]| == clients)
    && forall t, u, j :: 0 <= t <= u < |history| && 0 <= j < clients ==> NoneSmaller(history[t][j], history[u][j])
  }

  /** When the scan loads each counter: four loads per client, in order. */
  ghost predicate ScanTimes(times: seq<nat>, clients: nat, start: nat, end: nat) {
    && start <= end
    && |times| == 4 * clients
    && (forall k :: 0 <= k < |times| ==> start <= times[k] <= end)
    && forall k, m :: 0 <= k < m < |times| ==> times[k] <= times[m]
  }

  predicate InRange(history: seq<seq<Counters>>, times: seq<nat>, clients: nat) {
    && |times| == 4 * clients
    && (forall k :: 0 <= k < |times| ==> times[k] < |history|)
    && forall t :: 0 <= t < |history| ==> |history[t]| == clients
  }

  /** What the four loads see of client j. */
  function Seen(history: seq<seq<Counters>>, times: seq<nat>, clients: nat, j: nat): Counters
    requires InRange(history, times, clients) && j < clients
  {
    Counters(history[times[4 * j]][j].published, history[times[4 * j + 1]][j].acked,
             history[times[4 * j + 2]][j].failed, history[times[4 * j + 3]][j].timedOut)
  }

  function SeenAll(history: seq<seq<Counters>>, times: seq<nat>, clients: nat): (seen: seq<Counters>)
    requires InRange(history, times, clients)
    ensures |seen| == clients
  {
    seq(clients, j requires 0 <= j < clients => Seen(history, times, clients, j))
  }

  function Totals(cs: seq<Counters>): Counters {
    Counters(Sum(PublishedOf, cs), Sum(AckedOf, cs), Sum(FailedOf, cs), Sum(TimedOutOf, cs))
  }

  lemma {:induction false} TotalsGrow(cs: seq<Counters>, ds: seq<Counters>)
    requires |cs| == |ds| && forall j :: 0 <= j < |cs| ==> NoneSmaller(cs[j], ds[j])
    ensures NoneSmaller(Totals(cs), Totals(ds))
  {
    if cs != [] {
      TotalsGrow(cs[..|cs| - 1], ds[..|ds| - 1]);
    }
  }

  /** Each of the four scanned sums lies between the true totals at the start and at the end. */
  lemma ScanBetweenTotals(history: seq<seq<Counters>>, times: seq<nat>, clients: nat, start: nat, end: nat)
    requires Growing(history, clients) && ScanTimes(times, clients, start, end) && end < |history|
    ensures InRange(history, times, clients)
    ensures NoneSmaller(Totals(history[start]), Totals(SeenAll(history, times, clients)))
    ensures NoneSmaller(Totals(SeenAll(history, times, clients)), Totals(history[end]))
  {
    hide Totals;
    var seen := SeenAll(history, times, clients);
    forall j | 0 <= j < clients
      ensures NoneSmaller(history[start][j], seen[j]) && NoneSmaller(seen[j], history[end][j])
    {
      LoadBetween(history, times, clients, start, end, j, 4 * j);
      LoadBetween(history, times, clients, start, end, j, 4 * j + 1);
      LoadBetween(history, times, clients, start, end, j, 4 * j + 2);
      LoadBetween(history, times, clients, start, end, j, 4 * j + 3);
    }
    TotalsGrow(history[start], seen);
    TotalsGrow(seen, history[end]);
  }

  lemma LoadBetween(history: seq<seq<Counters>>, times: seq<nat>, clients: nat, start: nat, end: nat, j: nat, k: nat)
    requires Growing(history, clients) && ScanTimes(times, clients, start, end) && end < |history|
    requires j < clients && k < |times|
    ensures start <= times[k] <= end && |history[times[k]]| == clients
    ensures NoneSmaller(history[start][j], history[times[k]][j])
    ensures NoneSmaller(history[times[k]][j], history[end][j])
  {
  }

  /** The scan of sumPublishCounters. The counters keep changing between its loads. */
  method SumPublishCounters(history: seq<seq<Counters>>, times: seq<nat>, clients: nat) returns (summary: Counters)
    requires InRange(history, times, clients)
    ensures summary == Totals(SeenAll(history, times, clients))
  {
    summary := Counters(0, 0, 0, 0);
    ghost var seen := SeenAll(history, times, clients);
    for j := 0 to clients
      invariant summary == Totals(seen[..j])
    {
      summary := Counters(
        summary.published + history[times[4 * j]][j].published,
        summary.acked + history[times[4 * j + 1]][j].acked,
        summary.failed + history[times[4 * j + 2]][j].failed,
        summary.timedOut + history[times[4 * j + 3]][j].timedOut);
      assert seen[..j + 1][..j] == seen[..j];
    }
    assert seen[..clients] == seen;
  }

  /** At each instant a client has counted no more results than it has published; a scan can
      still see more results than messages, but only by what was published while it ran. */
  lemma ScanSkewIsBounded(history: seq<seq<Counters>>, times: seq<nat>, clients: nat, start: nat, end: nat)
    requires Growing(history, clients) && ScanTimes(times, clients, start, end) && end < |history|
    requires forall t, j :: 0 <= t < |history| && 0 <= j < clients ==>
               CountedOf(history[t][j]) <= PublishedOf(history[t][j])
    ensures InRange(history, times, clients)
    ensures var seen := Totals(SeenAll(history, times, clients));
            CountedOf(seen) - seen.published <= Totals(history[end]).published - Totals(history[start]).published
  {
    ScanBetweenTotals(history, times, clients, start, end);
    CountedTotal(history[end]);
  }

  lemma {:induction false} CountedTotal(cs: seq<Counters>)
    requires forall j :: 0 <= j < |cs| ==> CountedOf(cs[j]) <= PublishedOf(cs[j])
    ensures CountedOf(Totals(cs)) <= Totals(cs).published
  {
    if cs != [] {
      CountedTotal(cs[..|cs| - 1]);
    }
  }

  // ----- the sampler

  /** What the sampler's select picks next: a tick, at which the total is read, or done. */
  datatype Event = Tick(total: nat) | Done

  /** The totals read before done. */
  function Readings(events: seq<Event>): seq<nat> {
    if events == [] || events[0].Done? then [] else [events[0].total] + Readings(events[1..])
  }

  /** They are the ticks up to the first done. */
  lemma {:induction false} ReadingsExactly(events: seq<Event>)
    ensures |Readings(events)| <= |events|
    ensures forall k :: 0 <= k < |Readings(events)| ==> events[k] == Tick(Readings(events)[k])
    ensures |Readings(events)| < |events| ==> events[|Readings(events)|].Done?
  {
    if events != [] && !events[0].Done? {
      ReadingsExactly(events[1..]);
    }
  }

  function Previous(readings: seq<nat>, k: nat): nat
    requires k < |readings|
  {
    if k == 0 then 0 else readings[k - 1]
  }

  /** The growth in each full interval. */
  method SampleTotal(events: seq<Event>) returns (growthPerInterval: seq<int>)
    ensures |growthPerInterval| == |Readings(events)|
    ensures forall k :: 0 <= k < |growthPerInterval| ==>
              growthPerInterval[k] == Readings(events)[k] - Previous(Readings(events), k)
  {
    growthPerInterval := [];
    var previousTotal := 0;
    var next := 0;
    ghost var readings := Readings(events);
    while next < |events|
      invariant 0 <= next <= |events| && |growthPerInterval| == next <= |readings|
      invariant readings[next..] == Readings(events[next..])
      invariant next > 0 ==> previousTotal == readings[next - 1]
      invariant next == 0 ==> previousTotal == 0
      invariant forall k :: 0 <= k < next ==> growthPerInterval[k] == readings[k] - Previous(readings, k)
    {
      match events[next] {
        case Done => return;
        case Tick(total) =>
          assert readings[next..][0] == total;
          assert readings[next + 1..] == readings[next..][1..];
          assert events[next + 1..] == events[next..][1..];
          growthPerInterval := growthPerInterval + [total - previousTotal];
          previousTotal := total;
          next := next + 1;
      }
    }
  }

  function SumOf(values: seq<int>): int {
    if values == [] then 0 else SumOf(values[..|values| - 1]) + values[|values| - 1]
  }

  /** The growths add up to the last reading. */
  lemma {:induction false} GrowthAddsUp(readings: seq<nat>, growth: seq<int>)
    requires |growth| == |readings|
    requires forall k :: 0 <= k < |growth| ==> growth[k] == readings[k] - Previous(readings, k)
    ensures SumOf(growth) == if readings == [] then 0 else readings[|readings| - 1]
  {
    if readings != [] {
      var last := |readings| - 1;
      var earlier, less := readings[..last], growth[..last];
      forall k | 0 <= k < |less| ensures less[k] == earlier[k] - Previous(earlier, k) {
        PreviousInPrefix(readings, last, k);
      }
      GrowthAddsUp(earlier, less);
    }
  }

  lemma PreviousInPrefix(readings: seq<nat>, n: nat, k: nat)
    requires k < n <= |readings|
    ensures readings[..n][k] == readings[k] && Previous(readings[..n], k) == Previous(readings, k)
  {
  }
}
