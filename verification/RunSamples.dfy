/** The acks sampler of a publish run: what its readings mean while clients keep publishing. */
module RunSamples {
  import opened Counting
  import P = PublishClient
  import opened PublishRun
  import opened PublishRunResults
  import opened CounterScan

  /** The counters the run's progress holds for every client, started or not. */
  function CountersAt(o: Options, s: Run): (cs: seq<Counters>)
    ensures |cs| == o.clients
  {
    seq(o.clients, i requires 0 <= i => CountersOf(s, i))
  }

  function CountersOf(s: Run, i: nat): Counters {
    if i < |s.publishers| then
      var c := s.publishers[i];
      Counters(c.published, c.acked, c.failed, c.timedOut)
    else Counters(0, 0, 0, 0)
  }

  function History(o: Options, states: seq<Run>): (h: seq<seq<Counters>>)
    ensures |h| == |states|
  {
    seq(|states|, t requires 0 <= t < |states| => CountersAt(o, states[t]))
  }

  lemma StepGrows(o: Options, s: Run, a: Action, i: nat)
    requires Inv(o, s) && Enabled(o, s, a)
    ensures NoneSmaller(CountersOf(s, i), CountersOf(Apply(o, s, a), i))
  {
    hide Sum, Gather, Inv;
    if a.Publish? {
      P.CountersGrow(o.publish, s.publishers[a.i], a.p);
    }
  }

  lemma {:induction false} RunGrows(o: Options, states: seq<Run>, actions: seq<Action>, t: nat, u: nat, i: nat)
    requires Execution(o, states, actions) && t <= u < |states|
    ensures NoneSmaller(CountersOf(states[t], i), CountersOf(states[u], i))
  {
    hide Inv, CountersOf;
    if t < u {
      RunGrows(o, states, actions, t, u - 1, i);
      ReachableInv(o, states, actions, u - 1);
      StepGrows(o, states[u - 1], actions[u - 1], i);
    }
  }

  lemma HistoryGrows(o: Options, states: seq<Run>, actions: seq<Action>)
    requires Execution(o, states, actions)
    ensures Growing(History(o, states), o.clients)
  {
    hide Execution, CountersOf;
    var h := History(o, states);
    forall t, u, j | 0 <= t <= u < |h| && 0 <= j < o.clients ensures NoneSmaller(h[t][j], h[u][j]) {
      RunGrows(o, states, actions, t, u, j);
    }
  }

  /** Scan k runs from instant windows[k].0 to windows[k].1, after scan k-1, and loads its
      counters at times[k]. */
  ghost predicate Scans(o: Options, states: seq<Run>, windows: seq<(nat, nat)>, times: seq<seq<nat>>) {
    && |windows| == |times|
    && (forall k :: 0 <= k < |windows| ==>
          && windows[k].1 < |states| && ScanTimes(times[k], o.clients, windows[k].0, windows[k].1)
          && InRange(History(o, states), times[k], o.clients))
    && forall k, m :: 0 <= k < m < |windows| ==> windows[k].1 <= windows[m].0
  }

  /** Total acks, as one atomic look would see them. */
  ghost function TrueAcks(o: Options, states: seq<Run>, t: nat): nat
    requires t < |states|
  {
    Totals(History(o, states)[t]).acked
  }

  ghost function ScannedAcks(o: Options, states: seq<Run>, times: seq<nat>): nat
    requires InRange(History(o, states), times, o.clients)
  {
    Totals(SeenAll(History(o, states), times, o.clients)).acked
  }

  lemma ScanIsBetween(o: Options, states: seq<Run>, actions: seq<Action>, times: seq<nat>, start: nat, end: nat)
    requires Execution(o, states, actions) && ScanTimes(times, o.clients, start, end) && end < |states|
    ensures InRange(History(o, states), times, o.clients)
    ensures TrueAcks(o, states, start) <= ScannedAcks(o, states, times) <= TrueAcks(o, states, end)
  {
    hide Execution, CountersOf, Totals;
    HistoryGrows(o, states, actions);
    ScanBetweenTotals(History(o, states), times, o.clients, start, end);
  }

  lemma AcksGrow(o: Options, states: seq<Run>, actions: seq<Action>, t: nat, u: nat)
    requires Execution(o, states, actions) && t <= u < |states|
    ensures TrueAcks(o, states, t) <= TrueAcks(o, states, u)
  {
    hide Execution, CountersOf, Totals;
    HistoryGrows(o, states, actions);
    TotalsGrow(History(o, states)[t], History(o, states)[u]);
  }

  /** However the sampler's loads interleave with the clients, its readings never decrease and
      never exceed the acks there are at the end of the run. */
  lemma ReadingsNeverDecrease(o: Options, states: seq<Run>, actions: seq<Action>,
                              windows: seq<(nat, nat)>, times: seq<seq<nat>>, readings: seq<nat>)
    requires Execution(o, states, actions) && Scans(o, states, windows, times)
    requires |readings| == |times|
    requires forall k :: 0 <= k < |readings| ==> readings[k] == ScannedAcks(o, states, times[k])
    ensures forall k, m :: 0 <= k < m < |readings| ==> readings[k] <= readings[m]
    ensures forall k :: 0 <= k < |readings| ==> readings[k] <= TrueAcks(o, states, |states| - 1)
  {
    hide Execution, TrueAcks, ScannedAcks;
    forall k | 0 <= k < |readings|
      ensures TrueAcks(o, states, windows[k].0) <= readings[k] <= TrueAcks(o, states, windows[k].1)
      ensures readings[k] <= TrueAcks(o, states, |states| - 1)
    {
      ScanIsBetween(o, states, actions, times[k], windows[k].0, windows[k].1);
      AcksGrow(o, states, actions, windows[k].1, |states| - 1);
    }
    forall k, m | 0 <= k < m < |readings| ensures readings[k] <= readings[m] {
      AcksGrow(o, states, actions, windows[k].1, windows[m].0);
    }
  }

  /** The acks per interval of a whole run: none is negative, and together they are at most the
      number of messages acked by the end. */
  lemma AckedPerInterval(o: Options, states: seq<Run>, actions: seq<Action>,
                         windows: seq<(nat, nat)>, times: seq<seq<nat>>, readings: seq<nat>, growth: seq<int>)
    requires Execution(o, states, actions) && Scans(o, states, windows, times)
    requires |growth| == |readings| == |times|
    requires forall k :: 0 <= k < |readings| ==> readings[k] == ScannedAcks(o, states, times[k])
    requires forall k :: 0 <= k < |growth| ==> growth[k] == readings[k] - Previous(readings, k)
    ensures forall k :: 0 <= k < |growth| ==> growth[k] >= 0
    ensures SumOf(growth) <= TrueAcks(o, states, |states| - 1)
  {
    ReadingsNeverDecrease(o, states, actions, windows, times, readings);
    GrowthAddsUp(readings, growth);
  }

  /** What a client has counted is never more than what it has published. */
  lemma CountedWasPublished(o: Options, states: seq<Run>, actions: seq<Action>, t: nat, j: nat)
    requires Execution(o, states, actions) && t < |states|
    ensures CountedOf(CountersOf(states[t], j)) <= PublishedOf(CountersOf(states[t], j))
  {
    hide Sum, Gather, P.Inv;
    ReachableInv(o, states, actions, t);
    if j < |states[t].publishers| {
      P.WindowAndCounters(o.publish, states[t].publishers[j]);
    }
  }

  /** A snapshot of a run can show more results than messages, but only by as many messages as
      the run published while it was taken. */
  lemma SnapshotSkewIsBounded(
    o: Options, states: seq<Run>, actions: seq<Action>, times: seq<nat>, start: nat, end: nat)
    requires Execution(o, states, actions) && ScanTimes(times, o.clients, start, end) && end < |states|
    ensures InRange(History(o, states), times, o.clients)
    ensures var h := History(o, states);
            var seen := Totals(SeenAll(h, times, o.clients));
            CountedOf(seen) - seen.published <= Totals(h[end]).published - Totals(h[start]).published
  {
    hide Execution, CountersOf, Totals;
    var h := History(o, states);
    HistoryGrows(o, states, actions);
    forall t, j | 0 <= t < |h| && 0 <= j < o.clients ensures CountedOf(h[t][j]) <= PublishedOf(h[t][j]) {
      CountedWasPublished(o, states, actions, t, j);
    }
    ScanSkewIsBounded(h, times, o.clients, start, end);
  }

  /** Once RunPublish has returned the true total is the sum over the clients that published. */
  lemma FinalAcks(o: Options, states: seq<Run>, actions: seq<Action>, t: nat)
    requires Execution(o, states, actions) && t < |states| && |states[t].publishers| == o.clients
    ensures TrueAcks(o, states, t) == Sum(Acked, states[t].publishers)
  {
    SameAcks(History(o, states)[t], states[t].publishers);
  }

  lemma {:induction false} SameAcks(cs: seq<Counters>, ps: seq<P.Client>)
    requires |cs| == |ps| && forall j :: 0 <= j < |cs| ==> cs[j].acked == ps[j].acked
    ensures Sum(AckedOf, cs) == Sum(Acked, ps)
  {
    if cs != [] {
      SameAcks(cs[..|cs| - 1], ps[..|ps| - 1]);
    }
  }
}
