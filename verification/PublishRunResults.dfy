/** What a publish run guarantees: in every reachable state, at its end, and about ending. */
module PublishRunResults {
  import opened Counting
  import opened LatencyIndex
  import opened RecordedCounts
  import opened Percentile
  import C = ConnectClients
  import P = PublishClient
  import opened PublishRun

  /** A run of the model: any interleaving of steps that are possible one after the other. */
  ghost predicate Execution(o: Options, states: seq<Run>, actions: seq<Action>) {
    && |states| == |actions| + 1
    && states[0] == Init(o)
    && forall k :: 0 <= k < |actions| ==>
         Enabled(o, states[k], actions[k]) && states[k + 1] == Apply(o, states[k], actions[k])
  }

  lemma {:induction false} ReachableInv(o: Options, states: seq<Run>, actions: seq<Action>, k: nat)
    requires Execution(o, states, actions) && k < |states|
    ensures Inv(o, states[k])
  {
    hide Inv;
    if k == 0 {
      InitInv(o);
    } else {
      ReachableInv(o, states, actions, k - 1);
      StepKeepsInv(o, states[k - 1], actions[k - 1]);
    }
  }

  // ----- disconnects and channels

  /** How often client i has been disconnected, by the teardown or by its own goroutine. */
  function Disconnects(s: Run, i: nat): nat {
    (if i < |s.group.disconnects| then s.group.disconnects[i] else 0)
    + (if i < |s.publishers| then s.publishers[i].disconnects else 0)
  }

  /** Client i is in its slot: its connect succeeded. */
  predicate Connected(s: Run, i: nat) { i < |s.group.slots| && s.group.slots[i] }

  /** At every moment of every run a client has been disconnected at most once, and only if it
      connected. If the teardown disconnected it, no client has started publishing; if its own
      goroutine did, every one of its publishes is counted and none of its waiters or slots is
      left. */
  lemma NeverDisconnectedEarly(o: Options, states: seq<Run>, actions: seq<Action>, k: nat, i: nat)
    requires Execution(o, states, actions) && k < |states| && i < o.clients
    ensures Disconnects(states[k], i) <= (if Connected(states[k], i) then 1 else 0)
    ensures |states[k].group.disconnects| == o.clients
    ensures states[k].group.disconnects[i] > 0 ==> states[k].publishers == []
    ensures i < |states[k].publishers| && states[k].publishers[i].disconnects > 0 ==>
              var c := states[k].publishers[i];
              && (forall w :: 0 <= w < |c.waiters| ==> c.waiters[w].Gone?)
              && c.held == 0 && c.published == c.acked + c.failed + c.timedOut
  {
    hide Sum, Gather;
    ReachableInv(o, states, actions, k);
    var s := states[k];
    if s.group.caller == C.Done(true) {
      C.AllOrNothing(Connecting(o), s.group);
    }
    if i < |s.publishers| && s.publishers[i].disconnects > 0 {
      P.DrainedMeansDone(o.publish, s.publishers[i]);
    }
  }

  /** When RunPublish returns, on whatever path, each client that connected has been disconnected
      exactly once, the others never, and both channels have been closed exactly once. */
  lemma EveryPathDisconnectsOnce(o: Options, states: seq<Run>, actions: seq<Action>, k: nat, i: nat)
    requires Execution(o, states, actions) && k < |states| && i < o.clients
    requires states[k].main.Returned?
    ensures Disconnects(states[k], i) == (if Connected(states[k], i) then 1 else 0)
    ensures i < |states[k].group.connectors| && states[k].group.connectors[i] == C.Exited(Connected(states[k], i))
    ensures states[k].connectFinishedCloses == 1 && states[k].doneCloses == 1
  {
    hide Sum, Gather;
    ReachableInv(o, states, actions, k);
    var s := states[k];
    C.AllOrNothing(Connecting(o), s.group);
    if i < |s.publishers| {
      NotExitedZero(o, s, i);
    }
  }

  lemma NotExitedZero(o: Options, s: Run, i: nat)
    requires Inv(o, s) && AllExited(s.main) && i < |s.publishers|
    ensures s.publishers[i].sender.Exited?
  {
    SumAtLeast(NotExited, s.publishers, i);
  }

  /** Neither channel is ever closed twice, which would crash the program. */
  lemma ChannelsClosedAtMostOnce(o: Options, states: seq<Run>, actions: seq<Action>, k: nat)
    requires Execution(o, states, actions) && k < |states|
    ensures states[k].connectFinishedCloses <= 1 && states[k].doneCloses <= states[k].connectFinishedCloses
  {
    ReachableInv(o, states, actions, k);
  }

  // ----- connecting

  /** Publishing starts only with every client connected and counted, and at no moment do more
      clients connect at once than the limit. */
  lemma PublishesOnlyFullyConnected(o: Options, states: seq<Run>, actions: seq<Action>, k: nat)
    requires Execution(o, states, actions) && k < |states|
    ensures Sum(C.IsDialing, states[k].group.connectors) <= o.connectConcurrency
    ensures |states[k].publishers| > 0 ==>
              && states[k].group.connected == o.clients
              && forall i :: 0 <= i < o.clients ==> Connected(states[k], i)
  {
    hide Sum, Gather;
    ReachableInv(o, states, actions, k);
    C.LimitedDials(Connecting(o), states[k].group);
    if |states[k].publishers| > 0 {
      C.AllOrNothing(Connecting(o), states[k].group);
    }
  }

  /** At every moment of every run each client keeps to its window and its counters agree with
      its goroutines; so all clients together never have more than clients * inFlight publishes
      that have not given their slot back. */
  lemma EveryClientWithinWindow(o: Options, states: seq<Run>, actions: seq<Action>, k: nat)
    requires Execution(o, states, actions) && k < |states|
    ensures forall i :: 0 <= i < |states[k].publishers| ==>
              var c := states[k].publishers[i];
              && c.held == Sum(P.HoldsSlot, c.waiters) + P.SenderHolds(c.sender) <= o.publish.inFlight
              && c.outstanding == Sum(P.NotGone, c.waiters) + P.Ahead(c.sender).2
              && c.published == c.acked + c.failed + c.timedOut + Sum(P.Uncounted, c.waiters) + P.Ahead(c.sender).1
              && c.published <= c.sent <= o.publish.count
    ensures Sum(SlotsHeld, states[k].publishers) <= o.clients * o.publish.inFlight
  {
    hide Sum, Gather, P.Inv, Execution;
    ReachableInv(o, states, actions, k);
    var s := states[k];
    forall i | 0 <= i < |s.publishers| {
      P.WindowAndCounters(o.publish, s.publishers[i]);
    }
    SumBounded(SlotsHeld, s.publishers, o.publish.inFlight);
    assert |s.publishers| * o.publish.inFlight <= o.clients * o.publish.inFlight;
  }

  function SlotsHeld(c: P.Client): nat { Sum(P.HoldsSlot, c.waiters) }

  // ----- totals and the verdict

  lemma {:induction false} TotalsAddUp(cs: seq<P.Client>)
    requires forall i :: 0 <= i < |cs| ==> cs[i].published == cs[i].acked + cs[i].failed + cs[i].timedOut
    ensures Sum(Published, cs) == Sum(Acked, cs) + Sum(Failed, cs) + Sum(TimedOut, cs)
  {
    if cs != [] {
      TotalsAddUp(cs[..|cs| - 1]);
    }
  }

  lemma FinishedClients(o: Options, s: Run)
    requires Inv(o, s) && AllExited(s.main)
    ensures forall i :: 0 <= i < |s.publishers| ==>
              && P.Over(s.publishers[i].sender)
              && s.publishers[i].published == s.publishers[i].acked + s.publishers[i].failed + s.publishers[i].timedOut
              && s.publishers[i].published <= o.publish.count
              && (!s.cancelled ==> s.publishers[i].published == o.publish.count)
              && |s.publishers[i].shared| == (if o.publish.qos > 0 then s.publishers[i].acked else 0)
              && |s.publishers[i].own| ==
                   (if o.publish.qos > 0 && o.publish.perClientStats then s.publishers[i].acked else 0)
              && (o.publish.perClientStats ==> multiset(s.publishers[i].own) == multiset(s.publishers[i].shared))
  {
    hide Sum, Gather;
    forall i | 0 <= i < |s.publishers|
      ensures P.Over(s.publishers[i].sender)
      ensures P.Inv(o.publish, s.publishers[i])
    {
      NotExitedZero(o, s, i);
    }
    forall i | 0 <= i < |s.publishers| {
      P.DrainedMeansDone(o.publish, s.publishers[i]);
    }
  }

  /** The result of RunPublish. Every published message ends up acked, failed or timed out; the
      run reports an error exactly if one failed or timed out, with the true totals; without a
      cancellation it has published everything, and returns nil exactly if all of it was acked.
      When connecting did not succeed nothing was published, and the run is an error unless
      it was cancelled. */
  lemma FinalVerdict(o: Options, states: seq<Run>, actions: seq<Action>, k: nat)
    requires Execution(o, states, actions) && k < |states| && states[k].main.Returned?
    ensures var s := states[k];
            var published, acked := Sum(Published, s.publishers), Sum(Acked, s.publishers);
            var failed, timedOut := Sum(Failed, s.publishers), Sum(TimedOut, s.publishers);
            && published == acked + failed + timedOut <= o.clients * o.publish.count
            && (s.group.caller == C.Done(true) ==>
                 && (s.main.verdict == Nil <==> failed + timedOut == 0)
                 && (s.main.verdict != Nil ==> s.main.verdict == PublishError(published, acked, failed, timedOut))
                 && (!s.cancelled ==> published == o.clients * o.publish.count)
                 && (!s.cancelled ==> (s.main.verdict == Nil <==> acked == o.clients * o.publish.count)))
            && (s.group.caller == C.Done(false) ==>
                 && published == 0
                 && (!s.cancelled ==> s.main.verdict == ConnectError)
                 && (s.main.verdict != Nil ==> s.main.verdict == ConnectError && s.group.failed))
  {
    hide Gather, Sum;
    ReachableInv(o, states, actions, k);
    var s := states[k];
    FinishedClients(o, s);
    TotalsAddUp(s.publishers);
    SumBounded(Published, s.publishers, o.publish.count);
    assert |s.publishers| == 0 || |s.publishers| == o.clients;
    if !s.cancelled && s.group.caller == C.Done(true) {
      SumConstant(Published, s.publishers, o.publish.count);
    }
  }

  // ----- latencies at the end

  lemma {:induction false} FlattenGathers(shards: seq<seq<int>>)
    ensures multiset(Flatten(shards)) == Gather(AsMultiset, shards)
  {
    if shards != [] {
      FlattenGathers(shards[..|shards| - 1]);
    }
  }

  lemma {:induction false} GatheredSize(cs: seq<P.Client>, qos: nat)
    requires forall i :: 0 <= i < |cs| ==> |cs[i].shared| == if qos > 0 then cs[i].acked else 0
    ensures |Gather(SharedOf, cs)| == if qos > 0 then Sum(Acked, cs) else 0
  {
    if cs != [] {
      GatheredSize(cs[..|cs| - 1], qos);
    }
  }

  /** How many waiters of a client have recorded a latency and not yet counted the ack. */
  function RecordedNotCounted(c: P.Client): nat { Sum(P.RecordedUncounted, c.waiters) }

  lemma {:induction false} GatheredAhead(cs: seq<P.Client>)
    requires forall i :: 0 <= i < |cs| ==> |cs[i].shared| == cs[i].acked + RecordedNotCounted(cs[i])
    ensures |Gather(SharedOf, cs)| == Sum(Acked, cs) + Sum(RecordedNotCounted, cs)
  {
    hide RecordedNotCounted;
    if cs != [] {
      GatheredAhead(cs[..|cs| - 1]);
    }
  }

  /** At every moment of a run above QoS 0, the shared counters are ahead of the acks by exactly
      the waiters that have recorded their latency and not yet counted their ack; and a client's
      own counters, when kept, are ahead of its acks in the same way. */
  lemma LatenciesAheadOfAcks(o: Options, states: seq<Run>, actions: seq<Action>, k: nat)
    requires Execution(o, states, actions) && k < |states| && o.publish.qos > 0
    ensures var s := states[k];
            Total(RecordEach(ZEROES, Flatten(s.shards))) ==
              Sum(Acked, s.publishers) + Sum(RecordedNotCounted, s.publishers)
    ensures o.publish.perClientStats ==> forall i :: 0 <= i < |states[k].publishers| ==>
              var c := states[k].publishers[i];
              Total(RecordEach(ZEROES, c.own)) == c.acked + Sum(P.OwnUncounted, c.waiters)
  {
    hide Sum, Gather, RecordEach, Total, Flatten, P.Inv, Execution;
    ReachableInv(o, states, actions, k);
    var s := states[k];
    forall i | 0 <= i < |s.publishers|
      ensures |s.publishers[i].shared| == s.publishers[i].acked + RecordedNotCounted(s.publishers[i])
      ensures o.publish.perClientStats ==>
                Total(RecordEach(ZEROES, s.publishers[i].own)) ==
                  s.publishers[i].acked + Sum(P.OwnUncounted, s.publishers[i].waiters)
    {
      P.LatenciesRunAhead(o.publish, s.publishers[i]);
      RecordedTotal(s.publishers[i].own);
    }
    GatheredAhead(s.publishers);
    FlattenGathers(s.shards);
    assert |Flatten(s.shards)| == |multiset(Flatten(s.shards))|;
    RecordedTotal(Flatten(s.shards));
  }

  /** At the end of a run the merged shared counters hold exactly the latencies of the acked
      publishes, at QoS 0 none; so the report has latencies exactly if QoS is above 0 and
      something was acked. Per-client counters, when kept, hold the client's own acked publishes. */
  lemma FinalLatencies(o: Options, states: seq<Run>, actions: seq<Action>, k: nat)
    requires Execution(o, states, actions) && k < |states| && states[k].main.Returned?
    ensures var s := states[k];
            && multiset(Flatten(s.shards)) == Gather(SharedOf, s.publishers)
            && Total(RecordEach(ZEROES, Flatten(s.shards))) ==
                 (if o.publish.qos > 0 then Sum(Acked, s.publishers) else 0)
            && forall i :: 0 <= i < |s.publishers| ==>
                 && Total(RecordEach(ZEROES, s.publishers[i].own)) ==
                      (if o.publish.qos > 0 && o.publish.perClientStats then s.publishers[i].acked else 0)
                 && (o.publish.perClientStats ==>
                      RecordEach(ZEROES, s.publishers[i].own) == RecordEach(ZEROES, s.publishers[i].shared))
  {
    hide Sum, Gather, RecordEach, CountsOf, Total, Flatten;
    ReachableInv(o, states, actions, k);
    var s := states[k];
    FinishedClients(o, s);
    FlattenGathers(s.shards);
    GatheredSize(s.publishers, o.publish.qos);
    assert |Flatten(s.shards)| == |multiset(Flatten(s.shards))|;
    RecordedTotal(Flatten(s.shards));
    forall i | 0 <= i < |s.publishers|
      ensures Total(RecordEach(ZEROES, s.publishers[i].own)) ==
                if o.publish.qos > 0 && o.publish.perClientStats then s.publishers[i].acked else 0
      ensures o.publish.perClientStats ==>
                RecordEach(ZEROES, s.publishers[i].own) == RecordEach(ZEROES, s.publishers[i].shared)
    {
      RecordedTotal(s.publishers[i].own);
      if o.publish.perClientStats {
        RecordEachIntoEmpty(s.publishers[i].own);
        RecordEachIntoEmpty(s.publishers[i].shared);
        CountsIgnoreOrder(s.publishers[i].own, s.publishers[i].shared);
      }
    }
  }

  /** The percentiles of the report: at the end of a run the value of a given rank, read off the
      merged shared counters, is in the bucket of the latency of that rank among all latencies
      the clients measured, however they were spread and interleaved. */
  lemma ReportedPercentile(o: Options, states: seq<Run>, actions: seq<Action>, k: nat,
                           latencies: seq<int>, sorted: seq<int>, rank: nat)
    requires Execution(o, states, actions) && k < |states| && states[k].main.Returned?
    requires multiset(latencies) == Gather(SharedOf, states[k].publishers)
    requires Sorted(sorted) && multiset(sorted) == multiset(ClampAll(latencies)) && 1 <= rank <= |sorted|
    ensures var merged := RecordEach(ZEROES, Flatten(states[k].shards));
            rank <= Total(merged) && FirstReaching(merged, rank) == CountsIndex(sorted[rank - 1])
  {
    hide Sum, Gather, RecordEach, CountsOf, Total, CountsIndex, FirstReaching, ClampAll;
    FinalLatencies(o, states, actions, k);
    RecordEachIntoEmpty(Flatten(states[k].shards));
    RecordEachIntoEmpty(latencies);
    CountsIgnoreOrder(Flatten(states[k].shards), latencies);
    assert [latencies] == [] + [latencies] && Flatten([latencies]) == latencies;
    PercentileIsBucketOfRank([latencies], sorted, rank);
  }

  /** The same for the percentiles of one client, read off its own counters. */
  lemma ReportedClientPercentile(o: Options, states: seq<Run>, actions: seq<Action>, k: nat, i: nat,
                                 sorted: seq<int>, rank: nat)
    requires Execution(o, states, actions) && k < |states| && states[k].main.Returned?
    requires o.publish.perClientStats && i < |states[k].publishers|
    requires Sorted(sorted) && multiset(sorted) == multiset(ClampAll(states[k].publishers[i].shared))
    requires 1 <= rank <= |sorted|
    ensures var own := RecordEach(ZEROES, states[k].publishers[i].own);
            rank <= Total(own) && FirstReaching(own, rank) == CountsIndex(sorted[rank - 1])
  {
    hide Sum, Gather, RecordEach, CountsOf, Total, CountsIndex, FirstReaching, ClampAll;
    FinalLatencies(o, states, actions, k);
    var latencies := states[k].publishers[i].shared;
    assert [latencies] == [] + [latencies] && Flatten([latencies]) == latencies;
    PercentileIsBucketOfRank([latencies], sorted, rank);
  }

  lemma RecordedTotal(values: seq<int>)
    ensures Total(RecordEach(ZEROES, values)) == |values|
  {
    RecordEachIntoEmpty(values);
    CountsConserved(values);
  }
}
