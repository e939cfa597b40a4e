/** When a snapshot of a publish run can show more results than published messages. */
module SnapshotSkew {
  import opened Counting
  import P = PublishClient
  import opened PublishRun
  import opened PublishRunResults
  import opened PublishRunEnds
  import opened PublishRunReach
  import opened PublishDrive
  import opened CounterScan
  import opened RunSamples

  /** The snapshot whose loads are at these times has no more results than messages. */
  ghost predicate Consistent(o: Options, states: seq<Run>, times: seq<nat>)
    requires InRange(History(o, states), times, o.clients)
  {
    var seen := Totals(SeenAll(History(o, states), times, o.clients));
    CountedOf(seen) <= seen.published
  }

  /** In some continuation of the run a snapshot that starts no earlier than now is not. */
  ghost predicate MayBeInconsistent(o: Options, states: seq<Run>) {
    exists states', actions', times, end :: InconsistentLater(o, states, states', actions', times, end)
  }

  ghost predicate InconsistentLater(
    o: Options, states: seq<Run>, states': seq<Run>, actions': seq<Action>, times: seq<nat>, end: nat)
  {
    && 0 < |states| && Continues(o, states, states', actions') && end < |states'|
    && ScanTimes(times, o.clients, |states| - 1, end)
    && InRange(History(o, states'), times, o.clients)
    && !Consistent(o, states', times)
  }

  // ----- the quiet half

  lemma {:induction false} SamePublished(cs: seq<Counters>, ds: seq<Counters>)
    requires |cs| == |ds| && forall j :: 0 <= j < |cs| ==> cs[j].published == ds[j].published
    ensures Totals(cs).published == Totals(ds).published
  {
    if cs != [] {
      SamePublished(cs[..|cs| - 1], ds[..|ds| - 1]);
    }
  }

  /** When no client can come to publish, every snapshot from then on is consistent. */
  lemma QuietIsConsistent(o: Options, states: seq<Run>, actions: seq<Action>, times: seq<nat>, start: nat, end: nat)
    requires Execution(o, states, actions) && ScanTimes(times, o.clients, start, end) && end < |states|
    requires !MayPublish(o, states[start])
    ensures InRange(History(o, states), times, o.clients) && Consistent(o, states, times)
  {
    hide Execution, MayPublish, Totals;
    SnapshotSkewIsBounded(o, states, actions, times, start, end);
    var h: seq<seq<Counters>> := History(o, states);
    forall j: nat | j < o.clients ensures h[start][j].published == h[end][j].published {
      QuietForever(o, states, actions, start, end, j);
    }
    SamePublished(h[start], h[end]);
  }

  // ----- the other half

  /** Loads of the clients before j, and of what j has published, at one time; the rest later. */
  function SplitTimes(clients: nat, j: nat, early: nat, late: nat): (times: seq<nat>)
    ensures |times| == 4 * clients
  {
    seq(4 * clients, k => if k <= 4 * j then early else late)
  }

  lemma {:induction false} OneTooMany(seen: seq<Counters>, j: nat)
    requires j < |seen|
    requires forall i :: 0 <= i < |seen| ==>
               CountedOf(seen[i]) == PublishedOf(seen[i]) + (if i == j then 1 else 0)
    ensures CountedOf(Totals(seen)) == Totals(seen).published + 1
  {
    var last := |seen| - 1;
    if j < last {
      OneTooMany(seen[..last], j);
    } else {
      AllCounted(seen[..last]);
    }
  }

  lemma {:induction false} AllCounted(seen: seq<Counters>)
    requires forall i :: 0 <= i < |seen| ==> CountedOf(seen[i]) == PublishedOf(seen[i])
    ensures CountedOf(Totals(seen)) == Totals(seen).published
  {
    if seen != [] {
      AllCounted(seen[..|seen| - 1]);
    }
  }

  /** Client j is about to count a message; everything else is settled. */
  ghost predicate Poised(s: Run, j: nat) {
    && j < |s.publishers| && s.publishers[j].sender.CountingSent?
    && forall i :: 0 <= i < |s.publishers| ==> Settled(s.publishers[i])
  }

  /** From there, client j counts it and everything settles again: one more published. */
  ghost predicate OneMore(s: Run, t: Run, j: nat) {
    && |t.publishers| == |s.publishers|
    && forall i :: 0 <= i < |s.publishers| ==>
         Settled(t.publishers[i]) && t.publishers[i].published == s.publishers[i].published + (if i == j then 1 else 0)
  }

  lemma BecomePoised(o: Options, s: Run, outcome: P.Outcome) returns (t: Run, j: nat)
    requires ValidOptions(o) && Inv(o, s) && MayPublish(o, s)
    ensures CanReach(o, s, t) && Inv(o, t) && Poised(t, j)
    ensures AllWith(outcome, s) ==> AllWith(outcome, t)
  {
    hide CanReach, Inv, MayPublish, AllWith, Settled;
    var next;
    next, j := ReachCounting(o, s, outcome);
    t := Settle(o, next, outcome);
    ReachOn(o, s, next, t);
  }

  lemma CountOneMore(o: Options, s: Run, j: nat, outcome: P.Outcome) returns (t: Run)
    requires ValidOptions(o) && Inv(o, s) && Poised(s, j)
    ensures CanReach(o, s, t) && Inv(o, t) && OneMore(s, t, j)
    ensures AllWith(outcome, s) ==> AllWith(outcome, t)
  {
    hide CanReach, Inv, Settled, OnlyWith;
    if AllWith(outcome, s) {
      StaysWith(o.publish, s.publishers[j], P.CountSent, outcome);
    }
    var next := ClientStep(o, s, j, P.CountSent);
    t := Settle(o, next, outcome);
    ReachOn(o, s, next, t);
  }

  /** A snapshot that has read client j's published messages before, and the rest after, shows
      one result too many. */
  lemma SplitScanShowsOneTooMany(o: Options, states: seq<Run>, early: nat, late: nat, j: nat)
    requires early <= late < |states| && j < o.clients && Poised(states[early], j)
    requires OneMore(states[early], states[late], j)
    ensures ScanTimes(SplitTimes(o.clients, j, early, late), o.clients, early, late)
    ensures InRange(History(o, states), SplitTimes(o.clients, j, early, late), o.clients)
    ensures !Consistent(o, states, SplitTimes(o.clients, j, early, late))
  {
    hide Totals;
    var h, times := History(o, states), SplitTimes(o.clients, j, early, late);
    var seen := SeenAll(h, times, o.clients);
    forall i | 0 <= i < o.clients
      ensures CountedOf(seen[i]) == PublishedOf(seen[i]) + (if i == j then 1 else 0)
    {
      assert seen[i] == Seen(h, times, o.clients, i);
    }
    OneTooMany(seen, j);
  }

  /** Whenever some client can still come to publish, a continuation and a snapshot in it are
      inconsistent; and every wait in that continuation may end with the same given outcome. */
  lemma InconsistentSnapshot(o: Options, states: seq<Run>, actions: seq<Action>, outcome: P.Outcome)
      returns (states': seq<Run>, actions': seq<Action>, times: seq<nat>, end: nat)
    requires ValidOptions(o) && Execution(o, states, actions) && MayPublish(o, states[|states| - 1])
    ensures InconsistentLater(o, states, states', actions', times, end)
    ensures AllWith(outcome, states[|states| - 1]) ==> AllWith(outcome, states'[end])
  {
    hide CanReach, Inv, MayPublish, Poised, OneMore, AllWith, Consistent;
    ReachableInv(o, states, actions, |states| - 1);
    var s, j := BecomePoised(o, states[|states| - 1], outcome);
    var t := CountOneMore(o, s, j, outcome);
    var middle, sofar := Continue(o, states, actions, s);
    states', actions' := Continue(o, middle, sofar, t);
    var early := |middle| - 1;
    end := |states'| - 1;
    times := SplitTimes(o.clients, j, early, end);
    StartedAreClients(o, s, j);
    SplitScanShowsOneTooMany(o, states', early, end, j);
  }

  lemma StartedAreClients(o: Options, s: Run, j: nat)
    requires Inv(o, s) && Poised(s, j)
    ensures j < o.clients
  {
  }

  /** From any moment of any run on, snapshots with more results than messages are possible
      exactly as long as some client can still come to publish. */
  lemma MayBeInconsistentExactly(o: Options, states: seq<Run>, actions: seq<Action>)
    requires ValidOptions(o) && Execution(o, states, actions)
    ensures MayBeInconsistent(o, states) <==> MayPublish(o, states[|states| - 1])
  {
    hide MayPublish, Consistent;
    if MayPublish(o, states[|states| - 1]) {
      var states', actions', times, end := InconsistentSnapshot(o, states, actions, P.Acked);
    }
    if MayBeInconsistent(o, states) {
      var states', actions', times, end :| InconsistentLater(o, states, states', actions', times, end);
      if !MayPublish(o, states[|states| - 1]) {
        QuietIsConsistent(o, states', actions', times, |states| - 1, end);
      }
    }
  }

  // ----- more acked than published

  /** The snapshot taken from start to end shows more acked than published messages. */
  ghost predicate ShowsMoreAcked(
    o: Options, states: seq<Run>, actions: seq<Action>, times: seq<nat>, start: nat, end: nat)
  {
    && Execution(o, states, actions) && end < |states|
    && ScanTimes(times, o.clients, start, end) && InRange(History(o, states), times, o.clients)
    && var seen := Totals(SeenAll(History(o, states), times, o.clients));
       seen.acked > seen.published
  }

  lemma NothingFailed(o: Options, s: Run, i: nat)
    requires Inv(o, s) && AllWith(P.Acked, s)
    ensures CountersOf(s, i).failed == CountersOf(s, i).timedOut == 0
  {
    hide Sum, Gather;
    if i < |s.publishers| {
      SumZero(P.CountedFailed, s.publishers[i].waiters);
      SumZero(P.CountedTimedOut, s.publishers[i].waiters);
    }
  }

  lemma {:induction false} NoFailures(cs: seq<Counters>)
    requires forall i :: 0 <= i < |cs| ==> cs[i].failed == cs[i].timedOut == 0
    ensures Totals(cs).failed == Totals(cs).timedOut == 0
  {
    if cs != [] {
      NoFailures(cs[..|cs| - 1]);
    }
  }

  /** A run in which everything is acked, and a snapshot of it with more acked than published. */
  lemma MoreAckedSnapshot(o: Options)
      returns (states: seq<Run>, actions: seq<Action>, times: seq<nat>, end: nat)
    requires ValidOptions(o) && o.clients >= 1 && o.publish.count >= 1
    ensures ShowsMoreAcked(o, states, actions, times, 0, end)
  {
    hide Inv, Totals, AllWith;
    var start := [Init(o)];
    assert AllWith(P.Acked, Init(o)) by {
      NobodyWaits(o);
    }
    StartMayPublish(o);
    states, actions, times, end := InconsistentSnapshot(o, start, [], P.Acked);
    var h := History(o, states);
    HistoryGrows(o, states, actions);
    ScanBetweenTotals(h, times, o.clients, 0, end);
    ReachableInv(o, states, actions, end);
    forall i | 0 <= i < o.clients
      ensures CountersAt(o, states[end])[i].failed == CountersAt(o, states[end])[i].timedOut == 0
    {
      NothingFailed(o, states[end], i);
    }
    NoFailures(CountersAt(o, states[end]));
  }

  lemma NobodyWaits(o: Options)
    ensures AllWith(P.Acked, Init(o))
  {
  }

  lemma StartMayPublish(o: Options)
    ensures MayPublish(o, Init(o)) <==> o.clients >= 1 && o.publish.count >= 1
  {
  }

  /** That can happen exactly if there is something to publish at all. */
  lemma ShowsMoreAckedExactly(o: Options)
    requires ValidOptions(o)
    ensures (exists states, actions, times, start, end :: ShowsMoreAcked(o, states, actions, times, start, end))
            <==> o.clients >= 1 && o.publish.count >= 1
  {
    hide MayPublish, Totals, InRange;
    if o.clients >= 1 && o.publish.count >= 1 {
      var states, actions, times, end := MoreAckedSnapshot(o);
    } else {
      StartMayPublish(o);
      forall states, actions, times, start, end ensures !ShowsMoreAcked(o, states, actions, times, start, end) {
        if ShowsMoreAcked(o, states, actions, times, start, end) {
          QuietForever(o, states, actions, 0, start, 0);
          QuietIsConsistent(o, states, actions, times, start, end);
        }
      }
    }
  }
}
