/** What a publish run makes of what happened to it: of a cancellation, of each dial, of each
    outcome the broker gave, of each latency measured. The actions of a run are its history. */
module PublishRunHistory {
  import opened Counting
  import C = ConnectClients
  import P = PublishClient
  import opened PublishRun
  import opened PublishRunResults
  import opened CounterScan
  import opened RunSamples
  import opened AfterCancellation

  // ----- cancelled while connecting

  /** connectClients succeeds exactly if, when it decides, no failure has been reported and the
      context is not cancelled. */
  lemma ConnectsExactlyIf(o: Options, states: seq<Run>, actions: seq<Action>, m: nat)
    requires Execution(o, states, actions) && m < |actions|
    requires !states[m].group.caller.Done? && states[m + 1].group.caller.Done?
    ensures states[m + 1].group.caller.connected <==> !states[m].group.failed && !states[m].cancelled
  {
    hide Sum, Gather, ClientsOk, ChannelsOk, LatenciesOk, VerdictOk;
    ReachableInv(o, states, actions, m);
    ReachableInv(o, states, actions, m + 1);
  }

  /** RunPublish returns nil from a failed connect exactly if the context is cancelled by then. */
  lemma FailedConnectIsNilExactlyIf(o: Options, states: seq<Run>, actions: seq<Action>, m: nat)
    requires Execution(o, states, actions) && m < |actions|
    requires !states[m].main.Returned? && states[m + 1].main.Returned?
    requires states[m].group.caller == C.Done(false)
    ensures states[m + 1].main.verdict == if states[m].cancelled then Nil else ConnectError
  {
    hide Sum, Gather, ClientsOk, ChannelsOk, LatenciesOk, VerdictOk;
    ReachableInv(o, states, actions, m);
  }

  /** If the context is cancelled before connectClients has returned, it gives up, no client ever
      publishes, and RunPublish returns nil. */
  lemma {:induction false} CancelledWhileConnecting(
    o: Options, states: seq<Run>, actions: seq<Action>, j: nat, k: nat)
    requires Execution(o, states, actions) && j <= k < |states|
    requires states[j].cancelled && !states[j].group.caller.Done?
    ensures states[k].cancelled && states[k].group.caller != C.Done(true)
    ensures states[k].publishers == []
    ensures states[k].main.Returned? ==> states[k].main.verdict == Nil
  {
    hide Enabled, Apply, ClientsOk, ChannelsOk, LatenciesOk, C.Inv;
    ReachableInv(o, states, actions, k);
    if j < k {
      CancelledWhileConnecting(o, states, actions, j, k - 1);
      ReachableInv(o, states, actions, k - 1);
      CancelledVerdictStep(o, states[k - 1], actions[k - 1]);
    } else {
      NotReturnedYet(o, states[k]);
    }
  }

  lemma NotReturnedYet(o: Options, s: Run)
    requires Inv(o, s) && !s.group.caller.Done?
    ensures !s.main.Returned? && s.publishers == []
  {
    hide Sum, Gather, C.Inv;
  }

  lemma CancelledVerdictStep(o: Options, s: Run, a: Action)
    requires Inv(o, s) && Enabled(o, s, a) && s.cancelled && s.group.caller != C.Done(true)
    requires s.main.Returned? ==> s.main.verdict == Nil
    ensures Apply(o, s, a).main.Returned? ==> Apply(o, s, a).main.verdict == Nil
    ensures Inv(o, Apply(o, s, a)) && Apply(o, s, a).publishers == []
    ensures Apply(o, s, a).cancelled && Apply(o, s, a).group.caller != C.Done(true)
  {
    hide Sum, Gather, C.Inv, P.Inv, ClientsOk, ChannelsOk, LatenciesOk;
    StepKeepsInv(o, s, a);
  }

  /** A cancellation that comes before RunPublish has returned from a failed connect is enough. */
  lemma {:induction false} CancelledBeforeFailing(
    o: Options, states: seq<Run>, actions: seq<Action>, j: nat, k: nat)
    requires Execution(o, states, actions) && j <= k < |states|
    requires states[j].cancelled && !states[j].main.Returned? && states[k].group.caller == C.Done(false)
    ensures states[k].main.Returned? ==> states[k].main.verdict == Nil
  {
    hide Inv, Enabled, Apply;
    if j < k {
      CallerStaysDone(o, states, actions, k - 1);
      AtMostOneMoreMessage(o, states, actions, j, k - 1, 0);
      if states[k].main.Returned? {
        if states[k - 1].main.Returned? {
          CancelledBeforeFailing(o, states, actions, j, k - 1);
          ReturnedStays(o, states[k - 1], actions[k - 1]);
        } else {
          FailedConnectIsNilExactlyIf(o, states, actions, k - 1);
        }
      }
    }
  }

  lemma ReturnedStays(o: Options, s: Run, a: Action)
    requires Enabled(o, s, a) && s.main.Returned?
    ensures Apply(o, s, a).main == s.main
  {
  }

  /** Only a step of connecting changes the caller, and only before RunPublish has seen it done. */
  lemma CallerStaysDone(o: Options, states: seq<Run>, actions: seq<Action>, m: nat)
    requires Execution(o, states, actions) && m < |actions|
    ensures states[m + 1].main.Returned? ==> states[m].group.caller == states[m + 1].group.caller
  {
    hide Sum, Gather, C.Apply, C.Inv, ClientsOk, ChannelsOk, LatenciesOk, VerdictOk;
    ReachableInv(o, states, actions, m);
    if actions[m].Connect? {
      ConnectOnlyWhileConnecting(o, states[m], actions[m].c);
    }
  }

  // ----- which clients connect

  /** The dial of client n succeeds. */
  predicate DialSucceeds(s: Run, a: Action, n: nat) {
    a == Connect(C.Step(n, true)) && n < |s.group.connectors| && s.group.connectors[n].Dialing?
  }

  ghost predicate DialSucceededBefore(states: seq<Run>, actions: seq<Action>, k: nat, n: nat) {
    exists m :: 0 <= m < k && m < |actions| && m < |states| && DialSucceeds(states[m], actions[m], n)
  }

  /** The connector holds a connected client, in its slot or on the way there. */
  predicate HasClient(c: C.Connector) { c.Dialed? || C.HasStored(c) }

  predicate NHasClient(s: Run, n: nat) { n < |s.group.connectors| && HasClient(s.group.connectors[n]) }

  lemma ClientFromDial(o: Options, s: Run, a: Action, n: nat)
    requires Inv(o, s) && Enabled(o, s, a) && n < o.clients
    ensures NHasClient(Apply(o, s, a), n) <==> NHasClient(s, n) || DialSucceeds(s, a, n)
  {
    hide Sum, Gather, ClientsOk, ChannelsOk, LatenciesOk, VerdictOk, C.ConnectorsOk, C.DialsOk;
    hide C.ApplyStep, ApplyMain, HasClient;
    if a.Connect? {
      if a.c.Step? {
        C.StepShape(s.cancelled, s.group, a.c.n, a.c.ok);
        ClientEffect(s.cancelled, s.group, a.c.n, a.c.ok);
      } else if a.c.Launch? {
        NoClientYet();
      }
    } else if a.Proceed? {
      MainLeavesGroup(o, s);
    }
  }

  lemma NoClientYet()
    ensures !HasClient(C.Idle) && !HasClient(C.Checking)
  {
  }

  lemma MainLeavesGroup(o: Options, s: Run)
    requires CanProceed(s)
    ensures ApplyMain(o, s).group == s.group
  {
  }

  lemma ClientEffect(cancelled: bool, g: C.Group, n: nat, ok: bool)
    requires n < |g.connectors| == |g.slots| == |g.dials| && C.Running(g.connectors[n])
    ensures n < |C.ApplyStep(cancelled, g, n, ok).connectors|
    ensures HasClient(C.ApplyStep(cancelled, g, n, ok).connectors[n])
            <==> HasClient(g.connectors[n]) || (g.connectors[n].Dialing? && ok)
  {
  }

  lemma {:induction false} ClientsComeFromDials(
    o: Options, states: seq<Run>, actions: seq<Action>, k: nat, n: nat)
    requires Execution(o, states, actions) && k < |states| && n < o.clients
    ensures NHasClient(states[k], n) <==> DialSucceededBefore(states, actions, k, n)
  {
    hide Inv, Enabled, Apply, NHasClient, DialSucceeds;
    if k == 0 {
      NoClientsAtFirst(o, n);
    } else {
      ClientsComeFromDials(o, states, actions, k - 1, n);
      ReachableInv(o, states, actions, k - 1);
      ClientFromDial(o, states[k - 1], actions[k - 1], n);
    }
  }

  lemma NoClientsAtFirst(o: Options, n: nat)
    ensures !NHasClient(Init(o), n)
  {
  }

  /** When RunPublish has returned, the clients that connected, and so were disconnected, are
      exactly those whose dial succeeded. */
  lemma ConnectedExactlyIfDialed(o: Options, states: seq<Run>, actions: seq<Action>, k: nat, n: nat)
    requires Execution(o, states, actions) && k < |states| && n < o.clients && states[k].main.Returned?
    ensures Connected(states[k], n) <==> DialSucceededBefore(states, actions, k, n)
    ensures Disconnects(states[k], n) == if DialSucceededBefore(states, actions, k, n) then 1 else 0
  {
    hide Execution, DialSucceededBefore;
    ClientsComeFromDials(o, states, actions, k, n);
    EveryPathDisconnectsOnce(o, states, actions, k, n);
  }

  // ----- which outcomes are counted

  function CountedWith(x: P.Outcome, c: P.Client): nat {
    match x
    case Acked => c.acked
    case Failed => c.failed
    case TimedOut => c.timedOut
  }

  /** The wait is over with this outcome, which is not counted yet. */
  function PendingWith(x: P.Outcome): P.Waiter -> nat {
    (w: P.Waiter) =>
      match w
      case Answered(outcome) => if outcome == x then 1 else 0
      case SharedRecorded(_) => if x == P.Acked then 1 else 0
      case OwnRecorded => if x == P.Acked then 1 else 0
      case _ => 0
  }

  function EndedSoFar(x: P.Outcome): P.Client -> nat {
    (c: P.Client) => CountedWith(x, c) + Sum(PendingWith(x), c.waiters)
  }

  function EndsWith(x: P.Outcome): Action -> nat {
    (a: Action) => if a.Publish? && a.p.Answer? && a.p.outcome == x then 1 else 0
  }

  function IsSend(a: Action): nat { if a.Publish? && a.p.Send? then 1 else 0 }

  function SentOf(c: P.Client): nat { c.sent }

  lemma WaiterOutcome(o: P.Options, c: P.Client, p: P.Action, x: P.Outcome)
    requires P.Ready(o, c, p) && P.OfWaiter(p)
    ensures p.w < |P.Apply(o, c, p).waiters|
    ensures var c' := P.Apply(o, c, p);
            CountedWith(x, c') + PendingWith(x)(c'.waiters[p.w]) ==
              CountedWith(x, c) + PendingWith(x)(c.waiters[p.w]) + (if p.Answer? && p.outcome == x then 1 else 0)
  {
  }

  lemma SenderOutcome(o: P.Options, c: P.Client, p: P.Action, x: P.Outcome)
    requires P.Ready(o, c, p) && !P.OfWaiter(p)
    ensures CountedWith(x, P.Apply(o, c, p)) == CountedWith(x, c)
    ensures P.Apply(o, c, p).waiters == if p.Spawn? then c.waiters + [P.Waiting] else c.waiters
  {
  }

  lemma ClientOutcome(o: P.Options, c: P.Client, p: P.Action, x: P.Outcome)
    requires P.Ready(o, c, p)
    ensures EndedSoFar(x)(P.Apply(o, c, p)) == EndedSoFar(x)(c) + (if p.Answer? && p.outcome == x then 1 else 0)
  {
    hide Sum, P.Apply, P.Ready, CountedWith;
    if P.OfWaiter(p) {
      P.WaiterEffect(o, c, p);
      WaiterOutcome(o, c, p, x);
      SumUpdate(PendingWith(x), c.waiters, p.w, P.Apply(o, c, p).waiters[p.w]);
    } else {
      SenderOutcome(o, c, p, x);
      SumAppend(PendingWith(x), c.waiters, P.Waiting);
    }
  }

  lemma OutcomeStep(o: Options, s: Run, a: Action, x: P.Outcome)
    requires Enabled(o, s, a)
    ensures Sum(EndedSoFar(x), Apply(o, s, a).publishers) == Sum(EndedSoFar(x), s.publishers) + EndsWith(x)(a)
  {
    hide Sum, EndedSoFar, P.Enabled, P.Apply, C.Enabled, C.Apply;
    if a.Publish? {
      ReadyIfEnabled(o.publish, s.cancelled, s.publishers[a.i], a.p);
      ClientOutcome(o.publish, s.publishers[a.i], a.p, x);
      SumUpdate(EndedSoFar(x), s.publishers, a.i, P.Apply(o.publish, s.publishers[a.i], a.p));
    } else if a.Proceed? && s.main.Starting? {
      SumAppend(EndedSoFar(x), s.publishers, P.Init(o.publish));
      NothingEndedAtFirst(o.publish, x);
    }
  }

  lemma ReadyIfEnabled(o: P.Options, cancelled: bool, c: P.Client, p: P.Action)
    requires P.Enabled(o, cancelled, c, p)
    ensures P.Ready(o, c, p)
  {
  }

  lemma NothingEndedAtFirst(o: P.Options, x: P.Outcome)
    ensures EndedSoFar(x)(P.Init(o)) == 0
  {
  }

  lemma {:induction false} OutcomesSoFar(
    o: Options, states: seq<Run>, actions: seq<Action>, k: nat, x: P.Outcome)
    requires Execution(o, states, actions) && k < |states|
    ensures Sum(EndedSoFar(x), states[k].publishers) == Sum(EndsWith(x), actions[..k])
  {
    hide Enabled, Apply, EndedSoFar, EndsWith;
    if k > 0 {
      OutcomesSoFar(o, states, actions, k - 1, x);
      OutcomeStep(o, states[k - 1], actions[k - 1], x);
      assert actions[..k] == actions[..k - 1] + [actions[k - 1]];
    }
  }

  lemma SendStep(o: Options, s: Run, a: Action)
    requires Enabled(o, s, a)
    ensures Sum(SentOf, Apply(o, s, a).publishers) == Sum(SentOf, s.publishers) + IsSend(a)
  {
    hide Sum, C.Enabled, C.Apply;
    if a.Publish? {
      SumUpdate(SentOf, s.publishers, a.i, P.Apply(o.publish, s.publishers[a.i], a.p));
    } else if a.Proceed? && s.main.Starting? {
      SumAppend(SentOf, s.publishers, P.Init(o.publish));
    }
  }

  lemma {:induction false} SendsSoFar(o: Options, states: seq<Run>, actions: seq<Action>, k: nat)
    requires Execution(o, states, actions) && k < |states|
    ensures Sum(SentOf, states[k].publishers) == Sum(IsSend, actions[..k])
  {
    hide Enabled, Apply, SentOf, IsSend;
    if k > 0 {
      SendsSoFar(o, states, actions, k - 1);
      SendStep(o, states[k - 1], actions[k - 1]);
      assert actions[..k] == actions[..k - 1] + [actions[k - 1]];
    }
  }

  lemma {:induction false} SameSums(f: P.Client -> nat, g: P.Client -> nat, cs: seq<P.Client>)
    requires forall i :: 0 <= i < |cs| ==> f(cs[i]) == g(cs[i])
    ensures Sum(f, cs) == Sum(g, cs)
  {
    if cs != [] {
      SameSums(f, g, cs[..|cs| - 1]);
    }
  }

  /** When all clients have ended, the totals are those of the broker's side of the run: as many
      published as were handed over, and as many acked, failed and timed out as ended so. */
  lemma OutcomesAreCounted(o: Options, states: seq<Run>, actions: seq<Action>, k: nat)
    requires Execution(o, states, actions) && k < |states| && AllExited(states[k].main)
    ensures Sum(Published, states[k].publishers) == Sum(IsSend, actions[..k])
    ensures Sum(Acked, states[k].publishers) == Sum(EndsWith(P.Acked), actions[..k])
    ensures Sum(Failed, states[k].publishers) == Sum(EndsWith(P.Failed), actions[..k])
    ensures Sum(TimedOut, states[k].publishers) == Sum(EndsWith(P.TimedOut), actions[..k])
  {
    hide Sum, Gather, EndsWith, IsSend, Execution;
    SendsSoFar(o, states, actions, k);
    OutcomesSoFar(o, states, actions, k, P.Acked);
    OutcomesSoFar(o, states, actions, k, P.Failed);
    OutcomesSoFar(o, states, actions, k, P.TimedOut);
    ReachableInv(o, states, actions, k);
    var cs := states[k].publishers;
    forall i | 0 <= i < |cs|
      ensures Published(cs[i]) == SentOf(cs[i])
      ensures forall x :: EndedSoFar(x)(cs[i]) == CountedWith(x, cs[i])
    {
      NothingPending(o, states[k], i);
    }
    SameSums(Published, SentOf, cs);
    SameSums(Acked, EndedSoFar(P.Acked), cs);
    SameSums(Failed, EndedSoFar(P.Failed), cs);
    SameSums(TimedOut, EndedSoFar(P.TimedOut), cs);
  }

  lemma NothingPending(o: Options, s: Run, i: nat)
    requires Inv(o, s) && AllExited(s.main) && i < |s.publishers|
    ensures s.publishers[i].published == s.publishers[i].sent
    ensures forall x :: EndedSoFar(x)(s.publishers[i]) == CountedWith(x, s.publishers[i])
  {
    hide Sum, Gather;
    NotExitedZero(o, s, i);
    P.DrainedMeansDone(o.publish, s.publishers[i]);
    forall x ensures EndedSoFar(x)(s.publishers[i]) == CountedWith(x, s.publishers[i]) {
      SumZero(PendingWith(x), s.publishers[i].waiters);
    }
  }

  // ----- which latencies are recorded

  /** The latency measured in this step, if it is one of a client of the shard. */
  function MeasuredFor(o: Options, shard: nat): Action -> multiset<int> {
    (a: Action) =>
      if a.Publish? && a.p.RecordShared? && o.shards > 0 && a.i % o.shards == shard then multiset{a.p.microseconds}
      else multiset{}
  }

  function MeasuredBy(i: nat): Action -> multiset<int> {
    (a: Action) =>
      if a.Publish? && a.p.RecordShared? && a.i == i then multiset{a.p.microseconds} else multiset{}
  }

  lemma ShardStep(o: Options, s: Run, a: Action, shard: nat)
    requires Enabled(o, s, a) && |s.shards| == o.shards && shard < o.shards
    ensures |Apply(o, s, a).shards| == o.shards
    ensures multiset(Apply(o, s, a).shards[shard]) == multiset(s.shards[shard]) + MeasuredFor(o, shard)(a)
  {
    hide P.Enabled, P.Apply, C.Enabled, C.Apply;
  }

  /** At every moment a shared latency array holds exactly what the clients assigned to it have
      measured. */
  lemma {:induction false} ShardsHoldMeasurements(
    o: Options, states: seq<Run>, actions: seq<Action>, k: nat, shard: nat)
    requires Execution(o, states, actions) && k < |states| && shard < o.shards
    ensures |states[k].shards| == o.shards
    ensures multiset(states[k].shards[shard]) == Gather(MeasuredFor(o, shard), actions[..k])
  {
    hide Enabled, Apply, MeasuredFor;
    if k > 0 {
      ShardsHoldMeasurements(o, states, actions, k - 1, shard);
      ShardStep(o, states[k - 1], actions[k - 1], shard);
      assert actions[..k] == actions[..k - 1] + [actions[k - 1]];
    }
  }

  function SharedBy(s: Run, i: nat): multiset<int> {
    if i < |s.publishers| then multiset(s.publishers[i].shared) else multiset{}
  }

  lemma SharedStep(o: Options, s: Run, a: Action, i: nat)
    requires Enabled(o, s, a)
    ensures SharedBy(Apply(o, s, a), i) == SharedBy(s, i) + MeasuredBy(i)(a)
  {
    hide P.Enabled, P.Apply, C.Enabled, C.Apply, Recorded, ApplyMain, Judge;
    if a.Publish? {
      MeasureStep(o.publish, s.cancelled, s.publishers[a.i], a.p);
    } else if a.Proceed? {
      StartsWithNothing(o, s);
    }
  }

  lemma StartsWithNothing(o: Options, s: Run)
    requires CanProceed(s)
    ensures ApplyMain(o, s).publishers ==
              if s.main.Starting? then s.publishers + [P.Init(o.publish)] else s.publishers
    ensures P.Init(o.publish).shared == []
  {
  }

  lemma MeasureStep(o: P.Options, cancelled: bool, c: P.Client, p: P.Action)
    requires P.Enabled(o, cancelled, c, p)
    ensures P.Ready(o, c, p)
    ensures P.Apply(o, c, p).shared == if p.RecordShared? then c.shared + [p.microseconds] else c.shared
  {
  }

  lemma {:induction false} ClientsHoldMeasurements(
    o: Options, states: seq<Run>, actions: seq<Action>, k: nat, i: nat)
    requires Execution(o, states, actions) && k < |states|
    ensures SharedBy(states[k], i) == Gather(MeasuredBy(i), actions[..k])
  {
    hide Enabled, Apply, MeasuredBy, SharedBy;
    if k > 0 {
      ClientsHoldMeasurements(o, states, actions, k - 1, i);
      SharedStep(o, states[k - 1], actions[k - 1], i);
      assert actions[..k] == actions[..k - 1] + [actions[k - 1]];
    } else {
      NothingMeasuredAtFirst(o, i);
    }
  }

  lemma NothingMeasuredAtFirst(o: Options, i: nat)
    ensures SharedBy(Init(o), i) == multiset{}
  {
  }

  /** When a client has ended, its own counters, if kept, hold exactly what it has measured. */
  lemma OwnHoldsMeasurements(o: Options, states: seq<Run>, actions: seq<Action>, k: nat, i: nat)
    requires Execution(o, states, actions) && k < |states| && AllExited(states[k].main)
    requires o.publish.perClientStats && i < |states[k].publishers|
    ensures multiset(states[k].publishers[i].own) == Gather(MeasuredBy(i), actions[..k])
  {
    hide Sum, Gather, MeasuredBy, Execution;
    ClientsHoldMeasurements(o, states, actions, k, i);
    ReachableInv(o, states, actions, k);
    NotExitedZero(o, states[k], i);
    P.DrainedMeansDone(o.publish, states[k].publishers[i]);
  }

  // ----- the last snapshot

  lemma FrozenStep(o: Options, s: Run, a: Action)
    requires Inv(o, s) && Enabled(o, s, a) && AllExited(s.main)
    ensures AllExited(Apply(o, s, a).main) && Apply(o, s, a).publishers == s.publishers
  {
    hide Sum, Gather, C.Inv, P.Inv, C.Apply, P.Apply, P.Enabled, C.Enabled;
    if a.Publish? {
      PublishOnlyWhileWaiting(o, s, a.i, a.p);
    }
  }

  /** When all clients have ended, nothing changes any more. */
  lemma {:induction false} Frozen(o: Options, states: seq<Run>, actions: seq<Action>, j: nat, k: nat)
    requires Execution(o, states, actions) && j <= k < |states| && AllExited(states[j].main)
    ensures AllExited(states[k].main) && states[k].publishers == states[j].publishers
  {
    hide Inv, Enabled, Apply;
    if j < k {
      Frozen(o, states, actions, j, k - 1);
      ReachableInv(o, states, actions, k - 1);
      FrozenStep(o, states[k - 1], actions[k - 1]);
    }
  }

  lemma {:induction false} SameTotals(cs: seq<Counters>, ps: seq<P.Client>)
    requires |cs| == |ps|
    requires forall j :: 0 <= j < |cs| ==>
               cs[j] == Counters(ps[j].published, ps[j].acked, ps[j].failed, ps[j].timedOut)
    ensures Totals(cs) == Counters(Sum(Published, ps), Sum(Acked, ps), Sum(Failed, ps), Sum(TimedOut, ps))
  {
    if cs != [] {
      SameTotals(cs[..|cs| - 1], ps[..|ps| - 1]);
    }
  }

  /** A snapshot that starts when all clients have ended shows the true totals, so the result of
      RunPublish, whenever it comes, is that of this snapshot. */
  lemma LastSnapshotIsTrue(
    o: Options, states: seq<Run>, actions: seq<Action>, times: seq<nat>, start: nat, end: nat, k: nat)
    requires Execution(o, states, actions) && ScanTimes(times, o.clients, start, end) && end < |states|
    requires AllExited(states[start].main) && |states[start].publishers| == o.clients
    requires start <= k < |states|
    ensures InRange(History(o, states), times, o.clients)
    ensures var seen := Totals(SeenAll(History(o, states), times, o.clients));
            var cs := states[start].publishers;
            && seen == Counters(Sum(Published, cs), Sum(Acked, cs), Sum(Failed, cs), Sum(TimedOut, cs))
            && (states[k].main.Returned? && states[k].group.caller == C.Done(true) ==>
                 states[k].main.verdict ==
                   if seen.failed > 0 || seen.timedOut > 0
                   then PublishError(seen.published, seen.acked, seen.failed, seen.timedOut) else Nil)
  {
    hide Execution, Totals, Sum, Inv;
    var h, cs := History(o, states), states[start].publishers;
    assert |states| > 0;
    var seen: seq<Counters> := SeenAll(h, times, o.clients);
    forall j: nat | j < o.clients
      ensures seen[j] == Counters(cs[j].published, cs[j].acked, cs[j].failed, cs[j].timedOut)
    {
      Frozen(o, states, actions, start, times[4 * j]);
      Frozen(o, states, actions, start, times[4 * j + 1]);
      Frozen(o, states, actions, start, times[4 * j + 2]);
      Frozen(o, states, actions, start, times[4 * j + 3]);
      assert seen[j] == Seen(h, times, o.clients, j);
    }
    SameTotals(seen, cs);
    Frozen(o, states, actions, start, k);
    if states[k].main.Returned? {
      FinalVerdict(o, states, actions, k);
    }
  }
}
