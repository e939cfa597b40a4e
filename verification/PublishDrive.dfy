/** Continuations of a publish run that serve a purpose: until a client starts, until a client is
    about to count a message as published, and until every published message is counted. They
    are built from single steps; the measure of the run says that the building ends. */
module PublishDrive {
  import opened Counting
  import C = ConnectClients
  import P = PublishClient
  import opened PublishRun
  import opened PublishRunResults
  import opened PublishRunEnds
  import opened PublishRunReach

  // ----- who can still publish

  /** The client has a message to count as published, or can still come to one. */
  predicate ClientMayPublish(o: P.Options, cancelled: bool, c: P.Client) {
    match c.sender
    case Sending(_) => true
    case CountingSent(_) => true
    case Acquiring(_) => !cancelled
    case Registering(i) => !cancelled && i + 1 < o.count
    case Spawning(i) => !cancelled && i + 1 < o.count
    case Pacing(i) => !cancelled && i + 1 < o.count
    case _ => false
  }

  predicate StartedMayPublish(o: Options, s: Run) {
    exists i :: 0 <= i < |s.publishers| && ClientMayPublish(o.publish, s.cancelled, s.publishers[i])
  }

  predicate HasFailed(c: C.Connector) { (c.Returned? || c.Exiting? || c.Exited?) && !c.ok }

  /** Connecting cannot succeed any more. */
  predicate Doomed(g: C.Group) {
    || g.failed || g.caller.TearingDown? || g.caller == C.Done(false)
    || exists n :: 0 <= n < |g.connectors| && HasFailed(g.connectors[n])
  }

  /** A client that has not started yet can still come to publish. */
  predicate MayStart(o: Options, s: Run) {
    && !s.cancelled && o.publish.count > 0 && |s.publishers| < o.clients
    && match s.main
       case InConnect => !Doomed(s.group)
       case ReportingConnected => true
       case Adding(_) => true
       case Starting(_) => true
       case _ => false
  }

  predicate MayPublish(o: Options, s: Run) { StartedMayPublish(o, s) || MayStart(o, s) }

  // ----- once none can

  lemma ClientStaysQuiet(o: P.Options, cancelled: bool, c: P.Client, p: P.Action)
    requires P.Enabled(o, cancelled, c, p) && !ClientMayPublish(o, cancelled, c)
    ensures var c' := P.Apply(o, c, p); c'.published == c.published && !ClientMayPublish(o, cancelled, c')
  {
  }

  lemma StaysDoomed(o: C.Options, cancelled: bool, g: C.Group, a: C.Action)
    requires C.Inv(o, g) && C.Enabled(o, g, a) && Doomed(g)
    ensures Doomed(C.Apply(o, cancelled, g, a))
  {
    hide Sum, C.ConnectorsOk, C.DialsOk, C.ApplyStep;
    if a.Step? {
      C.StepShape(cancelled, g, a.n, a.ok);
      FailureEffect(cancelled, g, a.n, a.ok);
    }
    if n :| 0 <= n < |g.connectors| && HasFailed(g.connectors[n]) {
      var g' := C.Apply(o, cancelled, g, a);
      assert |g'.connectors| == |g.connectors| && HasFailed(g'.connectors[n]);
    }
  }

  lemma FailureEffect(cancelled: bool, g: C.Group, n: nat, ok: bool)
    requires n < |g.connectors| == |g.slots| == |g.dials| && C.Running(g.connectors[n])
    ensures var g' := C.ApplyStep(cancelled, g, n, ok);
            && |g'.connectors| == |g.connectors|
            && (g.failed ==> g'.failed) && (HasFailed(g.connectors[n]) ==> HasFailed(g'.connectors[n]))
  {
  }

  lemma DoomedFails(o: C.Options, g: C.Group)
    requires C.Inv(o, g) && g.caller.Done? && Doomed(g)
    ensures g.caller == C.Done(false)
  {
    if g.caller == C.Done(true) {
      C.AllOrNothing(o, g);
    }
  }

  lemma ProceedStaysQuiet(o: Options, s: Run)
    requires Inv(o, s) && CanProceed(s) && !MayPublish(o, s)
    ensures !MayPublish(o, ApplyMain(o, s)) && s.publishers <= ApplyMain(o, s).publishers
    ensures forall i :: |s.publishers| <= i < |ApplyMain(o, s).publishers| ==>
              ApplyMain(o, s).publishers[i].published == 0
  {
    hide Sum, Gather, C.Inv, P.Inv, Doomed;
    var t := ApplyMain(o, s);
    if s.main.InConnect? && Doomed(s.group) {
      DoomedFails(Connecting(o), s.group);
    }
    forall i | 0 <= i < |t.publishers| ensures !ClientMayPublish(o.publish, t.cancelled, t.publishers[i]) {
      if i < |s.publishers| {
        assert !ClientMayPublish(o.publish, s.cancelled, s.publishers[i]);
      }
    }
  }

  lemma CancelStaysQuiet(o: Options, s: Run)
    requires !MayPublish(o, s) && !s.cancelled
    ensures !MayPublish(o, s.(cancelled := true))
  {
    forall i | 0 <= i < |s.publishers| ensures !ClientMayPublish(o.publish, true, s.publishers[i]) {
      assert !ClientMayPublish(o.publish, false, s.publishers[i]);
    }
  }

  lemma PublishStaysQuiet(o: Options, s: Run, i: nat, p: P.Action)
    requires Enabled(o, s, Publish(i, p)) && !MayPublish(o, s)
    ensures !MayPublish(o, Apply(o, s, Publish(i, p)))
    ensures Apply(o, s, Publish(i, p)).publishers[i].published == s.publishers[i].published
  {
    hide P.Enabled, P.Apply, ClientMayPublish;
    var t := Apply(o, s, Publish(i, p));
    ClientStaysQuiet(o.publish, s.cancelled, s.publishers[i], p);
    forall k | 0 <= k < |t.publishers| ensures !ClientMayPublish(o.publish, t.cancelled, t.publishers[k]) {
      assert k != i ==> t.publishers[k] == s.publishers[k];
    }
  }

  function PublishedBy(s: Run, i: nat): nat { if i < |s.publishers| then s.publishers[i].published else 0 }

  /** Once no client can come to publish, none can ever again, and nothing more is counted. */
  lemma StaysQuiet(o: Options, s: Run, a: Action, i: nat)
    requires Inv(o, s) && Enabled(o, s, a) && !MayPublish(o, s)
    ensures !MayPublish(o, Apply(o, s, a))
    ensures PublishedBy(Apply(o, s, a), i) == PublishedBy(s, i)
  {
    hide Sum, Gather, C.Inv, C.Enabled, C.Apply, P.Inv, P.Enabled, P.Apply, ClientMayPublish, Doomed, ApplyMain;
    match a
    case Cancel => CancelStaysQuiet(o, s);
    case Connect(c) =>
      if s.main.InConnect? && Doomed(s.group) {
        StaysDoomed(Connecting(o), s.cancelled, s.group, c);
      }
      assert !StartedMayPublish(o, Apply(o, s, a));
    case Publish(k, p) => PublishStaysQuiet(o, s, k, p);
    case Proceed => ProceedStaysQuiet(o, s);
    case StopSampler => assert !StartedMayPublish(o, Apply(o, s, a));
  }

  lemma {:induction false} QuietForever(o: Options, states: seq<Run>, actions: seq<Action>, j: nat, k: nat, i: nat)
    requires Execution(o, states, actions) && j <= k < |states| && !MayPublish(o, states[j])
    ensures !MayPublish(o, states[k]) && PublishedBy(states[k], i) == PublishedBy(states[j], i)
  {
    hide Inv, Enabled, Apply, MayPublish, PublishedBy;
    if j < k {
      QuietForever(o, states, actions, j, k - 1, i);
      ReachableInv(o, states, actions, k - 1);
      StaysQuiet(o, states[k - 1], actions[k - 1], i);
    }
  }

  // ----- until the next client starts

  lemma StaysHopeful(o: C.Options, g: C.Group, a: C.Action)
    requires C.Inv(o, g) && C.Enabled(o, g, a) && !Doomed(g) && (a.Step? ==> a.ok)
    ensures !Doomed(C.Apply(o, false, g, a))
  {
    hide Sum, C.ConnectorsOk, C.DialsOk;
  }

  /** One step of connecting or of RunPublish towards the next start. */
  lemma TowardStart(o: Options, s: Run) returns (a: Action)
    requires ValidOptions(o) && Inv(o, s) && MayStart(o, s)
    ensures Enabled(o, s, a)
    ensures var t := Apply(o, s, a);
            && !t.cancelled
            && if s.main.Starting? then t.publishers == s.publishers + [P.Init(o.publish)]
               else MayStart(o, t) && t.publishers == s.publishers
  {
    hide Sum, Gather, C.Enabled, C.Apply, C.ConnectorsOk, C.DialsOk, C.CallerOk, Doomed, P.Inv;
    if s.main.InConnect? && !s.group.caller.Done? {
      var c := C.GroupCanMove(Connecting(o), s.group);
      a := Connect(c);
      StaysHopeful(Connecting(o), s.group, c);
    } else {
      a := Proceed;
      HopefulCaller(s.group);
    }
  }

  lemma HopefulCaller(g: C.Group)
    ensures !Doomed(g) ==> g.caller != C.Done(false)
  {
  }

  /** The next client starts. */
  lemma {:induction false} StartNext(o: Options, s: Run) returns (t: Run)
    requires ValidOptions(o) && Inv(o, s) && MayStart(o, s)
    ensures CanReach(o, s, t) && Inv(o, t) && !t.cancelled
    ensures t.publishers == s.publishers + [P.Init(o.publish)]
    decreases Rank(o, s)
  {
    hide Inv, Enabled, Apply, MayStart, Rank, Leads, CanReach;
    var a := TowardStart(o, s);
    t := Apply(o, s, a);
    StepKeepsInv(o, s, a);
    RankDecreases(o, s, a);
    RankNotNegative(o, t);
    if s.main.Starting? {
      ReachItself(o, t);
    } else {
      t := StartNext(o, t);
    }
    ReachNext(o, s, a, t);
  }

  // ----- until a client is about to count a message as published

  /** Every wait that is over has ended with this outcome. */
  ghost predicate OnlyWith(outcome: P.Outcome, c: P.Client) {
    forall k :: 0 <= k < |c.waiters| ==> EndedWith(outcome, c.waiters[k])
  }

  predicate EndedWith(outcome: P.Outcome, w: P.Waiter) {
    match w
    case Waiting => true
    case SharedRecorded(_) => outcome == P.Acked
    case OwnRecorded => outcome == P.Acked
    case Answered(other) => other == outcome
    case Counted(other) => other == outcome
    case Released(other) => other == outcome
    case Gone(other) => other == outcome
  }

  ghost predicate AllWith(outcome: P.Outcome, s: Run) {
    forall i :: 0 <= i < |s.publishers| ==> OnlyWith(outcome, s.publishers[i])
  }

  lemma StaysWith(o: P.Options, c: P.Client, p: P.Action, outcome: P.Outcome)
    requires P.Ready(o, c, p) && OnlyWith(outcome, c) && (p.Answer? ==> p.outcome == outcome)
    ensures OnlyWith(outcome, P.Apply(o, c, p))
  {
  }

  lemma TowardCounting(o: P.Options, cancelled: bool, c: P.Client, outcome: P.Outcome) returns (p: P.Action)
    requires P.Inv(o, c) && o.inFlight >= 1 && ClientMayPublish(o, cancelled, c) && !c.sender.CountingSent?
    ensures P.Enabled(o, cancelled, c, p) && ClientMayPublish(o, cancelled, P.Apply(o, c, p))
    ensures OnlyWith(outcome, c) ==> OnlyWith(outcome, P.Apply(o, c, p))
  {
    hide Sum, Gather, OnlyWith;
    p := P.ClientCanMove(o, cancelled, c, outcome);
    if OnlyWith(outcome, c) {
      StaysWith(o, c, p, outcome);
    }
  }

  /** Client j comes to the point of counting a message. */
  lemma {:induction false} ClientReachesCounting(o: Options, s: Run, j: nat, outcome: P.Outcome) returns (t: Run)
    requires ValidOptions(o) && Inv(o, s)
    requires j < |s.publishers| && ClientMayPublish(o.publish, s.cancelled, s.publishers[j])
    ensures CanReach(o, s, t) && Inv(o, t)
    ensures |t.publishers| == |s.publishers| && t.publishers[j].sender.CountingSent?
    ensures AllWith(outcome, s) ==> AllWith(outcome, t)
    decreases Rank(o, s)
  {
    hide Rank, ClientMayPublish, P.Enabled, P.Apply, P.Inv, PhaseOk, ChannelsOk, LatenciesOk, VerdictOk;
    hide OnlyWith, CanReach;
    if s.publishers[j].sender.CountingSent? {
      t := s;
      ReachItself(o, s);
    } else {
      var p := TowardCounting(o.publish, s.cancelled, s.publishers[j], outcome);
      var next := ClientStep(o, s, j, p);
      t := ClientReachesCounting(o, next, j, outcome);
      ReachOn(o, s, next, t);
    }
  }

  /** Some client comes to that point. */
  lemma ReachCounting(o: Options, s: Run, outcome: P.Outcome) returns (t: Run, j: nat)
    requires ValidOptions(o) && Inv(o, s) && MayPublish(o, s)
    ensures CanReach(o, s, t) && Inv(o, t)
    ensures j < |t.publishers| && t.publishers[j].sender.CountingSent?
    ensures AllWith(outcome, s) ==> AllWith(outcome, t)
  {
    hide Inv, MayStart, CanReach;
    if StartedMayPublish(o, s) {
      j :| 0 <= j < |s.publishers| && ClientMayPublish(o.publish, s.cancelled, s.publishers[j]);
      t := ClientReachesCounting(o, s, j, outcome);
    } else {
      var next := StartNext(o, s);
      j := |s.publishers|;
      assert o.publish.count > 0 by {
        CountIsPositive(o, s);
      }
      t := ClientReachesCounting(o, next, j, outcome);
      ReachOn(o, s, next, t);
    }
  }

  lemma CountIsPositive(o: Options, s: Run)
    requires MayStart(o, s)
    ensures o.publish.count > 0
  {
  }

  // ----- until every published message is counted

  /** All published messages are counted as acked, failed or timed out. */
  predicate Settled(c: P.Client) { c.published == c.acked + c.failed + c.timedOut }

  /** A client that is not settled can come closer to it, without publishing anything. */
  lemma TowardSettled(o: P.Options, cancelled: bool, c: P.Client, outcome: P.Outcome) returns (p: P.Action)
    requires P.Inv(o, c) && !Settled(c)
    ensures P.Enabled(o, cancelled, c, p)
    ensures var c' := P.Apply(o, c, p);
            && c'.published == c.published
            && (c.sender.CountingSent? ==> c'.sender == c.sender)
            && (OnlyWith(outcome, c) ==> OnlyWith(outcome, c'))
  {
    hide Sum, Gather, OnlyWith;
    P.WindowAndCounters(o, c);
    if c.sender.Registering? {
      p := P.Register;
    } else if c.sender.Spawning? {
      p := P.Spawn;
    } else {
      var k := SumWitness(P.Uncounted, c.waiters);
      p := P.WaiterAction(o, c, k, outcome);
    }
    if OnlyWith(outcome, c) {
      StaysWith(o, c, p, outcome);
    }
  }

  /** Every client settles; none publishes anything on the way. */
  lemma {:induction false} Settle(o: Options, s: Run, outcome: P.Outcome) returns (t: Run)
    requires ValidOptions(o) && Inv(o, s)
    ensures CanReach(o, s, t) && Inv(o, t)
    ensures |t.publishers| == |s.publishers|
    ensures forall i :: 0 <= i < |s.publishers| ==>
              && Settled(t.publishers[i]) && t.publishers[i].published == s.publishers[i].published
              && (s.publishers[i].sender.CountingSent? ==> t.publishers[i].sender == s.publishers[i].sender)
    ensures AllWith(outcome, s) ==> AllWith(outcome, t)
    decreases Rank(o, s)
  {
    hide Rank, P.Enabled, P.Apply, P.Inv, PhaseOk, ChannelsOk, LatenciesOk, VerdictOk, OnlyWith, CanReach, Settled;
    if i :| 0 <= i < |s.publishers| && !Settled(s.publishers[i]) {
      var p := TowardSettled(o.publish, s.cancelled, s.publishers[i], outcome);
      var next := ClientStep(o, s, i, p);
      t := Settle(o, next, outcome);
      ReachOn(o, s, next, t);
    } else {
      t := s;
      ReachItself(o, s);
    }
  }
}
