/** Every publish run ends: no reachable state is stuck, and no run can go on for longer than a
    bound that follows from the options alone. */
module PublishRunEnds {
  import opened Counting
  import C = ConnectClients
  import P = PublishClient
  import opened PublishRun
  import opened PublishRunResults

  /** Until RunPublish has returned, something can move without a cancellation from outside. */
  lemma RunCanMove(o: Options, s: Run) returns (a: Action)
    requires ValidOptions(o) && Inv(o, s) && !s.main.Returned?
    ensures Enabled(o, s, a) && !a.Cancel?
  {
    hide Sum, Gather;
    if CanProceed(s) {
      a := Proceed;
    } else if s.main.InConnect? {
      var c := C.GroupCanMove(Connecting(o), s.group);
      a := Connect(c);
    } else if s.main.AwaitingSampler? {
      a := StopSampler;
    } else {
      var i := SumWitness(NotExited, s.publishers);
      var p := P.ClientCanMove(o.publish, s.cancelled, s.publishers[i], P.TimedOut);
      a := Publish(i, p);
    }
  }

  /** A run that has come to rest, apart from a possible late cancellation, has returned, and
      no goroutine it started is left behind. */
  lemma RestMeansReturned(o: Options, states: seq<Run>, actions: seq<Action>, k: nat)
    requires ValidOptions(o) && Execution(o, states, actions) && k < |states|
    requires forall a: Action :: Enabled(o, states[k], a) ==> a.Cancel?
    ensures states[k].main.Returned?
    ensures forall i :: 0 <= i < |states[k].publishers| ==> states[k].publishers[i].sender.Exited?
    ensures forall n :: 0 <= n < |states[k].group.connectors| ==> states[k].group.connectors[n].Exited?
    ensures !states[k].sampler.Sampling?
  {
    hide Sum, Gather;
    ReachableInv(o, states, actions, k);
    var s := states[k];
    if !s.main.Returned? {
      var a := RunCanMove(o, s);
    } else {
      C.AllOrNothing(Connecting(o), s.group);
      forall i | 0 <= i < |s.publishers| ensures s.publishers[i].sender.Exited? {
        NotExitedZero(o, s, i);
      }
      assert !Enabled(o, s, StopSampler);
    }
  }

  // ----- the measure

  /** More than one client can take, from the start of its goroutine. */
  function ClientBudget(o: Options): nat { 20 * o.publish.count + 12 }

  /** What the clients that are still to be started can take. */
  function Unstarted(o: Options, n: int): int { n * ClientBudget(o) }

  lemma UnstartedFacts(o: Options, n: int)
    requires n >= 0
    ensures Unstarted(o, n) >= 0
    ensures Unstarted(o, n) == Unstarted(o, n - 1) + ClientBudget(o)
  {
    assert (n - 1) * ClientBudget(o) == n * ClientBudget(o) - ClientBudget(o);
  }

  function ClientRank(o: P.Options): P.Client -> nat {
    c => if P.Rank(o, c) >= 0 then P.Rank(o, c) else 0
  }

  function MainRank(o: Options, m: Main): int {
    match m
    case InConnect => Unstarted(o, o.clients) + 8
    case ReportingFailure => 4
    case FinishingFailure => 3
    case JudgingFailure => 2
    case ReportingConnected => Unstarted(o, o.clients) + 7
    case Adding(n) => Unstarted(o, o.clients - n) + 6
    case Starting(n) => Unstarted(o, o.clients - n) + 5
    case AwaitingClients => 5
    case Finishing => 4
    case AwaitingSampler => 3
    case Judging => 2
    case Returned(_) => 0
  }

  function Rank(o: Options, s: Run): int {
    (if s.cancelled then 0 else 1) + (if s.sampler.Stopped? then 0 else 1)
    + MainRank(o, s.main) + C.Rank(Connecting(o), s.group) + Sum(ClientRank(o.publish), s.publishers)
  }

  /** The largest number of steps a run can take. */
  function StepBound(o: Options): nat {
    o.clients * ClientBudget(o) + 10 * o.clients + 14
  }

  lemma MainRankDrops(o: Options, s: Run)
    requires Inv(o, s) && CanProceed(s) && !s.main.Starting?
    ensures MainRank(o, ApplyMain(o, s).main) < MainRank(o, s.main)
  {
    hide Sum, Gather, C.Inv, P.Inv, Unstarted;
    UnstartedFacts(o, o.clients);
    if s.main.Adding? {
      UnstartedFacts(o, o.clients - s.main.next);
    }
  }

  lemma StartingRankDrops(o: Options, s: Run)
    requires Inv(o, s) && s.main.Starting?
    ensures Rank(o, ApplyMain(o, s)) < Rank(o, s)
  {
    hide Sum, Gather, C.Inv, P.Inv, C.Rank, Unstarted;
    UnstartedFacts(o, o.clients - s.main.next);
    P.RankFromStart(o.publish);
    SumAppend(ClientRank(o.publish), s.publishers, P.Init(o.publish));
  }

  lemma PublishRankDrops(o: Options, s: Run, i: nat, p: P.Action)
    requires Inv(o, s) && Enabled(o, s, Publish(i, p))
    ensures Sum(ClientRank(o.publish), ApplyPublish(o, s, i, p).publishers) < Sum(ClientRank(o.publish), s.publishers)
  {
    hide Sum, Gather, C.Inv, P.Inv, P.Rank;
    var after := P.Apply(o.publish, s.publishers[i], p);
    P.RankDecreases(o.publish, s.cancelled, s.publishers[i], p);
    SumUpdate(ClientRank(o.publish), s.publishers, i, after);
  }

  /** Every step of every goroutine brings the run closer to its end. */
  lemma RankDecreases(o: Options, s: Run, a: Action)
    requires Inv(o, s) && Enabled(o, s, a)
    ensures Rank(o, Apply(o, s, a)) < Rank(o, s)
  {
    hide Sum, Gather, C.Inv, P.Inv, MainRank, C.Rank;
    match a
    case Cancel =>
    case Connect(c) => C.RankDecreases(Connecting(o), s.cancelled, s.group, c);
    case Publish(i, p) => PublishRankDrops(o, s, i, p);
    case Proceed =>
      if s.main.Starting? {
        StartingRankDrops(o, s);
      } else {
        MainRankDrops(o, s);
      }
    case StopSampler =>
  }

  lemma RankNotNegative(o: Options, s: Run)
    requires Inv(o, s)
    ensures Rank(o, s) >= 0
  {
    hide Sum, Gather, Unstarted;
    UnstartedFacts(o, o.clients);
    if s.main.Adding? || s.main.Starting? {
      UnstartedFacts(o, o.clients - s.main.next);
    }
  }

  lemma {:induction false} RankAlongRun(o: Options, states: seq<Run>, actions: seq<Action>, k: nat)
    requires Execution(o, states, actions) && k < |states|
    ensures Rank(o, states[k]) + k <= Rank(o, Init(o))
  {
    hide Sum, Gather, Inv, Rank;
    if k > 0 {
      RankAlongRun(o, states, actions, k - 1);
      ReachableInv(o, states, actions, k - 1);
      RankDecreases(o, states[k - 1], actions[k - 1]);
    }
  }

  /** No run, however its goroutines are scheduled, takes more steps than the bound. */
  lemma EveryRunEnds(o: Options, states: seq<Run>, actions: seq<Action>)
    requires Execution(o, states, actions)
    ensures |actions| <= StepBound(o)
  {
    var last := |actions|;
    RankAlongRun(o, states, actions, last);
    ReachableInv(o, states, actions, last);
    RankNotNegative(o, states[last]);
    C.RankFromStart(Connecting(o));
  }
}
