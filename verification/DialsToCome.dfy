/** Which clients may still be dialed, at any moment of a publish run, and what that means for the
    promise that no connect is begun after a failure or a cancellation. */
module DialsToCome {
  import opened Counting
  import C = ConnectClients
  import opened PublishRun
  import opened PublishRunResults
  import opened PublishRunEnds
  import opened PublishRunReach
  import opened PublishDrive

  /** Its function has returned an error that has not been reported yet. */
  function IsFailing(c: C.Connector): nat { if c == C.Returned(false) then 1 else 0 }

  /** Client n can still be dialed: its goroutine has passed the check, or will pass it unless
      something happens before, or can be started while those that have failed have not said so. */
  predicate MayDial(o: C.Options, cancelled: bool, g: C.Group, n: nat) {
    && n < |g.connectors|
    && match g.connectors[n]
       case Cleared => true
       case Checking => !cancelled && !g.failed
       case Idle => !cancelled && !g.failed && Sum(IsFailing, g.connectors) < o.limit
       case _ => false
  }

  // ----- once it cannot

  /** If the goroutines that have failed fill the limit, no other is running. */
  lemma OnlyFailingRun(o: C.Options, g: C.Group, m: nat)
    requires C.Inv(o, g) && Sum(IsFailing, g.connectors) >= o.limit
    requires m < o.clients && C.Running(g.connectors[m])
    ensures g.connectors[m] == C.Returned(false)
  {
    var others := g.connectors[m := C.Idle];
    SumUpdate(IsFailing, g.connectors, m, C.Idle);
    SumUpdate(C.IsRunning, g.connectors, m, C.Idle);
    SumAtMost(IsFailing, C.IsRunning, others);
  }

  lemma GroupStaysUndialed(o: C.Options, cancelled: bool, g: C.Group, a: C.Action, n: nat)
    requires C.Inv(o, g) && C.Enabled(o, g, a) && n < o.clients && !MayDial(o, cancelled, g, n)
    ensures var g' := C.Apply(o, cancelled, g, a);
            C.Shaped(o, g') && g'.dials[n] == g.dials[n] && !MayDial(o, cancelled, g', n)
  {
    hide Sum, C.ApplyStep, C.DialedAsOften;
    if a.Step? {
      C.StepShape(cancelled, g, a.n, a.ok);
      C.DialEffect(cancelled, g, a.n, a.ok);
      if g.connectors[n].Idle? && !cancelled && !g.failed {
        OnlyFailingRun(o, g, a.n);
      }
    } else if a.Launch? {
      SumUpdate(IsFailing, g.connectors, g.caller.next, C.Checking);
      SumAtMost(IsFailing, C.IsRunning, g.connectors);
    }
  }

  lemma StaysUndialed(o: Options, s: Run, a: Action, n: nat)
    requires Inv(o, s) && Enabled(o, s, a) && n < o.clients && !MayDial(Connecting(o), s.cancelled, s.group, n)
    ensures var s' := Apply(o, s, a);
            && n < |s.group.dials| && n < |s'.group.dials| && s'.group.dials[n] == s.group.dials[n]
            && !MayDial(Connecting(o), s'.cancelled, s'.group, n)
  {
    hide Sum, Gather, C.Enabled, C.Apply, C.ConnectorsOk, C.DialsOk, C.CallerOk, ClientsOk, ChannelsOk, LatenciesOk;
    if a.Connect? {
      GroupStaysUndialed(Connecting(o), s.cancelled, s.group, a.c, n);
    }
  }

  lemma {:induction false} UndialedForever(
    o: Options, states: seq<Run>, actions: seq<Action>, j: nat, k: nat, n: nat)
    requires Execution(o, states, actions) && j <= k < |states| && n < o.clients
    requires !MayDial(Connecting(o), states[j].cancelled, states[j].group, n)
    ensures n < |states[j].group.dials| && n < |states[k].group.dials|
    ensures states[k].group.dials[n] == states[j].group.dials[n]
    ensures !MayDial(Connecting(o), states[k].cancelled, states[k].group, n)
  {
    hide Inv, Enabled, Apply, MayDial;
    if j < k {
      UndialedForever(o, states, actions, j, k - 1, n);
      ReachableInv(o, states, actions, k - 1);
      StaysUndialed(o, states[k - 1], actions[k - 1], n);
    } else {
      OneSlotEach(o, states, actions, j);
    }
  }

  lemma OneSlotEach(o: Options, states: seq<Run>, actions: seq<Action>, j: nat)
    requires Execution(o, states, actions) && j < |states|
    ensures C.Shaped(Connecting(o), states[j].group)
  {
    ReachableInv(o, states, actions, j);
  }

  // ----- as long as it can

  /** One step of connecting towards the launch of client n, by a goroutine that has not failed. */
  lemma TowardLaunch(o: C.Options, g: C.Group, n: nat) returns (a: C.Action)
    requires C.Inv(o, g) && n < o.clients && g.connectors[n].Idle? && MayDial(o, false, g, n)
    ensures C.Enabled(o, g, a)
    ensures var g' := C.Apply(o, false, g, a);
            C.Shaped(o, g') && MayDial(o, false, g', n) && g'.dials[n] == g.dials[n]
  {
    hide Sum, C.ApplyStep, C.DialedAsOften;
    if g.active < o.limit {
      a := C.Launch;
      SumUpdate(IsFailing, g.connectors, g.caller.next, C.Checking);
    } else {
      var m := SumGap(IsFailing, C.IsRunning, g.connectors);
      a := C.Step(m, true);
      C.StepShape(false, g, m, true);
      C.DialEffect(false, g, m, true);
      SumUpdate(IsFailing, g.connectors, m, C.Apply(o, false, g, a).connectors[m]);
    }
  }

  lemma TowardDial(o: C.Options, cancelled: bool, g: C.Group, n: nat) returns (a: C.Action)
    requires C.Inv(o, g) && n < o.clients && MayDial(o, cancelled, g, n)
    ensures C.Enabled(o, g, a)
    ensures var g' := C.Apply(o, cancelled, g, a);
            && C.Shaped(o, g')
            && if g.connectors[n].Cleared? then g'.dials[n] > g.dials[n]
               else MayDial(o, cancelled, g', n) && g'.dials[n] == g.dials[n]
  {
    hide Sum, C.ApplyStep, C.ConnectorsOk, C.DialsOk, C.CallerOk;
    if g.connectors[n].Idle? {
      a := TowardLaunch(o, g, n);
    } else {
      a := C.Step(n, true);
      C.StepShape(cancelled, g, n, true);
      C.DialEffect(cancelled, g, n, true);
    }
  }

  lemma {:induction false} ReachDial(o: Options, s: Run, n: nat) returns (t: Run)
    requires Inv(o, s) && n < o.clients && MayDial(Connecting(o), s.cancelled, s.group, n)
    ensures CanReach(o, s, t)
    ensures n < |s.group.dials| && n < |t.group.dials| && t.group.dials[n] > s.group.dials[n]
    decreases Rank(o, s)
  {
    hide Rank, CanReach, Inv, MayDial, C.Enabled, C.Apply, C.ConnectorsOk, C.DialsOk, C.CallerOk;
    GroupInv(o, s);
    var a := TowardDial(Connecting(o), s.cancelled, s.group, n);
    t := ConnectStep(o, s, a);
    if !s.group.connectors[n].Cleared? {
      var next := t;
      t := ReachDial(o, next, n);
      ReachOn(o, s, next, t);
    }
  }

  /** Client n is dialed in some continuation of the run. */
  ghost predicate MayStillDial(o: Options, states: seq<Run>, n: nat) {
    exists states', actions', k :: DialsLater(o, states, states', actions', k, n)
  }

  ghost predicate DialsLater(
    o: Options, states: seq<Run>, states': seq<Run>, actions': seq<Action>, k: nat, n: nat)
  {
    && Continues(o, states, states', actions')
    && 0 < |states| <= k < |states'|
    && n < |states[|states| - 1].group.dials| && n < |states'[k].group.dials|
    && states'[k].group.dials[n] > states[|states| - 1].group.dials[n]
  }

  /** At every moment of every run: client n is dialed in some continuation exactly if its
      goroutine and the state of the group allow it. */
  lemma MayStillDialExactly(o: Options, states: seq<Run>, actions: seq<Action>, n: nat)
    requires Execution(o, states, actions) && n < o.clients
    ensures var s := states[|states| - 1];
            MayStillDial(o, states, n) <==> MayDial(Connecting(o), s.cancelled, s.group, n)
  {
    hide Inv, Enabled, Apply, MayDial, Leads, CanReach;
    var j := |states| - 1;
    var s := states[j];
    ReachableInv(o, states, actions, j);
    if MayDial(Connecting(o), s.cancelled, s.group, n) {
      var t := ReachDial(o, s, n);
      var states', actions' := Continue(o, states, actions, t);
      assert DialsLater(o, states, states', actions', |states'| - 1, n);
    } else if MayStillDial(o, states, n) {
      var states', actions', k :| DialsLater(o, states, states', actions', k, n);
      assert states'[j] == s;
      UndialedForever(o, states', actions', j, k, n);
    }
  }

  // ----- a dial after a failure or a cancellation

  /** A connect of client n is begun between instants j and k of a run. */
  ghost predicate DialsBetween(o: Options, states: seq<Run>, actions: seq<Action>, j: nat, k: nat, n: nat) {
    && Execution(o, states, actions) && j <= k < |states|
    && n < |states[j].group.dials| && n < |states[k].group.dials|
    && states[k].group.dials[n] > states[j].group.dials[n]
  }

  lemma DialedIfItCouldBe(o: Options, states: seq<Run>, actions: seq<Action>, j: nat, k: nat, n: nat)
    requires DialsBetween(o, states, actions, j, k, n)
    ensures Inv(o, states[j]) && C.Shaped(Connecting(o), states[j].group) && n < o.clients
    ensures MayDial(Connecting(o), states[j].cancelled, states[j].group, n)
  {
    hide MayDial, Enabled, Apply;
    ReachableInv(o, states, actions, j);
    OneSlotEach(o, states, actions, j);
    if !MayDial(Connecting(o), states[j].cancelled, states[j].group, n) {
      UndialedForever(o, states, actions, j, k, n);
    }
  }

  lemma DialedFrom(o: Options, s: Run, n: nat) returns (states: seq<Run>, actions: seq<Action>, j: nat, k: nat)
    requires CanReach(o, Init(o), s) && Inv(o, s)
    requires n < o.clients && MayDial(Connecting(o), s.cancelled, s.group, n)
    ensures DialsBetween(o, states, actions, j, k, n) && states[j] == s
  {
    hide CanReach, MayDial, Inv;
    var t := ReachDial(o, s, n);
    var first, begun := Continue(o, [Init(o)], [], s);
    states, actions := Continue(o, first, begun, t);
    j, k := |first| - 1, |states| - 1;
  }

  predicate NoneCleared(g: C.Group) {
    forall n :: 0 <= n < |g.connectors| ==> !g.connectors[n].Cleared?
  }

  /** With one client, or one connect at a time, the goroutine that fails is alone. */
  predicate OneAtATime(o: Options) { o.clients < 2 || o.connectConcurrency < 2 }

  lemma OnlyOneRuns(o: C.Options, g: C.Group, m: nat, n: nat)
    requires C.Inv(o, g) && (o.clients < 2 || o.limit < 2) && m < o.clients && n < o.clients
    requires C.Running(g.connectors[m]) && C.Running(g.connectors[n])
    ensures m == n
  {
    if m != n {
      SumUpdate(C.IsRunning, g.connectors, m, C.Idle);
      SumAtLeast(C.IsRunning, g.connectors[m := C.Idle], n);
    }
  }

  lemma FailsAlone(o: C.Options, cancelled: bool, g: C.Group, a: C.Action)
    requires C.Inv(o, g) && C.Enabled(o, g, a) && (o.clients < 2 || o.limit < 2)
    requires g.failed ==> NoneCleared(g)
    ensures C.Apply(o, cancelled, g, a).failed ==> NoneCleared(C.Apply(o, cancelled, g, a))
  {
    hide Sum, C.ApplyStep, C.ConnectorsOk, C.DialsOk, C.CallerOk;
    if a.Step? {
      C.StepShape(cancelled, g, a.n, a.ok);
      C.DialEffect(cancelled, g, a.n, a.ok);
      forall m | 0 <= m < o.clients && m != a.n ensures !g.connectors[m].Cleared? {
        if g.connectors[m].Cleared? {
          OnlyOneRuns(o, g, m, a.n);
        }
      }
    }
  }

  lemma {:induction false} FailedAlone(o: Options, states: seq<Run>, actions: seq<Action>, k: nat)
    requires Execution(o, states, actions) && k < |states| && OneAtATime(o)
    ensures states[k].group.failed ==> NoneCleared(states[k].group)
  {
    hide Inv, NoneCleared, Enabled, Apply;
    if k > 0 {
      FailedAlone(o, states, actions, k - 1);
      ReachableInv(o, states, actions, k - 1);
      StepFailsAlone(o, states[k - 1], actions[k - 1]);
    } else {
      NotFailedAtFirst(o);
    }
  }

  lemma NotFailedAtFirst(o: Options)
    ensures !Init(o).group.failed
  {
  }

  lemma StepFailsAlone(o: Options, s: Run, a: Action)
    requires Inv(o, s) && Enabled(o, s, a) && OneAtATime(o)
    requires s.group.failed ==> NoneCleared(s.group)
    ensures Apply(o, s, a).group.failed ==> NoneCleared(Apply(o, s, a).group)
  {
    hide Sum, Gather, PhaseOk, ClientsOk, ChannelsOk, LatenciesOk, VerdictOk, C.Apply, C.Enabled, C.Inv, NoneCleared;
    GroupInv(o, s);
    if a.Connect? {
      FailsAlone(Connecting(o), s.cancelled, s.group, a.c);
    }
  }


  /** Client 0 has failed and not said so; client 1 has not even been launched. */
  lemma FirstFails(o: Options) returns (t: Run)
    requires !OneAtATime(o)
    ensures CanReach(o, Init(o), t) && Inv(o, t) && !t.cancelled
    ensures var g := t.group;
            && !g.failed && |g.connectors| == |g.dials| == o.clients && g.dials[0] == 1
            && g.connectors == C.Init(Connecting(o)).connectors[0 := C.Returned(false)]
  {
    hide CanReach, Inv, Sum, Gather;
    InitInv(o);
    var s1 := ConnectStep(o, Init(o), C.Launch);
    var s2 := ConnectStep(o, s1, C.Step(0, true));
    ReachOn(o, Init(o), s1, s2);
    var s3 := ConnectStep(o, s2, C.Step(0, true));
    ReachOn(o, Init(o), s2, s3);
    t := ConnectStep(o, s3, C.Step(0, false));
    ReachOn(o, Init(o), s3, t);
  }

  lemma OneIsFailing(cs: seq<C.Connector>)
    requires |cs| >= 2 && cs[0] == C.Returned(false) && forall n :: 1 <= n < |cs| ==> cs[n].Idle?
    ensures Sum(IsFailing, cs) <= 1
  {
    SumFewInHead(IsFailing, cs, 1);
  }

  /** Then client 1 passes the check, and only after that the failure is reported. */
  lemma FailureBeforeDial(o: Options) returns (t: Run)
    requires !OneAtATime(o)
    ensures CanReach(o, Init(o), t) && Inv(o, t)
    ensures t.group.failed && |t.group.connectors| == o.clients && t.group.connectors[1].Cleared?
  {
    hide CanReach, Inv, Sum, Gather;
    InitInv(o);
    var s := ConnectStep(o, Init(o), C.Launch);
    var s1 := ConnectStep(o, s, C.Launch);
    ReachOn(o, Init(o), s, s1);
    var s2 := ConnectStep(o, s1, C.Step(0, true));
    ReachOn(o, Init(o), s1, s2);
    var s3 := ConnectStep(o, s2, C.Step(1, true));
    ReachOn(o, Init(o), s2, s3);
    var s4 := ConnectStep(o, s3, C.Step(0, true));
    ReachOn(o, Init(o), s3, s4);
    var s5 := ConnectStep(o, s4, C.Step(0, false));
    ReachOn(o, Init(o), s4, s5);
    t := ConnectStep(o, s5, C.Step(0, true));
    ReachOn(o, Init(o), s5, t);
  }

  /** A connect can begin after one has been reported as failed exactly if two clients can
      connect at once. */
  lemma DialsAfterFailureExactly(o: Options)
    ensures (exists states: seq<Run>, actions: seq<Action>, j: nat, k: nat, n: nat ::
               DialsBetween(o, states, actions, j, k, n) && states[j].group.failed)
            <==> o.clients >= 2 && o.connectConcurrency >= 2
  {
    hide Leads, CanReach, Inv, Apply, Enabled;
    if OneAtATime(o) {
      forall states: seq<Run>, actions: seq<Action>, j: nat, k: nat, n: nat
        ensures DialsBetween(o, states, actions, j, k, n) ==> !states[j].group.failed
      {
        if DialsBetween(o, states, actions, j, k, n) {
          DialedIfItCouldBe(o, states, actions, j, k, n);
          FailedAlone(o, states, actions, j);
        }
      }
    } else {
      var s := FailureBeforeDial(o);
      var states, actions, j, k := DialedFrom(o, s, 1);
    }
  }

  /** Some connect has returned an error, reported or not. */
  ghost predicate ConnectErred(s: Run) {
    exists m :: 0 <= m < |s.group.connectors| && Erred(s.group, m)
  }

  predicate Erred(g: C.Group, m: nat)
    requires m < |g.connectors|
  {
    HasFailed(g.connectors[m]) && m < |g.dials| && g.dials[m] > 0
  }

  lemma ErredAlone(o: C.Options, cancelled: bool, g: C.Group, m: nat, n: nat)
    requires C.Inv(o, g) && (o.clients < 2 || o.limit < 2) && m < o.clients && n < o.clients
    requires HasFailed(g.connectors[m]) && !g.failed
    ensures !MayDial(o, cancelled, g, n)
  {
    hide Sum;
    if MayDial(o, cancelled, g, n) {
      assert !C.HasReportedError(g.connectors[m]);
      if g.connectors[n].Idle? {
        SumAtLeast(IsFailing, g.connectors, m);
      } else {
        OnlyOneRuns(o, g, m, n);
      }
    }
  }

  /** A connect can begin after another one has returned an error, under the same condition. */
  lemma DialsAfterErrorExactly(o: Options)
    ensures (exists states: seq<Run>, actions: seq<Action>, j: nat, k: nat, n: nat ::
               DialsBetween(o, states, actions, j, k, n) && ConnectErred(states[j]))
            <==> o.clients >= 2 && o.connectConcurrency >= 2
  {
    hide Leads, CanReach, PhaseOk, Inv, Apply, Enabled, MayDial, Sum, OneAtATime;
    if OneAtATime(o) {
      forall states: seq<Run>, actions: seq<Action>, j: nat, k: nat, n: nat
        ensures DialsBetween(o, states, actions, j, k, n) ==> !ConnectErred(states[j])
      {
        if DialsBetween(o, states, actions, j, k, n) {
          NoDialAfterError(o, states, actions, j, k, n);
        }
      }
    } else {
      var s := FirstFails(o);
      FirstFailsThenDials(o, s);
      var states, actions, j, k := DialedFrom(o, s, 1);
    }
    AtATime(o);
  }

  lemma AtATime(o: Options)
    ensures OneAtATime(o) <==> !(o.clients >= 2 && o.connectConcurrency >= 2)
  {
  }

  lemma FirstFailsThenDials(o: Options, s: Run)
    requires !OneAtATime(o) && !s.cancelled && !s.group.failed
    requires |s.group.dials| == o.clients && s.group.dials[0] == 1
    requires s.group.connectors == C.Init(Connecting(o)).connectors[0 := C.Returned(false)]
    ensures o.clients >= 2 && ConnectErred(s) && MayDial(Connecting(o), s.cancelled, s.group, 1)
  {
    assert Erred(s.group, 0);
    OneIsFailing(s.group.connectors);
  }

  lemma NoDialAfterError(o: Options, states: seq<Run>, actions: seq<Action>, j: nat, k: nat, n: nat)
    requires OneAtATime(o) && DialsBetween(o, states, actions, j, k, n)
    ensures !ConnectErred(states[j])
  {
    hide Sum, Gather;
    DialedIfItCouldBe(o, states, actions, j, k, n);
    FailedAlone(o, states, actions, j);
    GroupInv(o, states[j]);
    forall m | 0 <= m < |states[j].group.connectors| ensures !Erred(states[j].group, m) {
      if HasFailed(states[j].group.connectors[m]) && !states[j].group.failed {
        ErredAlone(Connecting(o), states[j].cancelled, states[j].group, m, n);
      }
    }
  }

  /** The context is cancelled just after client 0 has looked at it. */
  lemma CancelBeforeDial(o: Options) returns (t: Run)
    requires o.clients >= 1 && o.connectConcurrency >= 1
    ensures CanReach(o, Init(o), t) && Inv(o, t)
    ensures t.cancelled && |t.group.connectors| == o.clients && t.group.connectors[0].Cleared?
  {
    hide CanReach, Inv, Sum, Gather, Leads;
    InitInv(o);
    var s := ConnectStep(o, Init(o), C.Launch);
    var s1 := ConnectStep(o, s, C.Step(0, true));
    ReachOn(o, Init(o), s, s1);
    t := Apply(o, s1, Cancel);
    StepKeepsInv(o, s1, Cancel);
    ReachItself(o, t);
    ReachNext(o, s1, Cancel, t);
    ReachOn(o, Init(o), s1, t);
  }

  /** A connect can begin after the context has been cancelled exactly if any can begin at all. */
  lemma DialsAfterCancelExactly(o: Options)
    ensures (exists states: seq<Run>, actions: seq<Action>, j: nat, k: nat, n: nat ::
               DialsBetween(o, states, actions, j, k, n) && states[j].cancelled)
            <==> o.clients >= 1 && o.connectConcurrency >= 1
  {
    hide Leads, CanReach, Inv, Apply, Enabled;
    if o.clients >= 1 && o.connectConcurrency >= 1 {
      var s := CancelBeforeDial(o);
      var states, actions, j, k := DialedFrom(o, s, 0);
    } else {
      forall states: seq<Run>, actions: seq<Action>, j: nat, k: nat, n: nat
        ensures DialsBetween(o, states, actions, j, k, n) ==> !states[j].cancelled
      {
        if DialsBetween(o, states, actions, j, k, n) && states[j].cancelled {
          DialedIfItCouldBe(o, states, actions, j, k, n);
          GroupInv(o, states[j]);
          C.StepMeansActive(Connecting(o), states[j].group, n);
        }
      }
    }
  }
}
