/** What still happens in a publish run after a connect failure has been reported or the context
    has been cancelled: the connects and publishes that had got past their check before, and no
    more. */
module AfterCancellation {
  import opened Counting
  import C = ConnectClients
  import P = PublishClient
  import opened PublishRun
  import opened PublishRunResults

  // ----- connecting

  /** The group's context is cancelled. */
  predicate ConnectStopped(s: Run) { s.group.failed || s.cancelled }

  function Times(n: nat): nat { n }

  lemma DialsKept(o: Options, s: Run, a: Action, n: nat)
    requires Inv(o, s) && Enabled(o, s, a) && n < o.clients
    ensures Inv(o, Apply(o, s, a))
    ensures var g, g' := s.group, Apply(o, s, a).group;
            && (g'.dials[n] != g.dials[n] <==>
                 g.connectors[n].Cleared? && a.Connect? && a.c.Step? && a.c.n == n)
            && (ConnectStopped(s) ==>
                 && ConnectStopped(Apply(o, s, a))
                 && g'.dials[n] + C.IsCleared(g'.connectors[n]) <= g.dials[n] + C.IsCleared(g.connectors[n]))
  {
    hide Sum, Gather;
    StepKeepsInv(o, s, a);
    if a.Connect? {
      C.OnlyClearedDial(Connecting(o), s.cancelled, s.group, a.c, n);
    }
  }

  lemma {:induction false} DialsOfOneClient(o: Options, states: seq<Run>, actions: seq<Action>, j: nat, k: nat, n: nat)
    requires Execution(o, states, actions) && j <= k < |states| && n < o.clients && ConnectStopped(states[j])
    ensures Inv(o, states[j]) && Inv(o, states[k]) && ConnectStopped(states[k])
    ensures var g, g' := states[j].group, states[k].group;
            g'.dials[n] + C.IsCleared(g'.connectors[n]) <= g.dials[n] + C.IsCleared(g.connectors[n])
  {
    hide Inv, Enabled, Apply, ConnectStopped, C.IsCleared;
    ReachableInv(o, states, actions, j);
    if j < k {
      DialsOfOneClient(o, states, actions, j, k - 1, n);
      DialsKept(o, states[k - 1], actions[k - 1], n);
    }
  }

  lemma {:induction false} DialsAddUp(before: seq<nat>, cleared: seq<C.Connector>, after: seq<nat>)
    requires |before| == |cleared| == |after|
    requires forall n :: 0 <= n < |after| ==> after[n] <= before[n] + C.IsCleared(cleared[n])
    ensures Sum(Times, after) <= Sum(Times, before) + Sum(C.IsCleared, cleared)
  {
    if after != [] {
      var last := |after| - 1;
      DialsAddUp(before[..last], cleared[..last], after[..last]);
    }
  }

  /** After a reported connect failure or a cancellation, a client whose goroutine has not passed
      its check by then is never dialed again, one whose goroutine has is dialed at most once;
      all together at most as many as can connect at once. */
  lemma FewDialsAfterStop(o: Options, states: seq<Run>, actions: seq<Action>, j: nat, k: nat)
    requires Execution(o, states, actions) && j <= k < |states| && ConnectStopped(states[j])
    ensures C.Shaped(Connecting(o), states[j].group) && C.Shaped(Connecting(o), states[k].group)
    ensures var g, g' := states[j].group, states[k].group;
            && (forall n :: 0 <= n < o.clients ==> g'.dials[n] <= g.dials[n] + C.IsCleared(g.connectors[n]))
            && (forall n :: 0 <= n < o.clients && (g.connectors[n].Idle? || g.connectors[n].Checking?) ==>
                  g'.dials[n] == 0)
            && Sum(Times, g'.dials) <= Sum(Times, g.dials) + Sum(C.IsCleared, g.connectors)
            && Sum(C.IsCleared, g.connectors) <= o.connectConcurrency
  {
    hide Sum, Gather, Execution;
    ReachableInv(o, states, actions, j);
    ReachableInv(o, states, actions, k);
    var g, g' := states[j].group, states[k].group;
    forall n | 0 <= n < o.clients ensures g'.dials[n] <= g.dials[n] + C.IsCleared(g.connectors[n]) {
      DialsOfOneClient(o, states, actions, j, k, n);
    }
    DialsAddUp(g.dials, g.connectors, g'.dials);
    SumAtMost(C.IsCleared, C.IsRunning, g.connectors);
  }

  // ----- publishing

  /** Messages client i has handed over to its connection. */
  function SentBy(s: Run, i: nat): nat {
    if i < |s.publishers| then s.publishers[i].sent else 0
  }

  /** Client i has its slot for the next message already. */
  function HasSlotToSend(s: Run, i: nat): nat {
    if i < |s.publishers| then P.AboutToSend(s.publishers[i].sender) else 0
  }

  lemma StepStopsSending(o: Options, s: Run, a: Action, i: nat)
    requires Inv(o, s) && Enabled(o, s, a) && s.cancelled
    ensures var s' := Apply(o, s, a);
            s'.cancelled && SentBy(s', i) + HasSlotToSend(s', i) == SentBy(s, i) + HasSlotToSend(s, i)
  {
    hide Sum, Gather, Inv;
    if a.Publish? {
      P.CancelledStopsSending(o.publish, s.publishers[a.i], a.p);
    }
  }

  /** After a cancellation each client hands over at most the message it already has a slot for,
      and a client that has not started by then hands over none. */
  lemma {:induction false} AtMostOneMoreMessage(
    o: Options, states: seq<Run>, actions: seq<Action>, j: nat, k: nat, i: nat)
    requires Execution(o, states, actions) && j <= k < |states| && states[j].cancelled
    ensures states[k].cancelled
    ensures SentBy(states[k], i) + HasSlotToSend(states[k], i) == SentBy(states[j], i) + HasSlotToSend(states[j], i)
    ensures SentBy(states[k], i) <= SentBy(states[j], i) + 1
    ensures i >= |states[j].publishers| ==> SentBy(states[k], i) == 0
  {
    hide Inv, Enabled, Apply;
    if j < k {
      AtMostOneMoreMessage(o, states, actions, j, k - 1, i);
      ReachableInv(o, states, actions, k - 1);
      StepStopsSending(o, states[k - 1], actions[k - 1], i);
    }
  }
}
