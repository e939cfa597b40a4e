/** What a run can still come to: states that some continuation of a run reaches. */
module PublishRunReach {
  import C = ConnectClients
  import P = PublishClient
  import opened PublishRun
  import opened PublishRunResults
  import opened PublishRunEnds

  ghost predicate Leads(o: Options, s: Run, actions: seq<Action>, t: Run)
    decreases |actions|
  {
    if actions == [] then t == s
    else Enabled(o, s, actions[0]) && Leads(o, Apply(o, s, actions[0]), actions[1..], t)
  }

  ghost predicate CanReach(o: Options, s: Run, t: Run) {
    exists actions :: Leads(o, s, actions, t)
  }

  lemma ReachItself(o: Options, s: Run)
    ensures CanReach(o, s, s)
  {
    assert Leads(o, s, [], s);
  }

  lemma ReachNext(o: Options, s: Run, a: Action, t: Run)
    requires Enabled(o, s, a) && CanReach(o, Apply(o, s, a), t)
    ensures CanReach(o, s, t)
  {
    hide Enabled, Apply;
    var actions :| Leads(o, Apply(o, s, a), actions, t);
    assert ([a] + actions)[1..] == actions;
    assert Leads(o, s, [a] + actions, t);
  }

  lemma {:induction false} LeadsOn(o: Options, s: Run, first: seq<Action>, t: Run, second: seq<Action>, u: Run)
    requires Leads(o, s, first, t) && Leads(o, t, second, u)
    ensures Leads(o, s, first + second, u)
    decreases |first|
  {
    hide Enabled, Apply;
    if first == [] {
      assert first + second == second;
    } else {
      LeadsOn(o, Apply(o, s, first[0]), first[1..], t, second, u);
      assert (first + second)[1..] == first[1..] + second;
    }
  }

  lemma ReachOn(o: Options, s: Run, t: Run, u: Run)
    requires CanReach(o, s, t) && CanReach(o, t, u)
    ensures CanReach(o, s, u)
  {
    hide Leads;
    var first :| Leads(o, s, first, t);
    var second :| Leads(o, t, second, u);
    LeadsOn(o, s, first, t, second, u);
  }

  /** The longer run starts as the shorter one did. */
  ghost predicate Continues(o: Options, states: seq<Run>, states': seq<Run>, actions': seq<Action>) {
    Execution(o, states', actions') && states <= states'
  }

  /** Every state that can be reached from the last one ends a continuation of the run. */
  lemma Continue(o: Options, states: seq<Run>, actions: seq<Action>, t: Run)
      returns (states': seq<Run>, actions': seq<Action>)
    requires Execution(o, states, actions) && CanReach(o, states[|states| - 1], t)
    ensures Continues(o, states, states', actions') && states'[|states'| - 1] == t
  {
    hide Enabled, Apply, Leads;
    var more :| Leads(o, states[|states| - 1], more, t);
    states', actions' := ContinueBy(o, states, actions, more, t);
  }

  lemma {:induction false} ContinueBy(o: Options, states: seq<Run>, actions: seq<Action>, more: seq<Action>, t: Run)
      returns (states': seq<Run>, actions': seq<Action>)
    requires Execution(o, states, actions) && Leads(o, states[|states| - 1], more, t)
    ensures Continues(o, states, states', actions') && states'[|states'| - 1] == t
    decreases |more|
  {
    hide Enabled, Apply;
    if more == [] {
      states', actions' := states, actions;
    } else {
      var next := Apply(o, states[|states| - 1], more[0]);
      states', actions' := ContinueBy(o, states + [next], actions + [more[0]], more[1..], t);
    }
  }

  /** A step of client i, as a step of the run. */
  lemma ClientStep(o: Options, s: Run, i: nat, p: P.Action) returns (t: Run)
    requires ValidOptions(o) && Inv(o, s) && i < |s.publishers|
    requires P.Enabled(o.publish, s.cancelled, s.publishers[i], p)
    ensures CanReach(o, s, t) && Inv(o, t) && 0 <= Rank(o, t) < Rank(o, s)
    ensures t.publishers == s.publishers[i := P.Apply(o.publish, s.publishers[i], p)]
    ensures t.cancelled == s.cancelled
  {
    hide Rank, Leads, P.Enabled, P.Apply, PhaseOk, ClientsOk, ChannelsOk, VerdictOk;
    var a := Publish(i, p);
    assert Enabled(o, s, a);
    t := Apply(o, s, a);
    ReachItself(o, t);
    ReachNext(o, s, a, t);
    StepKeepsInv(o, s, a);
    RankDecreases(o, s, a);
    RankNotNegative(o, t);
  }

  lemma GroupInv(o: Options, s: Run)
    requires Inv(o, s)
    ensures C.Inv(Connecting(o), s.group)
  {
  }

  /** A step of connecting, as a step of the run. */
  lemma ConnectStep(o: Options, s: Run, c: C.Action) returns (t: Run)
    requires Inv(o, s) && C.Enabled(Connecting(o), s.group, c)
    ensures CanReach(o, s, t) && Inv(o, t) && 0 <= Rank(o, t) < Rank(o, s)
    ensures t == s.(group := t.group) && t.group == C.Apply(Connecting(o), s.cancelled, s.group, c)
  {
    hide Rank, C.Enabled, C.Apply, PhaseOk, ClientsOk, ChannelsOk, LatenciesOk, VerdictOk, Leads;
    GroupInv(o, s);
    t := Apply(o, s, Connect(c));
    ReachItself(o, t);
    ReachNext(o, s, Connect(c), t);
    StepKeepsInv(o, s, Connect(c));
    RankDecreases(o, s, Connect(c));
    RankNotNegative(o, t);
  }
}
