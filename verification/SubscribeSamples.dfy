/** What is sampled from a subscribe run while its callbacks go on: the messages received in each
    interval, for the report, and the rates of the log. */
module SubscribeSamples {
  import opened SubscribeRun
  import opened CounterScan
  import L = SubscribeLog

  lemma StepReceives(o: Options, s: Run, a: Action)
    requires Enabled(o, s, a)
    ensures s.messages.received <= Apply(o, s, a).messages.received
  {
    hide Classify, ControlEnabled, ApplyControl;
  }

  /** The count of received messages never goes back. */
  lemma {:induction false} ReceivedGrows(o: Options, states: seq<Run>, actions: seq<Action>, j: nat, k: nat)
    requires Execution(o, states, actions) && j <= k < |states|
    ensures states[j].messages.received <= states[k].messages.received
  {
    hide Enabled, Apply;
    if j < k {
      ReceivedGrows(o, states, actions, j, k - 1);
      StepReceives(o, states[k - 1], actions[k - 1]);
    }
  }

  /** Reading k loads the received counter at instant times[k], after the readings before it. */
  ghost predicate ReadsReceived(states: seq<Run>, times: seq<nat>, readings: seq<nat>) {
    && |times| == |readings|
    && (forall k :: 0 <= k < |times| ==> times[k] < |states| && readings[k] == states[times[k]].messages.received)
    && forall k, m :: 0 <= k < m < |times| ==> times[k] <= times[m]
  }

  /** The messages received per interval: none of the values is negative, and together they are
      at most the messages received by the end. */
  lemma ReceivedPerInterval(
    o: Options, states: seq<Run>, actions: seq<Action>, times: seq<nat>, readings: seq<nat>, growth: seq<int>)
    requires Execution(o, states, actions) && ReadsReceived(states, times, readings)
    requires |growth| == |readings|
    requires forall k :: 0 <= k < |growth| ==> growth[k] == readings[k] - Previous(readings, k)
    ensures forall k :: 0 <= k < |growth| ==> growth[k] >= 0
    ensures SumOf(growth) <= states[|states| - 1].messages.received
  {
    hide SumOf, Execution;
    forall k | 0 <= k < |growth| ensures growth[k] >= 0 {
      if k > 0 {
        ReceivedGrows(o, states, actions, times[k - 1], times[k]);
      }
    }
    GrowthAddsUp(readings, growth);
    if readings != [] {
      ReceivedGrows(o, states, actions, times[|times| - 1], |states| - 1);
    } else {
      RunHasStates(o, states, actions);
    }
  }

  lemma RunHasStates(o: Options, states: seq<Run>, actions: seq<Action>)
    requires Execution(o, states, actions)
    ensures |states| > 0 && states[|states| - 1].messages.received >= 0
  {
  }

  function Totals(ticks: seq<L.Tick>): (readings: seq<nat>)
    ensures |readings| == |ticks|
  {
    seq(|ticks|, k requires 0 <= k < |ticks| => ticks[k].received)
  }

  /** The log of a real run: whatever resets there are, its rates are not negative and add up to
      the total at the last tick. */
  lemma LoggedRatesAddUp(o: Options, states: seq<Run>, actions: seq<Action>, times: seq<nat>,
                         ticks: seq<L.Tick>, reports: seq<L.Report>, resetAfter: int)
    requires Execution(o, states, actions) && ReadsReceived(states, times, Totals(ticks))
    requires |ticks| == |reports|
    requires forall k :: 0 <= k < |ticks| ==> L.ReportedAsPromised(ticks, reports, resetAfter, k)
    ensures forall k :: 0 <= k < |reports| ==> L.LoggedRate(reports[k]) >= 0
    ensures L.LoggedRates(reports) == L.Before(ticks, |ticks|) <= states[|states| - 1].messages.received
  {
    hide Enabled, Apply, L.ReportedAsPromised, L.LoggedRate, L.LoggedRates;
    forall j, k | 0 <= j <= k < |ticks| ensures ticks[j].received <= ticks[k].received {
      assert Totals(ticks)[j] == ticks[j].received && Totals(ticks)[k] == ticks[k].received;
      ReceivedGrows(o, states, actions, times[j], times[k]);
    }
    L.RatesAddUp(ticks, reports, resetAfter);
    if ticks != [] {
      assert Totals(ticks)[|ticks| - 1] == ticks[|ticks| - 1].received;
      ReceivedGrows(o, states, actions, times[|ticks| - 1], |states| - 1);
    }
  }
}
