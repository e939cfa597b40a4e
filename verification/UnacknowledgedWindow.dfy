/** The in-flight window and the messages the broker has not acknowledged: a failure or a time-out
    gives a slot back without an acknowledgement, and at QoS 0 there is never one, so the window
    does not bound them for good. */
module UnacknowledgedWindow {
  import opened Counting
  import P = PublishClient
  import opened PublishRun
  import opened PublishRunResults
  import opened PublishRunEnds
  import opened PublishRunReach
  import opened PublishDrive

  /** Client i has more unacknowledged messages than its window is wide. */
  ghost predicate ExceedsWindow(o: Options, states: seq<Run>, actions: seq<Action>, k: nat, i: nat) {
    && Execution(o, states, actions) && k < |states| && i < |states[k].publishers|
    && P.Unacknowledged(o.publish, states[k].publishers[i]) > o.publish.inFlight
  }

  /** In every run above QoS 0 a client exceeds its window by no more than its failures and
      time-outs; at QoS 0, by no more than the messages it has counted. */
  lemma ExcessIsCounted(o: Options, states: seq<Run>, actions: seq<Action>, k: nat, i: nat)
    requires Execution(o, states, actions) && k < |states| && i < |states[k].publishers|
    ensures var c := states[k].publishers[i];
            P.Unacknowledged(o.publish, c) <= o.publish.inFlight + c.timedOut + c.failed
                                              + (if o.publish.qos == 0 then c.acked else 0)
    ensures o.publish.count <= o.publish.inFlight ==>
              P.Unacknowledged(o.publish, states[k].publishers[i]) <= o.publish.inFlight
  {
    hide Sum, Gather, P.Inv, P.Unacknowledged;
    ReachableInv(o, states, actions, k);
    P.UnacknowledgedIsBounded(o.publish, states[k].publishers[i]);
  }

  /** A step of the only client there is. */
  lemma OnlyClientStep(o: Options, s: Run, p: P.Action) returns (t: Run)
    requires ValidOptions(o) && Inv(o, s) && |s.publishers| == 1
    requires P.Enabled(o.publish, s.cancelled, s.publishers[0], p)
    ensures CanReach(o, s, t) && Inv(o, t) && t.cancelled == s.cancelled
    ensures t.publishers == [P.Apply(o.publish, s.publishers[0], p)]
  {
    hide CanReach, Inv, P.Enabled, P.Apply;
    t := ClientStep(o, s, 0, p);
  }

  /** The client is about to ask for a slot for message i and will get it. */
  predicate HasRoom(o: P.Options, c: P.Client, i: nat) {
    c.sender == P.Acquiring(i) && c.held < o.inFlight && i < o.count
  }

  function Sent(o: P.Options, c: P.Client, i: nat): P.Client {
    c.(held := c.held + 1, sent := c.sent + 1, published := c.published + 1,
       outstanding := c.outstanding + 1, waiters := c.waiters + [P.Waiting],
       sender := if i == o.count - 1 then P.Draining else P.Pacing(i))
  }

  lemma SendSteps(o: P.Options, c: P.Client, i: nat)
    requires HasRoom(o, c, i)
    ensures P.Enabled(o, false, c, P.AcquireSlot)
    ensures var c1 := P.Apply(o, c, P.AcquireSlot);
            && P.Enabled(o, false, c1, P.Send)
            && var c2 := P.Apply(o, c1, P.Send);
               && P.Enabled(o, false, c2, P.CountSent)
               && var c3 := P.Apply(o, c2, P.CountSent);
                  && P.Enabled(o, false, c3, P.Register)
                  && var c4 := P.Apply(o, c3, P.Register);
                     P.Enabled(o, false, c4, P.Spawn) && P.Apply(o, c4, P.Spawn) == Sent(o, c, i)
  {
  }

  /** The client sends one message; nobody answers anything meanwhile. */
  lemma SendOne(o: Options, s: Run, i: nat) returns (t: Run)
    requires ValidOptions(o) && Inv(o, s) && !s.cancelled
    requires |s.publishers| == 1 && HasRoom(o.publish, s.publishers[0], i)
    ensures CanReach(o, s, t) && Inv(o, t) && !t.cancelled
    ensures t.publishers == [Sent(o.publish, s.publishers[0], i)]
  {
    hide CanReach, Inv, P.Enabled, P.Apply, Sent, HasRoom;
    SendSteps(o.publish, s.publishers[0], i);
    var s1 := OnlyClientStep(o, s, P.AcquireSlot);
    var s2 := OnlyClientStep(o, s1, P.Send);
    ReachOn(o, s, s1, s2);
    var s3 := OnlyClientStep(o, s2, P.CountSent);
    ReachOn(o, s, s2, s3);
    var s4 := OnlyClientStep(o, s3, P.Register);
    ReachOn(o, s, s3, s4);
    t := OnlyClientStep(o, s4, P.Spawn);
    ReachOn(o, s, s4, t);
  }

  /** The outcomes that give a slot back without an acknowledgement of the broker. */
  predicate WithoutAck(o: P.Options, outcome: P.Outcome) { outcome != P.Acked || o.qos == 0 }

  function FirstEnded(c: P.Client, outcome: P.Outcome): P.Client {
    P.Count(c, outcome).(held := c.held - 1, waiters := [P.Released(outcome)])
  }

  lemma EndSteps(o: P.Options, c: P.Client, outcome: P.Outcome)
    requires c.waiters == [P.Waiting] && WithoutAck(o, outcome)
    ensures P.Enabled(o, false, c, P.Answer(0, outcome))
    ensures var c1 := P.Apply(o, c, P.Answer(0, outcome));
            && P.Enabled(o, false, c1, P.CountResult(0))
            && var c2 := P.Apply(o, c1, P.CountResult(0));
               && P.Enabled(o, false, c2, P.Release(0))
               && P.Apply(o, c2, P.Release(0)) == FirstEnded(c, outcome)
  {
  }

  /** Its first message ends that way: counted, and the slot is free again. */
  lemma FirstEnds(o: Options, s: Run, outcome: P.Outcome) returns (t: Run)
    requires ValidOptions(o) && Inv(o, s) && !s.cancelled && WithoutAck(o.publish, outcome)
    requires |s.publishers| == 1 && s.publishers[0].waiters == [P.Waiting]
    ensures CanReach(o, s, t) && Inv(o, t) && !t.cancelled
    ensures t.publishers == [FirstEnded(s.publishers[0], outcome)]
  {
    hide CanReach, Inv, P.Enabled, P.Apply, FirstEnded;
    EndSteps(o.publish, s.publishers[0], outcome);
    var s1 := OnlyClientStep(o, s, P.Answer(0, outcome));
    var s2 := OnlyClientStep(o, s1, P.CountResult(0));
    ReachOn(o, s, s1, s2);
    t := OnlyClientStep(o, s2, P.Release(0));
    ReachOn(o, s, s2, t);
  }

  /** n more messages fill the window; nothing else is counted. */
  lemma {:induction false} SendMany(o: Options, s: Run, i: nat, n: nat) returns (t: Run)
    requires ValidOptions(o) && Inv(o, s) && |s.publishers| == 1 && !s.cancelled
    requires n > 0 ==> s.publishers[0].sender == P.Pacing(i)
    requires s.publishers[0].held + n <= o.publish.inFlight && i + n < o.publish.count
    ensures CanReach(o, s, t) && Inv(o, t) && |t.publishers| == 1
    ensures var c, c' := s.publishers[0], t.publishers[0];
            && P.Unacknowledged(o.publish, c') == P.Unacknowledged(o.publish, c) + n
            && c'.acked == c.acked && c'.failed == c.failed && c'.timedOut == c.timedOut
    decreases n
  {
    hide CanReach, Inv, Sum, P.Unacknowledged;
    if n == 0 {
      t := s;
      ReachItself(o, s);
    } else {
      var paced := OnlyClientStep(o, s, P.Paced);
      var sent := SendOne(o, paced, i + 1);
      OneMoreSent(o.publish, s.publishers[0], paced.publishers[0], i + 1);
      ReachOn(o, s, paced, sent);
      t := SendMany(o, sent, i + 1, n - 1);
      ReachOn(o, s, sent, t);
    }
  }

  lemma OneMoreSent(o: P.Options, c: P.Client, paced: P.Client, i: nat)
    requires P.Ready(o, c, P.Paced) && paced == P.Apply(o, c, P.Paced)
    ensures P.Unacknowledged(o, Sent(o, paced, i)) == P.Unacknowledged(o, c) + 1
  {
    hide Sum;
    SumAppend(P.NotAcked, c.waiters, P.Waiting);
  }

  /** The first message fails or times out, or at QoS 0 is written; then the window fills up once
      more. Only that first message is counted. */
  lemma WindowExceeded(o: Options, outcome: P.Outcome) returns (states: seq<Run>, actions: seq<Action>)
    requires ValidOptions(o) && o.clients >= 1 && o.publish.count > o.publish.inFlight
    requires WithoutAck(o.publish, outcome)
    ensures states != [] && ExceedsWindow(o, states, actions, |states| - 1, 0)
    ensures var c := states[|states| - 1].publishers[0];
            && c.acked == (if outcome == P.Acked then 1 else 0)
            && c.failed == (if outcome == P.Failed then 1 else 0)
            && c.timedOut == (if outcome == P.TimedOut then 1 else 0)
  {
    hide CanReach, Inv, MayStart, Sum, P.Unacknowledged;
    InitInv(o);
    assert MayStart(o, Init(o)) by {
      ClientsToStart(o);
    }
    var started := StartNext(o, Init(o));
    assert started.publishers == [P.Init(o.publish)];
    var sent := SendOne(o, started, 0);
    ReachOn(o, Init(o), started, sent);
    var ended := FirstEnds(o, sent, outcome);
    ReachOn(o, Init(o), sent, ended);
    OneUnacknowledged(o.publish, ended.publishers[0], outcome);
    var full := SendMany(o, ended, 0, o.publish.inFlight);
    ReachOn(o, Init(o), ended, full);
    states, actions := Continue(o, [Init(o)], [], full);
  }

  lemma ClientsToStart(o: Options)
    requires o.clients >= 1 && o.publish.count >= 1
    ensures MayStart(o, Init(o))
  {
  }

  lemma OneUnacknowledged(o: P.Options, c: P.Client, outcome: P.Outcome)
    requires WithoutAck(o, outcome) && c.waiters == [P.Released(outcome)] && c.sent == 1
    ensures o.qos == 0 || !(c.sender.CountingSent? || c.sender.Registering? || c.sender.Spawning?) ==>
              P.Unacknowledged(o, c) == 1
  {
    assert [P.Released(outcome)] == [] + [P.Released(outcome)];
    SumAppend(P.NotAcked, [], P.Released(outcome));
  }

  /** A client can have more unacknowledged messages than its window is wide exactly if it has
      more messages to send than that. */
  lemma ExceedsWindowExactly(o: Options)
    requires ValidOptions(o)
    ensures (exists states, actions, k, i :: ExceedsWindow(o, states, actions, k, i))
            <==> o.clients >= 1 && o.publish.count > o.publish.inFlight
  {
    hide Execution, Inv, P.Unacknowledged;
    if o.clients >= 1 && o.publish.count > o.publish.inFlight {
      var states, actions := WindowExceeded(o, P.Failed);
    } else {
      forall states, actions, k, i ensures !ExceedsWindow(o, states, actions, k, i) {
        if ExceedsWindow(o, states, actions, k, i) {
          ExcessIsCounted(o, states, actions, k, i);
          StartedAreFew(o, states, actions, k);
        }
      }
    }
  }

  lemma StartedAreFew(o: Options, states: seq<Run>, actions: seq<Action>, k: nat)
    requires Execution(o, states, actions) && k < |states|
    ensures |states[k].publishers| <= o.clients
  {
    ReachableInv(o, states, actions, k);
  }
}
