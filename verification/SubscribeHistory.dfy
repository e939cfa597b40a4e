/** What a subscribe run makes of what happened to it: of the broker's answer, and of each message
    delivered. The actions of a run are its history. */
module SubscribeHistory {
  import opened Counting
  import opened Optional
  import opened BenchmarkPayload
  import opened SubscribeRun

  // ----- the answer to the subscribe request

  function Answers(acknowledged: bool): Action -> nat {
    (a: Action) => if a == SubscribeResult(acknowledged) then 1 else 0
  }

  /** RunSubscribe is returning an error. */
  predicate Failing(m: Main) { Deferred(m) && m.failed }

  lemma AnswerStep(o: Options, s: Run, a: Action)
    requires Enabled(o, s, a)
    ensures var m, m' := s.control.main, Apply(o, s, a).control.main;
            && (Failing(m') <==> Failing(m) || a == SubscribeResult(false))
            && (a.SubscribeResult? ==> m.Subscribing?)
            && (m'.Subscribing? <==> m.Subscribing? && !a.SubscribeResult?)
  {
    hide Classify, ApplyCallback;
  }

  lemma {:induction false} AnswersSoFar(o: Options, states: seq<Run>, actions: seq<Action>, k: nat)
    requires Execution(o, states, actions) && k < |states|
    ensures Sum(Answers(false), actions[..k]) == if Failing(states[k].control.main) then 1 else 0
    ensures Sum(Answers(true), actions[..k]) ==
              if Failing(states[k].control.main) || states[k].control.main.Subscribing? then 0 else 1
  {
    hide Enabled, Apply;
    if k > 0 {
      AnswersSoFar(o, states, actions, k - 1);
      AnswerStep(o, states[k - 1], actions[k - 1]);
      assert actions[..k] == actions[..k - 1] + [actions[k - 1]];
    }
  }

  ghost predicate Answered(actions: seq<Action>, k: nat, acknowledged: bool) {
    exists m :: 0 <= m < k && m < |actions| && actions[m] == SubscribeResult(acknowledged)
  }

  lemma AnsweredExactlyIf(actions: seq<Action>, k: nat, acknowledged: bool)
    requires k <= |actions|
    ensures Answered(actions, k, acknowledged) <==> Sum(Answers(acknowledged), actions[..k]) > 0
  {
    hide Sum;
    if Sum(Answers(acknowledged), actions[..k]) > 0 {
      var m := SumWitness(Answers(acknowledged), actions[..k]);
    }
    if Answered(actions, k, acknowledged) {
      var m :| 0 <= m < k && m < |actions| && actions[m] == SubscribeResult(acknowledged);
      SumAtLeast(Answers(acknowledged), actions[..k], m);
    }
  }

  /** RunSubscribe returns an error exactly if the broker has refused the subscribe or not
      answered it in time; it counts as subscribed only after an acknowledgement. */
  lemma ReturnsErrorExactlyIf(o: Options, states: seq<Run>, actions: seq<Action>, k: nat)
    requires Execution(o, states, actions) && k < |states|
    ensures states[k].control.main.Returned? ==>
              && (states[k].control.main.failed <==> Answered(actions, k, false))
              && (!states[k].control.main.failed <==> Answered(actions, k, true))
    ensures states[k].control.subscribed ==> Answered(actions, k, true)
  {
    hide Sum, Execution, MessagesOk;
    ReachableInv(o, states, actions, k);
    AnswersSoFar(o, states, actions, k);
    PrefixLength(o, states, actions);
    AnsweredExactlyIf(actions, k, false);
    AnsweredExactlyIf(actions, k, true);
  }

  lemma PrefixLength(o: Options, states: seq<Run>, actions: seq<Action>)
    requires Execution(o, states, actions)
    ensures |states| == |actions| + 1
  {
  }

  // ----- the messages

  /** The messages delivered, in order, with their arrival times. */
  function Delivered(actions: seq<Action>): seq<(seq<byte>, int)> {
    if actions == [] then []
    else
      var last := actions[|actions| - 1];
      Delivered(actions[..|actions| - 1]) + (if last.Deliver? then [(last.payload, last.arrivedAt)] else [])
  }

  function MessageOf(c: Callback): (seq<byte>, int) { (c.payload, c.arrivedAt) }

  function MessagesOf(callbacks: seq<Callback>): (messages: seq<(seq<byte>, int)>)
    ensures |messages| == |callbacks|
  {
    seq(|callbacks|, k requires 0 <= k < |callbacks| => MessageOf(callbacks[k]))
  }

  lemma MessagesStep(o: Options, s: Run, a: Action)
    requires Enabled(o, s, a)
    ensures MessagesOf(Apply(o, s, a).messages.callbacks) ==
              MessagesOf(s.messages.callbacks) + (if a.Deliver? then [(a.payload, a.arrivedAt)] else [])
  {
    hide Classify, ApplyControl, ControlEnabled;
  }

  /** There is one callback for each message delivered, with that message. */
  lemma {:induction false} CallbacksAreDeliveries(o: Options, states: seq<Run>, actions: seq<Action>, k: nat)
    requires Execution(o, states, actions) && k < |states|
    ensures MessagesOf(states[k].messages.callbacks) == Delivered(actions[..k])
  {
    hide Enabled, Apply, MessagesOf;
    if k == 0 {
      assert MessagesOf([]) == [];
    } else {
      CallbacksAreDeliveries(o, states, actions, k - 1);
      MessagesStep(o, states[k - 1], actions[k - 1]);
      assert actions[..k][..k - 1] == actions[..k - 1];
    }
  }

  function PayloadSize(c: Callback): nat { |c.payload| }

  /** When no callback is on its way, received and receivedBytes are exact. */
  lemma ReceivedExactly(o: Options, states: seq<Run>, actions: seq<Action>, k: nat)
    requires Execution(o, states, actions) && k < |states|
    requires forall j :: 0 <= j < |states[k].messages.callbacks| ==> states[k].messages.callbacks[j].stage.Ended?
    ensures states[k].messages.received == |Delivered(actions[..k])|
    ensures states[k].messages.receivedBytes == Sum(PayloadSize, states[k].messages.callbacks)
  {
    hide Sum, Gather, Execution, NumbersOk, CountsOk, LatenciesOk, ControlOk;
    ReceivedAtRest(o, states, actions, k);
    CallbacksAreDeliveries(o, states, actions, k);
    ReachableInv(o, states, actions, k);
    var callbacks := states[k].messages.callbacks;
    SumAtMost(PayloadSize, CountedBytes, callbacks);
    SumAtMost(CountedBytes, PayloadSize, callbacks);
  }

  /** In this step callback j sets the time of the last message. */
  predicate SetsLast(s: Run, a: Action, j: nat) {
    a == Advance(j) && j < |s.messages.callbacks| && s.messages.callbacks[j].stage.SettingLast?
  }

  /** Callback j is the last one that has set it, and set it to this time. */
  ghost predicate LastSetBy(states: seq<Run>, actions: seq<Action>, k: nat, m: nat, j: nat, time: int) {
    && m < k <= |actions| == |states| - 1 && SetsLast(states[m], actions[m], j)
    && states[m].messages.callbacks[j].arrivedAt == time
    && forall n, i: nat :: m < n < k ==> !SetsLast(states[n], actions[n], i)
  }

  lemma LastStep(o: Options, s: Run, a: Action)
    requires Enabled(o, s, a)
    ensures (exists j: nat :: SetsLast(s, a, j)) ==> a.Advance? && SetsLast(s, a, a.k)
    ensures a.Advance? ==> a.k < |s.messages.callbacks|
    ensures Apply(o, s, a).messages.lastMessageAt ==
              if a.Advance? && SetsLast(s, a, a.k) then Some(s.messages.callbacks[a.k].arrivedAt)
              else s.messages.lastMessageAt
  {
    hide Classify, ApplyControl, ControlEnabled;
  }

  /** The time of the last message is that of the callback that set it last; there is none exactly
      if no callback has come that far. */
  lemma {:induction false} LastMessageIsLastSet(o: Options, states: seq<Run>, actions: seq<Action>, k: nat)
    requires Execution(o, states, actions) && k < |states|
    ensures match states[k].messages.lastMessageAt
            case Some(time) => exists m, j :: LastSetBy(states, actions, k, m, j, time)
            case None => forall n: nat, j: nat :: n < k ==> !SetsLast(states[n], actions[n], j)
  {
    hide Enabled, Apply, SetsLast;
    if k > 0 {
      LastMessageIsLastSet(o, states, actions, k - 1);
      var s, a := states[k - 1], actions[k - 1];
      LastStep(o, s, a);
      if a.Advance? && SetsLast(s, a, a.k) {
        assert LastSetBy(states, actions, k, k - 1, a.k, s.messages.callbacks[a.k].arrivedAt);
      } else if s.messages.lastMessageAt.Some? {
        var time := s.messages.lastMessageAt.value;
        var m, j :| LastSetBy(states, actions, k - 1, m, j, time);
        assert LastSetBy(states, actions, k, m, j, time);
      }
    }
  }

  // ----- the shards

  /** The age of a message, if it is recorded in this shard. */
  ghost function SeenIn(o: Options, shard: nat): Callback -> multiset<int>
    requires o.shards > 0
  {
    (c: Callback) => if c.number % o.shards == shard then SeenLatency(c) else multiset{}
  }

  lemma EffectOnShards(o: Options, m: Messages, c: Callback)
    requires o.benchmark && |m.shards| == o.shards > 0
    ensures Effect(o, m, c).shards ==
              if c.stage.Classifying? && Classify(c.payload, c.arrivedAt).Latency? then
                m.shards[c.number % o.shards :=
                           m.shards[c.number % o.shards] + [Classify(c.payload, c.arrivedAt).milliseconds]]
              else m.shards
  {
    hide Classify;
  }

  lemma MovedWeights(m: Messages, c: Callback)
    ensures SeenLatency(Moved(m, c)) ==
              if c.stage.Classifying? && Classify(c.payload, c.arrivedAt).Latency? then
                multiset{Classify(c.payload, c.arrivedAt).milliseconds}
              else SeenLatency(c)
    ensures c.stage.Classifying? ==> SeenLatency(c) == multiset{}
    ensures !c.stage.Numbering? ==> Moved(m, c).number == c.number
    ensures c.stage.Numbering? ==> SeenLatency(c) == multiset{}
  {
    hide Classify, SeenLatency;
    SeenExactly(c);
    SeenExactly(Moved(m, c));
  }

  lemma ShardStep(o: Options, m: Messages, k: nat, shard: nat)
    requires o.benchmark && CallbackEnabled(o, m, Advance(k)) && shard < o.shards == |m.shards|
    ensures |ApplyCallback(o, m, Advance(k)).shards| == o.shards
    ensures multiset(ApplyCallback(o, m, Advance(k)).shards[shard]) + SeenIn(o, shard)(m.callbacks[k]) ==
              multiset(m.shards[shard]) + SeenIn(o, shard)(Moved(m, m.callbacks[k]))
  {
    hide Classify, SeenLatency, Effect, Moved;
    EffectOnShards(o, m, m.callbacks[k]);
    MovedWeights(m, m.callbacks[k]);
  }

  lemma ShardsKept(o: Options, s: Run, a: Action, shard: nat)
    requires o.benchmark && Enabled(o, s, a) && shard < o.shards == |s.messages.shards|
    requires multiset(s.messages.shards[shard]) == Gather(SeenIn(o, shard), s.messages.callbacks)
    ensures |Apply(o, s, a).messages.shards| == o.shards
    ensures var m := Apply(o, s, a).messages;
            multiset(m.shards[shard]) == Gather(SeenIn(o, shard), m.callbacks)
  {
    hide Classify, SeenLatency, Gather, Effect;
    if a.Advance? {
      var c, c' := s.messages.callbacks[a.k], Moved(s.messages, s.messages.callbacks[a.k]);
      var before := multiset(s.messages.shards[shard]);
      ShardStep(o, s.messages, a.k, shard);
      GatherUpdate(SeenIn(o, shard), s.messages.callbacks, a.k, c');
      var after := multiset(Apply(o, s, a).messages.shards[shard]);
      var gathered := Gather(SeenIn(o, shard), s.messages.callbacks[a.k := c']);
      forall v ensures after[v] == gathered[v] {
        assert (after + SeenIn(o, shard)(c))[v] == (before + SeenIn(o, shard)(c'))[v];
        assert (gathered + SeenIn(o, shard)(c))[v] == (before + SeenIn(o, shard)(c'))[v];
      }
    } else if a.Deliver? {
      var c := Callback(Numbering, a.payload, a.arrivedAt, 0);
      GatherAppend(SeenIn(o, shard), s.messages.callbacks, c);
      SeenExactly(c);
    }
  }

  /** With benchmark on, a latency array holds exactly the ages of the messages whose number
      assigns them to it and whose callback has come that far. */
  lemma {:induction false} ShardsHoldAges(
    o: Options, states: seq<Run>, actions: seq<Action>, k: nat, shard: nat)
    requires Execution(o, states, actions) && k < |states| && o.benchmark && shard < o.shards
    ensures |states[k].messages.shards| == o.shards
    ensures multiset(states[k].messages.shards[shard]) == Gather(SeenIn(o, shard), states[k].messages.callbacks)
  {
    hide Enabled, Apply, SeenIn;
    if k > 0 {
      ShardsHoldAges(o, states, actions, k - 1, shard);
      ShardsKept(o, states[k - 1], actions[k - 1], shard);
    }
  }

  // ----- the sampler

  lemma SamplerStepFollows(o: Options, s: Run, a: Action)
    requires Enabled(o, s, a)
    requires s.control.sampler.Sampling? ==> s.messages.firstCloses > 0
    ensures Apply(o, s, a).control.sampler.Sampling? ==> Apply(o, s, a).messages.firstCloses > 0
  {
    hide Classify;
  }

  /** The sampler samples only after the first message has arrived, and is stopped only once the
      run is over. */
  lemma {:induction false} SamplerFollowsRun(o: Options, states: seq<Run>, actions: seq<Action>, k: nat)
    requires Execution(o, states, actions) && k < |states|
    ensures states[k].control.sampler.Sampling? ==>
              states[k].messages.firstCloses > 0 && states[k].messages.received > 0
    ensures states[k].control.sampler.Stopped? ==> states[k].control.runOverCloses == 1
  {
    hide Enabled, Apply, Sum, CountsOk, LatenciesOk;
    ReachableInv(o, states, actions, k);
    ChannelsClosedAtMostOnce(o, states, actions, k);
    SamplesAfterFirst(o, states, actions, k);
    var m := states[k].messages;
    if m.firstCloses > 0 {
      var j := SumWitness(HasClosedFirst, m.callbacks);
    }
  }

  lemma {:induction false} SamplesAfterFirst(o: Options, states: seq<Run>, actions: seq<Action>, k: nat)
    requires Execution(o, states, actions) && k < |states|
    ensures states[k].control.sampler.Sampling? ==> states[k].messages.firstCloses > 0
  {
    hide Enabled, Apply;
    if k > 0 {
      SamplesAfterFirst(o, states, actions, k - 1);
      SamplerStepFollows(o, states[k - 1], actions[k - 1]);
    }
  }
}
