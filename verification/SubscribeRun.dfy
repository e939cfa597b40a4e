/** A subscribe run: any number of message callbacks at once, the sampler, and the goroutine
    that called RunSubscribe. Callbacks may still be running after the run has stopped, and
    messages may arrive before the broker has acknowledged the subscribe. */
module SubscribeRun {
  import opened Counting
  import opened Optional
  import opened BenchmarkPayload

  datatype Options = Options(count: nat, benchmark: bool, shards: nat)

  /** What recordLatency makes of one message. */
  datatype Kind = WithoutTimestamp | NegativeLatency | Latency(milliseconds: int)

  function Classify(payload: seq<byte>, arrivedAt: int): Kind {
    match Timestamp(payload)
    case None => WithoutTimestamp
    case Some(timestamp) =>
      if arrivedAt - timestamp < 0 then NegativeLatency else Latency(arrivedAt - timestamp)
  }

  /** The next thing a callback does, in order. */
  datatype Stage =
    | Numbering          // received.Add
    | AddingBytes        // receivedBytes.Add
    | SettingLast        // lastMessageAt.set
    | SettingFirst       // firstMessageAt.set, on number 1
    | Classifying        // recordLatency, with benchmark on
    | ClosingFirst       // close(firstMessageArrived), on number 1
    | ClosingCount       // close(countReached), on the number asked for
    | Ended

  datatype Callback = Callback(stage: Stage, payload: seq<byte>, arrivedAt: int, number: nat)

  datatype Main =
    | Subscribing
    | RecordingSubscribed
    | StartingSampler
    | Selecting                    // waits for the context or for countReached
    | RecordingStop
    | ClosingRunOver
    | AwaitingSampler
    | Disconnecting(failed: bool)  // the deferred calls, last deferred first
    | RecordingFinish(failed: bool)
    | ClosingDone(failed: bool)
    | Returned(failed: bool)

  datatype Sampler = NotStarted | AwaitingFirst | Sampling | Stopped

  /** What the callbacks share: progress, stats and the two channels they close. */
  datatype Messages = Messages(
    callbacks: seq<Callback>,
    received: nat,
    receivedBytes: nat,
    firstMessageAt: Option<int>,
    lastMessageAt: Option<int>,
    withoutTimestamp: nat,
    negativeLatency: nat,
    shards: seq<seq<int>>,
    firstCloses: nat,     // closes of firstMessageArrived
    countCloses: nat)     // closes of countReached

  /** RunSubscribe itself, and the sampler. */
  datatype Control = Control(
    main: Main,
    cancelled: bool,
    stoppedByCount: bool,
    subscribed: bool,
    finishedAtWrites: nat,
    sampler: Sampler,
    runOverCloses: nat,   // closes of runOver
    doneCloses: nat,      // closes of progress.done
    disconnects: nat)

  datatype Run = Run(messages: Messages, control: Control)

  /** Deliver is a new message, Advance the next step of a callback. A select with several ways
      on may take any of them: Select and SamplerStep say which. */
  datatype Action =
    | Cancel
    | Deliver(payload: seq<byte>, arrivedAt: int)
    | Advance(k: nat)
    | SubscribeResult(acknowledged: bool)
    | Select(byCount: bool)
    | Proceed
    | SamplerStep(onFirst: bool)

  function Init(o: Options): Run {
    Run(Messages([], 0, 0, None, None, 0, 0, seq(o.shards, _ => []), 0, 0),
        Control(Subscribing, false, false, false, 0, NotStarted, 0, 0, 0))
  }

  predicate CanProceed(c: Control) {
    match c.main
    case Subscribing => false
    case Selecting => false
    case AwaitingSampler => c.sampler.Stopped?
    case Returned(_) => false
    case _ => true
  }

  predicate OfMessages(a: Action) { a.Deliver? || a.Advance? }

  predicate Enabled(o: Options, s: Run, a: Action) {
    if OfMessages(a) then CallbackEnabled(o, s.messages, a)
    else ControlEnabled(s.messages.firstCloses, s.messages.countCloses, s.control, a)
  }

  predicate CallbackEnabled(o: Options, m: Messages, a: Action) {
    && OfMessages(a)
    && (a.Advance? ==> a.k < |m.callbacks| && !m.callbacks[a.k].stage.Ended? && |m.shards| == o.shards > 0)
  }

  predicate ControlEnabled(firstCloses: nat, countCloses: nat, c: Control, a: Action) {
    match a
    case Cancel => !c.cancelled
    case SubscribeResult(_) => c.main.Subscribing?
    case Select(byCount) => c.main.Selecting? && (if byCount then countCloses > 0 else c.cancelled)
    case Proceed => CanProceed(c)
    case SamplerStep(onFirst) =>
      if onFirst then c.sampler.AwaitingFirst? && firstCloses > 0
      else (c.sampler.AwaitingFirst? || c.sampler.Sampling?) && c.runOverCloses > 0
    case _ => false
  }

  function NextStage(stage: Stage): Stage {
    match stage
    case Numbering => AddingBytes
    case AddingBytes => SettingLast
    case SettingLast => SettingFirst
    case SettingFirst => Classifying
    case Classifying => ClosingFirst
    case ClosingFirst => ClosingCount
    case ClosingCount => Ended
    case Ended => Ended
  }

  function Recorded(o: Options, m: Messages, c: Callback): Messages
    requires |m.shards| == o.shards > 0
  {
    match Classify(c.payload, c.arrivedAt)
    case WithoutTimestamp => m.(withoutTimestamp := m.withoutTimestamp + 1)
    case NegativeLatency => m.(negativeLatency := m.negativeLatency + 1)
    case Latency(ms) =>
      var shard := c.number % o.shards;
      m.(shards := m.shards[shard := m.shards[shard] + [ms]])
  }

  /** The effect of a callback's step on everything but the callback. */
  function Effect(o: Options, m: Messages, c: Callback): Messages
    requires |m.shards| == o.shards > 0
  {
    match c.stage
    case Numbering => m.(received := m.received + 1)
    case AddingBytes => m.(receivedBytes := m.receivedBytes + |c.payload|)
    case SettingLast => m.(lastMessageAt := Some(c.arrivedAt))
    case SettingFirst => if c.number == 1 then m.(firstMessageAt := Some(c.arrivedAt)) else m
    case Classifying => if o.benchmark then Recorded(o, m, c) else m
    case ClosingFirst => if c.number == 1 then m.(firstCloses := m.firstCloses + 1) else m
    case ClosingCount => if o.count > 0 && c.number == o.count then m.(countCloses := m.countCloses + 1) else m
    case Ended => m
  }

  function Moved(m: Messages, c: Callback): Callback {
    c.(stage := NextStage(c.stage), number := if c.stage.Numbering? then m.received + 1 else c.number)
  }

  function ApplyCallback(o: Options, m: Messages, a: Action): Messages
    requires CallbackEnabled(o, m, a)
  {
    match a
    case Deliver(payload, arrivedAt) => m.(callbacks := m.callbacks + [Callback(Numbering, payload, arrivedAt, 0)])
    case Advance(k) => Effect(o, m, m.callbacks[k]).(callbacks := m.callbacks[k := Moved(m, m.callbacks[k])])
  }

  function ApplyMain(c: Control): Control
    requires CanProceed(c)
  {
    match c.main
    case RecordingSubscribed => c.(subscribed := true, main := StartingSampler)
    case StartingSampler => c.(sampler := AwaitingFirst, main := Selecting)
    case RecordingStop => c.(finishedAtWrites := c.finishedAtWrites + 1, main := ClosingRunOver)
    case ClosingRunOver => c.(runOverCloses := c.runOverCloses + 1, main := AwaitingSampler)
    case AwaitingSampler => c.(main := Disconnecting(false))
    case Disconnecting(failed) => c.(disconnects := c.disconnects + 1, main := RecordingFinish(failed))
    case RecordingFinish(failed) =>
      c.(finishedAtWrites := if c.finishedAtWrites == 0 then 1 else c.finishedAtWrites, main := ClosingDone(failed))
    case ClosingDone(failed) => c.(doneCloses := c.doneCloses + 1, main := Returned(failed))
  }

  function ApplyControl(firstCloses: nat, countCloses: nat, c: Control, a: Action): Control
    requires ControlEnabled(firstCloses, countCloses, c, a)
  {
    match a
    case Cancel => c.(cancelled := true)
    case SubscribeResult(acknowledged) => c.(main := if acknowledged then RecordingSubscribed else Disconnecting(true))
    case Select(byCount) => c.(main := RecordingStop, stoppedByCount := byCount)
    case Proceed => ApplyMain(c)
    case SamplerStep(onFirst) => c.(sampler := if onFirst then Sampling else Stopped)
  }

  function Apply(o: Options, s: Run, a: Action): Run
    requires Enabled(o, s, a)
  {
    if OfMessages(a) then Run(ApplyCallback(o, s.messages, a), s.control)
    else Run(s.messages, ApplyControl(s.messages.firstCloses, s.messages.countCloses, s.control, a))
  }

  // ----- weights

  function Position(stage: Stage): nat {
    match stage
    case Numbering => 0
    case AddingBytes => 1
    case SettingLast => 2
    case SettingFirst => 3
    case Classifying => 4
    case ClosingFirst => 5
    case ClosingCount => 6
    case Ended => 7
  }

  function IsNumbered(c: Callback): nat { if c.stage.Numbering? then 0 else 1 }

  function CountedBytes(c: Callback): nat { if Position(c.stage) > 1 then |c.payload| else 0 }

  predicate Classified(c: Callback) { Position(c.stage) > 4 }

  /** Counted as received, but not yet looked at for its timestamp. */
  function Unclassified(c: Callback): nat { if c.stage.Numbering? || Classified(c) then 0 else 1 }

  /** The message holds no timestamp. */
  ghost predicate Timeless(c: Callback) { forall v :: !HoldsTimestamp(c.payload, v) }

  /** Its timestamp is later than its arrival. */
  ghost predicate FromLater(c: Callback) { exists v :: HoldsTimestamp(c.payload, v) && c.arrivedAt < v }

  /** It was sent that long before its arrival. */
  ghost predicate HasAge(c: Callback, ms: int) { ms >= 0 && HoldsTimestamp(c.payload, c.arrivedAt - ms) }

  /** recordLatency decides by the timestamp the message holds, and there is at most one. */
  lemma ClassifyExactly(c: Callback)
    ensures Classify(c.payload, c.arrivedAt) == WithoutTimestamp <==> Timeless(c)
    ensures Classify(c.payload, c.arrivedAt) == NegativeLatency <==> FromLater(c)
    ensures forall ms :: Classify(c.payload, c.arrivedAt) == Latency(ms) <==> HasAge(c, ms)
  {
    hide HoldsTimestamp, Timestamp;
    RecognisesAll(c.payload);
    if Timestamp(c.payload).Some? {
      assert HoldsTimestamp(c.payload, Timestamp(c.payload).value);
    }
  }

  ghost function SeenWithout(c: Callback): nat { if Classified(c) && Timeless(c) then 1 else 0 }

  ghost function SeenNegative(c: Callback): nat { if Classified(c) && FromLater(c) then 1 else 0 }

  ghost function SeenLatency(c: Callback): multiset<int> {
    if Classified(c) && exists ms :: HasAge(c, ms) then
      var ms :| HasAge(c, ms);
      multiset{ms}
    else multiset{}
  }

  /** What the weights are for each kind of message. */
  lemma SeenExactly(c: Callback)
    ensures SeenWithout(c) == if Classified(c) && Classify(c.payload, c.arrivedAt).WithoutTimestamp? then 1 else 0
    ensures SeenNegative(c) == if Classified(c) && Classify(c.payload, c.arrivedAt).NegativeLatency? then 1 else 0
    ensures SeenLatency(c) ==
              if Classified(c) && Classify(c.payload, c.arrivedAt).Latency? then
                multiset{Classify(c.payload, c.arrivedAt).milliseconds}
              else multiset{}
  {
    hide Timeless, FromLater, HasAge, Classify;
    ClassifyExactly(c);
    var kind := Classify(c.payload, c.arrivedAt);
    if kind.Latency? {
      assert HasAge(c, kind.milliseconds);
      assert forall ms :: HasAge(c, ms) ==> kind == Latency(ms);
    } else {
      assert forall ms :: !HasAge(c, ms);
    }
  }

  function HasClosedFirst(c: Callback): nat { if Position(c.stage) > 5 && c.number == 1 then 1 else 0 }

  function HasClosedCount(count: nat): Callback -> nat {
    (c: Callback) => if c.stage.Ended? && count > 0 && c.number == count then 1 else 0
  }

  // ----- the invariant

  /** The received counter hands out every number from 1 on exactly once. */
  ghost predicate NumbersOk(s: Messages) {
    && s.received == Sum(IsNumbered, s.callbacks)
    && (forall k :: 0 <= k < |s.callbacks| ==>
          if s.callbacks[k].stage.Numbering? then s.callbacks[k].number == 0
          else 1 <= s.callbacks[k].number <= s.received)
    && (forall j, k :: 0 <= j < k < |s.callbacks| && s.callbacks[j].number == s.callbacks[k].number ==>
          s.callbacks[j].number == 0)
    && forall m :: 1 <= m <= s.received ==> Taken(s.callbacks, m)
  }

  ghost predicate Taken(callbacks: seq<Callback>, m: nat) {
    exists k :: 0 <= k < |callbacks| && callbacks[k].number == m
  }

  ghost predicate ClosesOk(o: Options, s: Messages) {
    && s.receivedBytes == Sum(CountedBytes, s.callbacks)
    && s.firstCloses == Sum(HasClosedFirst, s.callbacks)
    && s.countCloses == Sum(HasClosedCount(o.count), s.callbacks)
    && (forall k :: 0 <= k < |s.callbacks| && s.callbacks[k].number == 1 && Position(s.callbacks[k].stage) > 3 ==>
          s.firstMessageAt == Some(s.callbacks[k].arrivedAt))
  }

  ghost predicate CountsOk(o: Options, s: Messages) {
    && s.withoutTimestamp == (if o.benchmark then Sum(SeenWithout, s.callbacks) else 0)
    && s.negativeLatency == (if o.benchmark then Sum(SeenNegative, s.callbacks) else 0)
  }

  ghost predicate LatenciesOk(o: Options, s: Messages) {
    && |s.shards| == o.shards
    && Gather(AsMultiset, s.shards) == (if o.benchmark then Gather(SeenLatency, s.callbacks) else multiset{})
  }

  predicate Stopping(m: Main) { m.RecordingStop? || m.ClosingRunOver? || m.AwaitingSampler? }

  predicate Deferred(m: Main) { m.Disconnecting? || m.RecordingFinish? || m.ClosingDone? || m.Returned? }

  predicate DeferredAfterRun(m: Main) { Deferred(m) && !m.failed }

  ghost predicate ControlOk(countCloses: nat, c: Control) {
    && (c.subscribed <==> c.main.StartingSampler? || c.main.Selecting? || Stopping(c.main) || DeferredAfterRun(c.main))
    && c.runOverCloses == (if c.main.AwaitingSampler? || DeferredAfterRun(c.main) then 1 else 0)
    && c.disconnects == (if Deferred(c.main) && !c.main.Disconnecting? then 1 else 0)
    && c.doneCloses == (if c.main.Returned? then 1 else 0)
    && c.finishedAtWrites == (if c.main.ClosingRunOver? || c.main.AwaitingSampler? || DeferredAfterRun(c.main)
                                 || c.main.ClosingDone? || c.main.Returned? then 1 else 0)
    && (c.sampler.NotStarted? <==> !c.subscribed || c.main.StartingSampler?)
    && (c.sampler.Stopped? ==> c.runOverCloses > 0)
    && (DeferredAfterRun(c.main) ==> c.sampler.Stopped?)
    && (c.stoppedByCount ==> countCloses > 0 && (Stopping(c.main) || DeferredAfterRun(c.main)))
    && (Stopping(c.main) || DeferredAfterRun(c.main) ==> c.stoppedByCount || c.cancelled)
  }

  ghost predicate MessagesOk(o: Options, s: Messages) {
    NumbersOk(s) && ClosesOk(o, s) && CountsOk(o, s) && LatenciesOk(o, s)
  }

  ghost predicate Inv(o: Options, s: Run) {
    MessagesOk(o, s.messages) && ControlOk(s.messages.countCloses, s.control)
  }

  lemma InitInv(o: Options)
    ensures Inv(o, Init(o))
  {
    GatherNothing(AsMultiset, Init(o).messages.shards);
  }

  /** A callback that has its number keeps it. */
  lemma StaysTaken(callbacks: seq<Callback>, after: seq<Callback>, m: nat)
    requires m > 0 && Taken(callbacks, m) && |callbacks| <= |after|
    requires forall k :: 0 <= k < |callbacks| && callbacks[k].number > 0 ==> after[k].number == callbacks[k].number
    ensures Taken(after, m)
  {
    var k :| 0 <= k < |callbacks| && callbacks[k].number == m;
    assert after[k].number == m;
  }

  lemma DeliverKeepsMessages(o: Options, s: Messages, payload: seq<byte>, arrivedAt: int)
    requires MessagesOk(o, s)
    ensures MessagesOk(o, ApplyCallback(o, s, Deliver(payload, arrivedAt)))
  {
    hide Sum, Gather, Classify;
    var c := Callback(Numbering, payload, arrivedAt, 0);
    var s' := ApplyCallback(o, s, Deliver(payload, arrivedAt));
    SumAppend(IsNumbered, s.callbacks, c);
    SumAppend(CountedBytes, s.callbacks, c);
    SumAppend(HasClosedFirst, s.callbacks, c);
    SumAppend(HasClosedCount(o.count), s.callbacks, c);
    SumAppend(SeenWithout, s.callbacks, c);
    SumAppend(SeenNegative, s.callbacks, c);
    GatherAppend(SeenLatency, s.callbacks, c);
    forall m | 1 <= m <= s'.received ensures Taken(s'.callbacks, m) {
      StaysTaken(s.callbacks, s'.callbacks, m);
    }
  }

  lemma AdvanceKeepsNumbers(o: Options, s: Messages, k: nat)
    requires NumbersOk(s) && CallbackEnabled(o, s, Advance(k))
    ensures NumbersOk(ApplyCallback(o, s, Advance(k)))
  {
    hide Sum, Gather, Classify;
    var s' := ApplyCallback(o, s, Advance(k));
    var c := s.callbacks[k];
    SumUpdate(IsNumbered, s.callbacks, k, Moved(s, c));
    assert s'.received == if c.stage.Numbering? then s.received + 1 else s.received;
    forall m | 1 <= m <= s'.received ensures Taken(s'.callbacks, m) {
      if m <= s.received {
        StaysTaken(s.callbacks, s'.callbacks, m);
      } else {
        assert s'.callbacks[k].number == m;
      }
    }
  }

  lemma AdvanceKeepsCloses(o: Options, s: Messages, k: nat)
    requires NumbersOk(s) && ClosesOk(o, s) && CallbackEnabled(o, s, Advance(k))
    ensures ClosesOk(o, ApplyCallback(o, s, Advance(k)))
    ensures ApplyCallback(o, s, Advance(k)).countCloses >= s.countCloses
  {
    hide Sum, Gather, Classify;
    var c := s.callbacks[k];
    SumUpdate(CountedBytes, s.callbacks, k, Moved(s, c));
    SumUpdate(HasClosedFirst, s.callbacks, k, Moved(s, c));
    SumUpdate(HasClosedCount(o.count), s.callbacks, k, Moved(s, c));
  }

  lemma AdvanceKeepsCounts(o: Options, s: Messages, k: nat)
    requires CountsOk(o, s) && CallbackEnabled(o, s, Advance(k))
    ensures CountsOk(o, ApplyCallback(o, s, Advance(k)))
  {
    hide Sum, Gather, Classify, SeenWithout, SeenNegative, SeenLatency;
    var c' := Moved(s, s.callbacks[k]);
    SeenExactly(s.callbacks[k]);
    SeenExactly(c');
    SumUpdate(SeenWithout, s.callbacks, k, c');
    SumUpdate(SeenNegative, s.callbacks, k, c');
  }

  lemma AdvanceKeepsLatencies(o: Options, s: Messages, k: nat)
    requires LatenciesOk(o, s) && CallbackEnabled(o, s, Advance(k))
    ensures LatenciesOk(o, ApplyCallback(o, s, Advance(k)))
  {
    hide Sum, Gather, Classify, SeenLatency, SeenWithout, SeenNegative;
    var c := s.callbacks[k];
    if o.benchmark && c.stage.Classifying? && Classify(c.payload, c.arrivedAt).Latency? {
      RecordKeepsLatencies(o, s, k);
    } else if o.benchmark {
      var c' := Moved(s, c);
      SeenExactly(c);
      SeenExactly(c');
      assert SeenLatency(c') == SeenLatency(c);
      assert Effect(o, s, c).shards == s.shards;
      GatherKeep(SeenLatency, s.callbacks, k, c');
    }
  }

  lemma RecordKeepsLatencies(o: Options, s: Messages, k: nat)
    requires LatenciesOk(o, s) && CallbackEnabled(o, s, Advance(k)) && o.benchmark
    requires s.callbacks[k].stage.Classifying? && Classify(s.callbacks[k].payload, s.callbacks[k].arrivedAt).Latency?
    ensures LatenciesOk(o, ApplyCallback(o, s, Advance(k)))
  {
    hide Sum, Gather, Classify, SeenLatency, SeenWithout, SeenNegative;
    var c := s.callbacks[k];
    SeenExactly(c);
    SeenExactly(Moved(s, c));
    var shard, ms := c.number % o.shards, Classify(c.payload, c.arrivedAt).milliseconds;
    GatherMore(AsMultiset, s.shards, shard, s.shards[shard] + [ms], multiset{ms});
    GatherMore(SeenLatency, s.callbacks, k, Moved(s, c), multiset{ms});
  }

  lemma ControlStepKeepsControl(firstCloses: nat, countCloses: nat, c: Control, a: Action)
    requires ControlOk(countCloses, c) && ControlEnabled(firstCloses, countCloses, c, a)
    ensures ControlOk(countCloses, ApplyControl(firstCloses, countCloses, c, a))
  {
  }

  lemma StepKeepsInv(o: Options, s: Run, a: Action)
    requires Inv(o, s) && Enabled(o, s, a)
    ensures Inv(o, Apply(o, s, a))
  {
    hide NumbersOk, ClosesOk, CountsOk, LatenciesOk, ApplyCallback, ApplyControl;
    match a
    case Deliver(payload, arrivedAt) =>
      DeliverKeepsMessages(o, s.messages, payload, arrivedAt);
      DeliverLeavesCloses(o, s.messages, payload, arrivedAt);
    case Advance(k) =>
      AdvanceKeepsNumbers(o, s.messages, k);
      AdvanceKeepsCloses(o, s.messages, k);
      AdvanceKeepsCounts(o, s.messages, k);
      AdvanceKeepsLatencies(o, s.messages, k);
    case _ => ControlStepKeepsControl(s.messages.firstCloses, s.messages.countCloses, s.control, a);
  }

  lemma DeliverLeavesCloses(o: Options, s: Messages, payload: seq<byte>, arrivedAt: int)
    ensures ApplyCallback(o, s, Deliver(payload, arrivedAt)).countCloses == s.countCloses
  {
  }

  // ----- whole runs

  ghost predicate Execution(o: Options, states: seq<Run>, actions: seq<Action>) {
    && |states| == |actions| + 1
    && states[0] == Init(o)
    && forall k :: 0 <= k < |actions| ==>
         Enabled(o, states[k], actions[k]) && states[k + 1] == Apply(o, states[k], actions[k])
  }

  lemma {:induction false} ReachableInv(o: Options, states: seq<Run>, actions: seq<Action>, k: nat)
    requires Execution(o, states, actions) && k < |states|
    ensures Inv(o, states[k])
  {
    hide Inv;
    if k == 0 {
      InitInv(o);
    } else {
      ReachableInv(o, states, actions, k - 1);
      StepKeepsInv(o, states[k - 1], actions[k - 1]);
    }
  }

  lemma {:induction false} AtMostOne(weight: Callback -> nat, callbacks: seq<Callback>)
    requires forall k :: 0 <= k < |callbacks| ==> weight(callbacks[k]) <= 1
    requires forall j, k :: 0 <= j < k < |callbacks| ==> weight(callbacks[j]) == 0 || weight(callbacks[k]) == 0
    ensures Sum(weight, callbacks) <= 1
  {
    if callbacks != [] {
      var last := |callbacks| - 1;
      AtMostOne(weight, callbacks[..last]);
      if weight(callbacks[last]) == 1 {
        SumZero(weight, callbacks[..last]);
      }
    }
  }

  /** Whatever callbacks run at once, each of the four channels is closed at most once. */
  lemma ChannelsClosedAtMostOnce(o: Options, states: seq<Run>, actions: seq<Action>, k: nat)
    requires Execution(o, states, actions) && k < |states|
    ensures states[k].messages.firstCloses <= 1 && states[k].messages.countCloses <= 1
    ensures states[k].control.runOverCloses <= 1 && states[k].control.doneCloses <= 1
  {
    ReachableInv(o, states, actions, k);
    AtMostOne(HasClosedFirst, states[k].messages.callbacks);
    AtMostOne(HasClosedCount(o.count), states[k].messages.callbacks);
  }

  /** countReached is closed only once that many messages have been received; and when they have
      been and no callback is still on its way, it is closed. */
  lemma CountReachedMeansReceived(o: Options, states: seq<Run>, actions: seq<Action>, k: nat)
    requires Execution(o, states, actions) && k < |states|
    ensures states[k].messages.countCloses > 0 ==> states[k].messages.received >= o.count > 0
    ensures states[k].messages.received >= o.count > 0
            && (forall j :: 0 <= j < |states[k].messages.callbacks| ==> states[k].messages.callbacks[j].stage.Ended?)
            ==> states[k].messages.countCloses == 1
  {
    hide Sum, Gather, ControlOk, CountsOk, LatenciesOk;
    ReachableInv(o, states, actions, k);
    var s := states[k].messages;
    if s.countCloses > 0 {
      var j := SumWitness(HasClosedCount(o.count), s.callbacks);
    }
    if s.received >= o.count > 0 && forall j :: 0 <= j < |s.callbacks| ==> s.callbacks[j].stage.Ended? {
      assert Taken(s.callbacks, o.count);
      var j :| 0 <= j < |s.callbacks| && s.callbacks[j].number == o.count;
      SumAtLeast(HasClosedCount(o.count), s.callbacks, j);
      ChannelsClosedAtMostOnce(o, states, actions, k);
    }
  }

  lemma {:induction false} EveryMessageHasAClass(callbacks: seq<Callback>)
    ensures Sum(IsNumbered, callbacks) == Sum(SeenWithout, callbacks) + Sum(SeenNegative, callbacks)
                                          + |Gather(SeenLatency, callbacks)| + Sum(Unclassified, callbacks)
  {
    hide Classify, SeenLatency, SeenWithout, SeenNegative;
    if callbacks != [] {
      SeenExactly(callbacks[|callbacks| - 1]);
      EveryMessageHasAClass(callbacks[..|callbacks| - 1]);
    }
  }

  /** With benchmark on, every received message is counted in exactly one way: without a
      timestamp, with a timestamp later than its arrival, or with its latency, or its callback
      has not got that far yet. The numbers of the first two are those of the messages that are
      so, and the latencies are the ages of the others. Without benchmark nothing is counted. */
  lemma EveryMessageClassifiedOnce(o: Options, states: seq<Run>, actions: seq<Action>, k: nat)
    requires Execution(o, states, actions) && k < |states|
    ensures var s := states[k].messages;
            var latencies := Gather(AsMultiset, s.shards);
            && (o.benchmark ==>
                 && s.received == s.withoutTimestamp + s.negativeLatency + |latencies| + Sum(Unclassified, s.callbacks)
                 && s.withoutTimestamp == Sum(SeenWithout, s.callbacks)
                 && s.negativeLatency == Sum(SeenNegative, s.callbacks)
                 && latencies == Gather(SeenLatency, s.callbacks))
            && (!o.benchmark ==> s.withoutTimestamp == s.negativeLatency == |latencies| == 0)
  {
    hide Sum, Gather, ControlOk, ClosesOk;
    ReachableInv(o, states, actions, k);
    EveryMessageHasAClass(states[k].messages.callbacks);
  }

  /** What the publisher's payload generator makes of a time, the subscriber reads back: the
      message counts with the time since then, or as negative if its clock is behind. */
  lemma BenchmarkMessageIsTimed(size: int, sentAt: int64, arrivedAt: int)
    requires sentAt >= 0
    ensures Classify(Payload(size, sentAt as int), arrivedAt) ==
              if arrivedAt < sentAt as int then NegativeLatency else Latency(arrivedAt - sentAt as int)
  {
    hide Timestamp, Payload;
    PrinterAndScannerAgree(size, sentAt);
  }

  /** A message of a benchmark publisher whose clock is not ahead of the subscriber's. */
  ghost predicate FromPublisher(c: Callback) {
    exists size: int, sentAt: int64 :: SentAt(c, size, sentAt)
  }

  predicate SentAt(c: Callback, size: int, sentAt: int64) {
    0 <= sentAt as int <= c.arrivedAt && c.payload == Payload(size, sentAt as int)
  }

  /** If all messages come from benchmark publishers with good clocks, then once no callback is
      on its way there is exactly one latency per message received, and nothing else. */
  lemma EveryBenchmarkMessageTimed(o: Options, states: seq<Run>, actions: seq<Action>, k: nat)
    requires Execution(o, states, actions) && k < |states| && o.benchmark
    requires forall j :: 0 <= j < |states[k].messages.callbacks| ==>
               states[k].messages.callbacks[j].stage.Ended? && FromPublisher(states[k].messages.callbacks[j])
    ensures var s := states[k].messages;
            && |Gather(AsMultiset, s.shards)| == s.received == |s.callbacks|
            && s.withoutTimestamp == s.negativeLatency == 0
  {
    hide Sum, Gather, Execution, Inv, Payload, Classify, SeenLatency, SeenWithout, SeenNegative;
    EveryMessageClassifiedOnce(o, states, actions, k);
    var s := states[k].messages;
    forall j | 0 <= j < |s.callbacks|
      ensures SeenWithout(s.callbacks[j]) == SeenNegative(s.callbacks[j]) == 0
    {
      TimedIfFromPublisher(s.callbacks[j]);
      SeenExactly(s.callbacks[j]);
    }
    SumZero(SeenWithout, s.callbacks);
    SumZero(SeenNegative, s.callbacks);
    SumZero(Unclassified, s.callbacks);
    ReceivedAtRest(o, states, actions, k);
  }

  lemma TimedIfFromPublisher(c: Callback)
    requires FromPublisher(c)
    ensures Classify(c.payload, c.arrivedAt).Latency?
  {
    hide Payload, Classify;
    var size: int, sentAt: int64 :| SentAt(c, size, sentAt);
    BenchmarkMessageIsTimed(size, sentAt, c.arrivedAt);
  }

  lemma ReceivedAtRest(o: Options, states: seq<Run>, actions: seq<Action>, k: nat)
    requires Execution(o, states, actions) && k < |states|
    requires forall j :: 0 <= j < |states[k].messages.callbacks| ==> states[k].messages.callbacks[j].stage.Ended?
    ensures states[k].messages.received == |states[k].messages.callbacks|
  {
    hide Sum, Gather;
    ReachableInv(o, states, actions, k);
    SumConstant(IsNumbered, states[k].messages.callbacks, 1);
  }

  /** The time of the first message is that of the message that got number 1, once its callback
      has come that far. */
  lemma FirstMessageIsNumberOne(o: Options, states: seq<Run>, actions: seq<Action>, k: nat, j: nat)
    requires Execution(o, states, actions) && k < |states| && j < |states[k].messages.callbacks|
    requires states[k].messages.callbacks[j].number == 1 && Position(states[k].messages.callbacks[j].stage) > 3
    ensures states[k].messages.firstMessageAt == Some(states[k].messages.callbacks[j].arrivedAt)
  {
    ReachableInv(o, states, actions, k);
  }

  /** However RunSubscribe returns, it has disconnected exactly once, marked the run as done
      exactly once and set its end time exactly once; and it has stopped because the context
      was cancelled, or with as many messages received as were asked for, or because the
      subscribe failed. The sampler is not running any more. */
  lemma ReturnsCleanly(o: Options, states: seq<Run>, actions: seq<Action>, k: nat)
    requires Execution(o, states, actions) && k < |states| && states[k].control.main.Returned?
    ensures var c := states[k].control;
            && c.disconnects == 1 && c.doneCloses == 1 && c.finishedAtWrites == 1
            && (c.main.failed <==> !c.subscribed)
            && c.runOverCloses == (if c.main.failed then 0 else 1)
            && (c.sampler.NotStarted? || c.sampler.Stopped?)
            && (!c.main.failed ==> if c.stoppedByCount then states[k].messages.received >= o.count > 0 else c.cancelled)
  {
    ReachableInv(o, states, actions, k);
    CountReachedMeansReceived(o, states, actions, k);
  }

  /** RunSubscribe never gets stuck: after the subscribe has been answered it can always go on,
      except that it waits for a cancellation or for the last message asked for. */
  lemma NeverStuck(o: Options, states: seq<Run>, actions: seq<Action>, k: nat) returns (a: Action)
    requires Execution(o, states, actions) && k < |states| && !states[k].control.main.Returned?
    requires states[k].control.main.Selecting? ==> states[k].control.cancelled || states[k].messages.countCloses > 0
    ensures Enabled(o, states[k], a) && !a.Cancel? && !OfMessages(a)
  {
    ReachableInv(o, states, actions, k);
    var c := states[k].control;
    match c.main
    case Subscribing => a := SubscribeResult(false);
    case Selecting => a := Select(!c.cancelled);
    case AwaitingSampler => a := if c.sampler.Stopped? then Proceed else SamplerStep(false);
    case _ => a := Proceed;
  }

  /** A cancellation can come at any moment, and is enough to end the wait in RunSubscribe. */
  lemma CancelEndsTheWait(o: Options, s: Run)
    requires !s.control.cancelled
    ensures Enabled(o, s, Cancel)
    ensures s.control.main.Selecting? ==>
              && Enabled(o, Apply(o, s, Cancel), Select(false))
              && Apply(o, Apply(o, s, Cancel), Select(false)).control.main.RecordingStop?
  {
  }

  /** A callback that has begun never waits for anything. */
  lemma CallbackCanAdvance(o: Options, states: seq<Run>, actions: seq<Action>, k: nat, j: nat)
    requires Execution(o, states, actions) && k < |states| && o.shards >= 1
    requires j < |states[k].messages.callbacks| && !states[k].messages.callbacks[j].stage.Ended?
    ensures Enabled(o, states[k], Advance(j))
  {
    hide Sum, Gather, NumbersOk, ClosesOk, CountsOk, ControlOk;
    ReachableInv(o, states, actions, k);
  }

  predicate FirstHasEnded(c: Callback) { c.number == 1 && c.stage.Ended? }

  /** A sampler that waits for the first message can start sampling as soon as the callback with
      number 1 has ended, and any sampler can stop as soon as the run is over. */
  lemma SamplerCanMove(o: Options, states: seq<Run>, actions: seq<Action>, k: nat)
    requires Execution(o, states, actions) && k < |states|
    ensures states[k].control.sampler.AwaitingFirst?
            && (exists j :: 0 <= j < |states[k].messages.callbacks| && FirstHasEnded(states[k].messages.callbacks[j]))
            ==> Enabled(o, states[k], SamplerStep(true))
    ensures (states[k].control.sampler.AwaitingFirst? || states[k].control.sampler.Sampling?)
            && states[k].control.runOverCloses == 1
            ==> Enabled(o, states[k], SamplerStep(false))
  {
    hide Sum, Gather, NumbersOk, CountsOk, LatenciesOk, ControlOk;
    ReachableInv(o, states, actions, k);
    forall j | 0 <= j < |states[k].messages.callbacks| {
      SumAtLeast(HasClosedFirst, states[k].messages.callbacks, j);
    }
  }

  // ----- how long a run can be

  function MainRank(m: Main): nat {
    match m
    case Subscribing => 10
    case RecordingSubscribed => 9
    case StartingSampler => 8
    case Selecting => 7
    case RecordingStop => 6
    case ClosingRunOver => 5
    case AwaitingSampler => 4
    case Disconnecting(_) => 3
    case RecordingFinish(_) => 2
    case ClosingDone(_) => 1
    case Returned(_) => 0
  }

  function SamplerRank(sampler: Sampler): nat {
    match sampler
    case NotStarted => 2
    case AwaitingFirst => 2
    case Sampling => 1
    case Stopped => 0
  }

  function ControlRank(c: Control): nat {
    (if c.cancelled then 0 else 1) + MainRank(c.main) + SamplerRank(c.sampler)
  }

  function StagesLeft(c: Callback): nat { 7 - Position(c.stage) }

  function IsControlStep(a: Action): nat { if OfMessages(a) then 0 else 1 }

  function IsDelivery(a: Action): nat { if a.Deliver? then 1 else 0 }

  lemma ControlRankDrops(firstCloses: nat, countCloses: nat, c: Control, a: Action)
    requires ControlOk(countCloses, c) && ControlEnabled(firstCloses, countCloses, c, a)
    ensures ControlRank(ApplyControl(firstCloses, countCloses, c, a)) < ControlRank(c)
  {
  }

  lemma CallbackRankDrops(o: Options, m: Messages, a: Action)
    requires CallbackEnabled(o, m, a)
    ensures Sum(StagesLeft, ApplyCallback(o, m, a).callbacks) + 1 <= Sum(StagesLeft, m.callbacks) + 8 * IsDelivery(a)
  {
    hide Sum, Effect;
    match a
    case Deliver(payload, arrivedAt) => SumAppend(StagesLeft, m.callbacks, Callback(Numbering, payload, arrivedAt, 0));
    case Advance(k) => SumUpdate(StagesLeft, m.callbacks, k, Moved(m, m.callbacks[k]));
  }

  lemma {:induction false} RanksAlongRun(o: Options, states: seq<Run>, actions: seq<Action>, k: nat)
    requires Execution(o, states, actions) && k < |states|
    ensures ControlRank(states[k].control) + Sum(IsControlStep, actions[..k]) <= 13
    ensures Sum(StagesLeft, states[k].messages.callbacks) + k
            <= 8 * Sum(IsDelivery, actions[..k]) + Sum(IsControlStep, actions[..k])
  {
    hide Inv, ApplyCallback, ApplyControl, CallbackEnabled, ControlEnabled, ControlRank, StagesLeft;
    if k == 0 {
      StartRanks(o);
    } else {
      RanksAlongRun(o, states, actions, k - 1);
      ReachableInv(o, states, actions, k - 1);
      assert actions[..k] == actions[..k - 1] + [actions[k - 1]];
      var s, a := states[k - 1], actions[k - 1];
      if OfMessages(a) {
        CallbackRankDrops(o, s.messages, a);
      } else {
        ControlStaysOk(o, s);
        ControlRankDrops(s.messages.firstCloses, s.messages.countCloses, s.control, a);
      }
    }
  }

  lemma StartRanks(o: Options)
    ensures ControlRank(Init(o).control) == 13 && Sum(StagesLeft, Init(o).messages.callbacks) == 0
  {
  }

  lemma ControlStaysOk(o: Options, s: Run)
    requires Inv(o, s)
    ensures ControlOk(s.messages.countCloses, s.control)
  {
  }

  /** RunSubscribe, its sampler and a cancellation take at most 13 steps in all, however many
      messages keep arriving; and with the at most 7 steps of each callback, a run is no longer
      than its deliveries allow. */
  lemma StepsAreBounded(o: Options, states: seq<Run>, actions: seq<Action>)
    requires Execution(o, states, actions)
    ensures Sum(IsControlStep, actions) <= 13
    ensures |actions| <= 8 * Sum(IsDelivery, actions) + 13
  {
    hide Sum;
    RanksAlongRun(o, states, actions, |actions|);
    assert actions[..|actions|] == actions;
  }
}
