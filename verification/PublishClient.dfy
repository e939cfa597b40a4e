/** One client's share of a publish run: the sending goroutine, its in-flight window, and one
    waiting goroutine per message. Each access to shared state is one step.

    Contracts taken for granted: the weighted semaphore gives out at most its capacity, an
    Acquire that fails takes no slot, and it fails exactly if the context is cancelled before it
    has its slot; the WaitGroup's Wait returns once its count is zero; WaitTimeout always ends, with an answer
    or without one. */
module PublishClient {
  import opened Optional
  import opened Counting

  datatype Options = Options(count: nat, inFlight: nat, qos: nat, perClientStats: bool)

  /** How waitForResult classifies a publish. */
  datatype Outcome = Acked | Failed | TimedOut

  datatype Waiter =
    | Waiting
    | Answered(outcome: Outcome)
    | SharedRecorded(microseconds: int)  // acked, recorded with all clients' latencies
    | OwnRecorded                        // acked, recorded with this client's latencies too
    | Counted(outcome: Outcome)
    | Released(outcome: Outcome)
    | Gone(outcome: Outcome)

  /** The sending goroutine; the number is the loop variable of sendMessages. */
  datatype Sender =
    | Acquiring(i: nat)
    | Sending(i: nat)
    | CountingSent(i: nat)
    | Registering(i: nat)
    | Spawning(i: nat)
    | Pacing(i: nat)
    | Draining
    | Drained
    | Disconnected
    | Exited

  datatype Client = Client(
    sender: Sender,
    stopped: bool,        // sendMessages returned because the context was cancelled
    held: int,            // slots of the in-flight window that are taken
    outstanding: int,     // count of the WaitGroup
    sent: nat,            // messages handed to the broker client
    published: nat,
    acked: nat,
    failed: nat,
    timedOut: nat,
    waiters: seq<Waiter>, // in the order they were started
    shared: seq<int>,     // what this client recorded with all clients' latencies
    own: seq<int>,        // what it recorded with its own
    disconnects: nat)

  datatype Action =
    | AcquireSlot
    | AcquireCancelled
    | Send
    | CountSent
    | Register
    | Spawn
    | Paced
    | PaceCancelled
    | WaitOver
    | Disconnect
    | Exit
    | Answer(w: nat, outcome: Outcome)
    | RecordShared(w: nat, microseconds: int)
    | RecordOwn(w: nat)
    | CountResult(w: nat)
    | Release(w: nat)
    | CallDone(w: nat)

  /** The top of the loop in sendMessages: another message, or the end of it. */
  function LoopTop(o: Options, i: nat): Sender {
    if i < o.count then Acquiring(i) else Draining
  }

  function Init(o: Options): Client {
    Client(LoopTop(o, 0), false, 0, 0, 0, 0, 0, 0, 0, [], [], [], 0)
  }

  /** What a waiter whose publish has this classification counts next; None while it still has
      a latency to record. */
  function ReadyToCount(o: Options, w: Waiter): Option<Outcome> {
    match w
    case Answered(Acked) => if o.qos > 0 then None else Some(Acked)
    case Answered(outcome) => Some(outcome)
    case SharedRecorded(_) => if o.perClientStats then None else Some(Acked)
    case OwnRecorded => Some(Acked)
    case _ => None
  }

  predicate OfWaiter(a: Action) {
    a.Answer? || a.RecordShared? || a.RecordOwn? || a.CountResult? || a.Release? || a.CallDone?
  }

  /** The goroutine that would take the step is at it, and is not blocked. */
  predicate Ready(o: Options, c: Client, a: Action) {
    match a
    case AcquireSlot => c.sender.Acquiring? && c.held < o.inFlight
    case AcquireCancelled => c.sender.Acquiring?
    case Send => c.sender.Sending?
    case CountSent => c.sender.CountingSent?
    case Register => c.sender.Registering?
    case Spawn => c.sender.Spawning?
    case Paced => c.sender.Pacing?
    case PaceCancelled => c.sender.Pacing?
    case WaitOver => c.sender.Draining? && c.outstanding == 0
    case Disconnect => c.sender.Drained?
    case Exit => c.sender.Disconnected?
    case Answer(w, _) => w < |c.waiters| && c.waiters[w].Waiting?
    case RecordShared(w, _) => w < |c.waiters| && c.waiters[w] == Answered(Acked) && o.qos > 0
    case RecordOwn(w) => w < |c.waiters| && c.waiters[w].SharedRecorded? && o.perClientStats
    case CountResult(w) => w < |c.waiters| && ReadyToCount(o, c.waiters[w]).Some?
    case Release(w) => w < |c.waiters| && c.waiters[w].Counted?
    case CallDone(w) => w < |c.waiters| && c.waiters[w].Released?
  }

  /** The steps that depend on the context. */
  predicate Allowed(cancelled: bool, a: Action) {
    && (a.AcquireSlot? ==> !cancelled)
    && (a.AcquireCancelled? || a.PaceCancelled? ==> cancelled)
  }

  predicate Enabled(o: Options, cancelled: bool, c: Client, a: Action) {
    Ready(o, c, a) && Allowed(cancelled, a)
  }

  function ApplySender(o: Options, c: Client, a: Action): Client
    requires !OfWaiter(a) && Ready(o, c, a)
  {
    match a
    case AcquireSlot => c.(held := c.held + 1, sender := Sending(c.sender.i))
    case AcquireCancelled => c.(sender := Draining, stopped := true)
    case Send => c.(sent := c.sent + 1, sender := CountingSent(c.sender.i))
    case CountSent => c.(published := c.published + 1, sender := Registering(c.sender.i))
    case Register => c.(outstanding := c.outstanding + 1, sender := Spawning(c.sender.i))
    case Spawn =>
      c.(waiters := c.waiters + [Waiting],
         sender := if c.sender.i == o.count - 1 then Draining else Pacing(c.sender.i))
    case Paced => c.(sender := LoopTop(o, c.sender.i + 1))
    case PaceCancelled => c.(sender := Draining, stopped := true)
    case WaitOver => c.(sender := Drained)
    case Disconnect => c.(disconnects := c.disconnects + 1, sender := Disconnected)
    case Exit => c.(sender := Exited)
  }

  function Count(c: Client, outcome: Outcome): Client {
    match outcome
    case Acked => c.(acked := c.acked + 1)
    case Failed => c.(failed := c.failed + 1)
    case TimedOut => c.(timedOut := c.timedOut + 1)
  }

  function WithWaiter(c: Client, k: nat, w: Waiter): Client
    requires k < |c.waiters|
  {
    c.(waiters := c.waiters[k := w])
  }

  function ApplyWaiter(o: Options, c: Client, a: Action): Client
    requires OfWaiter(a) && Ready(o, c, a)
  {
    match a
    case Answer(w, outcome) => WithWaiter(c, w, Answered(outcome))
    case RecordShared(w, microseconds) =>
      WithWaiter(c, w, SharedRecorded(microseconds)).(shared := c.shared + [microseconds])
    case RecordOwn(w) => WithWaiter(c, w, OwnRecorded).(own := c.own + [c.waiters[w].microseconds])
    case CountResult(w) =>
      Count(WithWaiter(c, w, Counted(ReadyToCount(o, c.waiters[w]).value)), ReadyToCount(o, c.waiters[w]).value)
    case Release(w) => WithWaiter(c, w, Released(c.waiters[w].outcome)).(held := c.held - 1)
    case CallDone(w) => WithWaiter(c, w, Gone(c.waiters[w].outcome)).(outstanding := c.outstanding - 1)
  }

  function Apply(o: Options, c: Client, a: Action): Client
    requires Ready(o, c, a)
  {
    if OfWaiter(a) then ApplyWaiter(o, c, a) else ApplySender(o, c, a)
  }

  // ----- weights: how many waiters are in a situation

  function HoldsSlot(w: Waiter): nat { if w.Released? || w.Gone? then 0 else 1 }

  function NotGone(w: Waiter): nat { if w.Gone? then 0 else 1 }

  predicate HasCounted(w: Waiter) { w.Counted? || w.Released? || w.Gone? }

  function Uncounted(w: Waiter): nat { if HasCounted(w) then 0 else 1 }

  function CountedAcked(w: Waiter): nat { if HasCounted(w) && w.outcome == Acked then 1 else 0 }

  function CountedFailed(w: Waiter): nat { if HasCounted(w) && w.outcome == Failed then 1 else 0 }

  function CountedTimedOut(w: Waiter): nat { if HasCounted(w) && w.outcome == TimedOut then 1 else 0 }

  /** Recorded with all clients' latencies, not yet counted as acked. */
  function RecordedUncounted(w: Waiter): nat { if w.SharedRecorded? || w.OwnRecorded? then 1 else 0 }

  /** Recorded with this client's latencies, not yet counted as acked. */
  function OwnUncounted(w: Waiter): nat { if w.OwnRecorded? then 1 else 0 }

  /** The latency a waiter has recorded for all clients but not yet for its own. */
  function OwnPending(w: Waiter): multiset<int> {
    if w.SharedRecorded? then multiset{w.microseconds} else multiset{}
  }

  function WaiterRank(w: Waiter): nat {
    match w
    case Waiting => 6
    case Answered(_) => 5
    case SharedRecorded(_) => 4
    case OwnRecorded => 3
    case Counted(_) => 2
    case Released(_) => 1
    case Gone(_) => 0
  }

  // ----- the invariant

  function SenderHolds(s: Sender): nat {
    if s.Sending? || s.CountingSent? || s.Registering? || s.Spawning? then 1 else 0
  }

  /** The message the sender is on has been handed over, counted, registered, and so on. */
  function Ahead(s: Sender): (nat, nat, nat) {
    match s
    case CountingSent(_) => (1, 0, 0)
    case Registering(_) => (1, 1, 0)
    case Spawning(_) => (1, 1, 1)
    case _ => (0, 0, 0)
  }

  /** The in-flight window and the WaitGroup agree with the goroutines that are still there. */
  ghost predicate WindowOk(o: Options, c: Client) {
    && c.held == Sum(HoldsSlot, c.waiters) + SenderHolds(c.sender)
    && c.held <= o.inFlight
    && c.outstanding == Sum(NotGone, c.waiters) + Ahead(c.sender).2
  }

  /** The counters agree with what happened to each message. */
  ghost predicate CountersOk(c: Client) {
    && c.sent == |c.waiters| + Ahead(c.sender).0
    && c.published == |c.waiters| + Ahead(c.sender).1
    && c.acked == Sum(CountedAcked, c.waiters)
    && c.failed == Sum(CountedFailed, c.waiters)
    && c.timedOut == Sum(CountedTimedOut, c.waiters)
  }

  ghost predicate SenderOk(o: Options, c: Client) {
    && (match c.sender
        case Acquiring(i) => |c.waiters| == i < o.count
        case Sending(i) => |c.waiters| == i < o.count
        case CountingSent(i) => |c.waiters| == i < o.count
        case Registering(i) => |c.waiters| == i < o.count
        case Spawning(i) => |c.waiters| == i < o.count
        case Pacing(i) => |c.waiters| == i + 1 < o.count
        case _ => |c.waiters| <= o.count && (!c.stopped ==> |c.waiters| == o.count))
    && (c.stopped ==> c.sender.Draining? || Over(c.sender))
    && (Over(c.sender) ==> c.outstanding == 0)
    && c.disconnects == (if c.sender.Disconnected? || c.sender.Exited? then 1 else 0)
  }

  /** The wait for outstanding publishes is over. */
  predicate Over(s: Sender) { s.Drained? || s.Disconnected? || s.Exited? }

  /** Only acked publishes above QoS 0 are recorded, each once, just before being counted. */
  ghost predicate RecordedOk(o: Options, c: Client) {
    && (forall w :: 0 <= w < |c.waiters| ==> StageOk(o, c.waiters[w]))
    && |c.shared| == (if o.qos > 0 then c.acked + Sum(RecordedUncounted, c.waiters) else 0)
    && |c.own| == (if o.qos > 0 && o.perClientStats then c.acked + Sum(OwnUncounted, c.waiters) else 0)
  }

  predicate StageOk(o: Options, w: Waiter) {
    && (w.SharedRecorded? ==> o.qos > 0)
    && (w.OwnRecorded? ==> o.qos > 0 && o.perClientStats)
  }

  /** The client's own latencies are the ones it recorded for all clients. */
  ghost predicate SameLatencies(o: Options, c: Client) {
    o.perClientStats ==> multiset(c.shared) == multiset(c.own) + Gather(OwnPending, c.waiters)
  }

  ghost predicate Inv(o: Options, c: Client) {
    WindowOk(o, c) && CountersOk(c) && SenderOk(o, c) && RecordedOk(o, c) && SameLatencies(o, c)
  }

  lemma InitInv(o: Options)
    ensures Inv(o, Init(o))
  {
  }

  lemma WeighNew(ws: seq<Waiter>)
    ensures Sum(HoldsSlot, ws + [Waiting]) == Sum(HoldsSlot, ws) + 1
    ensures Sum(NotGone, ws + [Waiting]) == Sum(NotGone, ws) + 1
    ensures Sum(CountedAcked, ws + [Waiting]) == Sum(CountedAcked, ws)
    ensures Sum(CountedFailed, ws + [Waiting]) == Sum(CountedFailed, ws)
    ensures Sum(CountedTimedOut, ws + [Waiting]) == Sum(CountedTimedOut, ws)
    ensures Sum(RecordedUncounted, ws + [Waiting]) == Sum(RecordedUncounted, ws)
    ensures Sum(OwnUncounted, ws + [Waiting]) == Sum(OwnUncounted, ws)
    ensures Gather(OwnPending, ws + [Waiting]) == Gather(OwnPending, ws)
  {
    SumAppend(HoldsSlot, ws, Waiting);
    SumAppend(NotGone, ws, Waiting);
    SumAppend(CountedAcked, ws, Waiting);
    SumAppend(CountedFailed, ws, Waiting);
    SumAppend(CountedTimedOut, ws, Waiting);
    SumAppend(RecordedUncounted, ws, Waiting);
    SumAppend(OwnUncounted, ws, Waiting);
    GatherAppend(OwnPending, ws, Waiting);
  }

  lemma SpawnKeepsInv(o: Options, c: Client)
    requires Inv(o, c) && Ready(o, c, Spawn)
    ensures Inv(o, Apply(o, c, Spawn))
  {
    hide Sum, Gather;
    WeighNew(c.waiters);
  }

  lemma SenderStepKeepsWindow(o: Options, c: Client, a: Action)
    requires Inv(o, c) && Ready(o, c, a) && !OfWaiter(a) && !a.Spawn?
    ensures WindowOk(o, Apply(o, c, a)) && SenderOk(o, Apply(o, c, a))
  {
    hide Sum, Gather, CountersOk, RecordedOk, SameLatencies;
  }

  lemma SenderStepKeepsCounters(o: Options, c: Client, a: Action)
    requires Inv(o, c) && Ready(o, c, a) && !OfWaiter(a) && !a.Spawn?
    ensures CountersOk(Apply(o, c, a)) && RecordedOk(o, Apply(o, c, a)) && SameLatencies(o, Apply(o, c, a))
  {
    hide Sum, Gather, WindowOk, SenderOk;
  }

  lemma SenderStepKeepsInv(o: Options, cancelled: bool, c: Client, a: Action)
    requires Inv(o, c) && Enabled(o, cancelled, c, a) && !OfWaiter(a)
    ensures Inv(o, Apply(o, c, a))
  {
    hide WindowOk, CountersOk, SenderOk, RecordedOk, SameLatencies, Apply;
    if a.Spawn? {
      SpawnKeepsInv(o, c);
    } else {
      SenderStepKeepsWindow(o, c, a);
      SenderStepKeepsCounters(o, c, a);
    }
  }

  /** What a waiter's step does to the shared state, in terms of the weights. */
  lemma WaiterEffect(o: Options, c: Client, a: Action)
    requires Ready(o, c, a) && OfWaiter(a)
    ensures var c' := Apply(o, c, a);
            && |c'.waiters| == |c.waiters| && c'.waiters == c.waiters[a.w := c'.waiters[a.w]]
            && c'.sender == c.sender && c'.stopped == c.stopped && c'.disconnects == c.disconnects
            && c'.sent == c.sent && c'.published == c.published
  {
  }

  lemma WaiterMoves(o: Options, c: Client, a: Action)
    requires Ready(o, c, a) && OfWaiter(a) && StageOk(o, c.waiters[a.w])
    ensures a.w < |Apply(o, c, a).waiters|
    ensures var c' := Apply(o, c, a);
            var before, after := c.waiters[a.w], c'.waiters[a.w];
            && c'.held + HoldsSlot(before) == c.held + HoldsSlot(after)
            && HoldsSlot(after) <= HoldsSlot(before)
            && c'.outstanding + NotGone(before) == c.outstanding + NotGone(after)
            && NotGone(before) == 1
            && c'.acked + CountedAcked(before) == c.acked + CountedAcked(after)
            && c'.failed + CountedFailed(before) == c.failed + CountedFailed(after)
            && c'.timedOut + CountedTimedOut(before) == c.timedOut + CountedTimedOut(after)
            && StageOk(o, after)
  {
  }

  /** A latency is recorded just before its ack is counted, or not at all at QoS 0. */
  lemma WaiterRecords(o: Options, c: Client, a: Action)
    requires Ready(o, c, a) && OfWaiter(a) && StageOk(o, c.waiters[a.w])
    ensures a.w < |Apply(o, c, a).waiters|
    ensures var c' := Apply(o, c, a);
            var before, after := c.waiters[a.w], c'.waiters[a.w];
            && (o.qos > 0 ==>
                  |c'.shared| + c.acked + RecordedUncounted(before) == |c.shared| + c'.acked + RecordedUncounted(after))
            && (o.qos > 0 && o.perClientStats ==>
                  |c'.own| + c.acked + OwnUncounted(before) == |c.own| + c'.acked + OwnUncounted(after))
            && (o.qos == 0 ==> c'.shared == c.shared)
            && (o.qos == 0 || !o.perClientStats ==> c'.own == c.own)
  {
  }

  lemma WaiterStepKeepsWindow(o: Options, cancelled: bool, c: Client, a: Action)
    requires Inv(o, c) && Enabled(o, cancelled, c, a) && OfWaiter(a)
    ensures WindowOk(o, Apply(o, c, a)) && SenderOk(o, Apply(o, c, a)) && CountersOk(Apply(o, c, a))
  {
    hide Sum, Gather, Apply, HoldsSlot, NotGone, CountedAcked, CountedFailed, CountedTimedOut;
    WaiterEffect(o, c, a);
    WaiterMoves(o, c, a);
    var after := Apply(o, c, a).waiters[a.w];
    SumUpdate(HoldsSlot, c.waiters, a.w, after);
    SumUpdate(NotGone, c.waiters, a.w, after);
    SumUpdate(CountedAcked, c.waiters, a.w, after);
    SumUpdate(CountedFailed, c.waiters, a.w, after);
    SumUpdate(CountedTimedOut, c.waiters, a.w, after);
    SumAtLeast(NotGone, c.waiters, a.w);
  }

  lemma WaiterStepKeepsRecorded(o: Options, cancelled: bool, c: Client, a: Action)
    requires RecordedOk(o, c) && Enabled(o, cancelled, c, a) && OfWaiter(a)
    ensures RecordedOk(o, Apply(o, c, a))
  {
    hide Sum, Gather, Apply, RecordedUncounted, OwnUncounted, StageOk;
    WaiterEffect(o, c, a);
    WaiterMoves(o, c, a);
    WaiterRecords(o, c, a);
    var after := Apply(o, c, a).waiters[a.w];
    SumUpdate(RecordedUncounted, c.waiters, a.w, after);
    SumUpdate(OwnUncounted, c.waiters, a.w, after);
  }

  lemma WaiterStepKeepsLatencies(o: Options, cancelled: bool, c: Client, a: Action)
    requires SameLatencies(o, c) && Enabled(o, cancelled, c, a) && OfWaiter(a)
    ensures SameLatencies(o, Apply(o, c, a))
  {
    hide Apply, ReadyToCount, Gather;
    if o.perClientStats {
      if a.RecordShared? {
        RecordSharedKeepsLatencies(o, c, a.w, a.microseconds);
      } else if a.RecordOwn? {
        RecordOwnKeepsLatencies(o, c, a.w);
      } else {
        OtherKeepsLatencies(o, c, a);
      }
    }
  }

  lemma OtherKeepsLatencies(o: Options, c: Client, a: Action)
    requires o.perClientStats && SameLatencies(o, c) && Ready(o, c, a) && OfWaiter(a)
    requires !a.RecordShared? && !a.RecordOwn?
    ensures SameLatencies(o, Apply(o, c, a))
  {
    hide Sum, Gather, OwnPending, Apply;
    OtherLeavesLatencies(o, c, a);
    var c' := Apply(o, c, a);
    GatherKeep(OwnPending, c.waiters, a.w, c'.waiters[a.w]);
  }

  lemma OtherLeavesLatencies(o: Options, c: Client, a: Action)
    requires o.perClientStats && Ready(o, c, a) && OfWaiter(a)
    requires !a.RecordShared? && !a.RecordOwn?
    ensures var c' := Apply(o, c, a);
            && c'.shared == c.shared && c'.own == c.own && |c'.waiters| == |c.waiters|
            && c'.waiters == c.waiters[a.w := c'.waiters[a.w]]
            && OwnPending(c'.waiters[a.w]) == OwnPending(c.waiters[a.w])
  {
  }

  lemma RecordSharedKeepsLatencies(o: Options, c: Client, w: nat, microseconds: int)
    requires o.perClientStats && SameLatencies(o, c) && Ready(o, c, RecordShared(w, microseconds))
    ensures SameLatencies(o, Apply(o, c, RecordShared(w, microseconds)))
  {
    hide Sum, Gather;
    var c' := Apply(o, c, RecordShared(w, microseconds));
    GatherGain(OwnPending, c.waiters, w, SharedRecorded(microseconds));
    assert multiset(c'.shared) == multiset(c.shared) + multiset{microseconds};
    assert c'.own == c.own;
  }

  lemma RecordOwnKeepsLatencies(o: Options, c: Client, w: nat)
    requires o.perClientStats && SameLatencies(o, c) && Ready(o, c, RecordOwn(w))
    ensures SameLatencies(o, Apply(o, c, RecordOwn(w)))
  {
    hide Sum, Gather;
    var c' := Apply(o, c, RecordOwn(w));
    GatherLose(OwnPending, c.waiters, w, OwnRecorded);
    assert multiset(c'.own) == multiset(c.own) + multiset{c.waiters[w].microseconds};
    assert c'.shared == c.shared;
  }

  lemma StepKeepsInv(o: Options, cancelled: bool, c: Client, a: Action)
    requires Inv(o, c) && Enabled(o, cancelled, c, a)
    ensures Inv(o, Apply(o, c, a))
  {
    hide Sum, Gather;
    if OfWaiter(a) {
      WaiterStepKeepsWindow(o, cancelled, c, a);
      WaiterStepKeepsRecorded(o, cancelled, c, a);
      WaiterStepKeepsLatencies(o, cancelled, c, a);
    } else {
      SenderStepKeepsInv(o, cancelled, c, a);
    }
  }

  // ----- what the invariant says about one client

  lemma {:induction false} WaitersPartition(ws: seq<Waiter>)
    ensures |ws| == Sum(CountedAcked, ws) + Sum(CountedFailed, ws) + Sum(CountedTimedOut, ws) + Sum(Uncounted, ws)
  {
    if ws != [] {
      WaitersPartition(ws[..|ws| - 1]);
    }
  }

  /** At every moment the slots taken are those of the waiters that have not released theirs and
      of the message being sent, within the window; the WaitGroup counts the waiters still
      there; and every published message is counted once or still to be counted. */
  lemma WindowAndCounters(o: Options, c: Client)
    requires Inv(o, c)
    ensures 0 <= c.held == Sum(HoldsSlot, c.waiters) + SenderHolds(c.sender) <= o.inFlight
    ensures 0 <= c.outstanding == Sum(NotGone, c.waiters) + Ahead(c.sender).2
    ensures c.published == c.acked + c.failed + c.timedOut + Sum(Uncounted, c.waiters) + Ahead(c.sender).1
    ensures c.published <= c.sent <= c.published + 1 && c.sent <= o.count
  {
    WaitersPartition(c.waiters);
  }

  /** No acknowledgement: still waited for, failed, or given up. */
  function NotAcked(w: Waiter): nat {
    match w
    case Waiting => 1
    case Answered(outcome) => if outcome == Acked then 0 else 1
    case Counted(outcome) => if outcome == Acked then 0 else 1
    case Released(outcome) => if outcome == Acked then 0 else 1
    case Gone(outcome) => if outcome == Acked then 0 else 1
    case _ => 0
  }

  /** Messages sent that the broker has not acknowledged. At QoS 0 it acknowledges none: there
      Acked only means that the message has been written. */
  function Unacknowledged(o: Options, c: Client): nat {
    if o.qos > 0 then Sum(NotAcked, c.waiters) + Ahead(c.sender).0 else c.sent
  }

  function CountedUnacked(w: Waiter): nat { CountedTimedOut(w) + CountedFailed(w) }

  function HeldOrUnacked(w: Waiter): nat { HoldsSlot(w) + CountedUnacked(w) }

  /** The window bounds the unacknowledged messages that have not been counted as failed or timed
      out; all of them only if it is large enough for every message the client ever sends. */
  lemma UnacknowledgedIsBounded(o: Options, c: Client)
    requires Inv(o, c)
    ensures o.qos > 0 ==> Unacknowledged(o, c) <= o.inFlight + c.timedOut + c.failed
    ensures o.qos == 0 ==> Unacknowledged(o, c) <= o.inFlight + c.timedOut + c.failed + c.acked
    ensures o.count <= o.inFlight ==> Unacknowledged(o, c) <= o.inFlight
  {
    SumAtMost(NotAcked, HeldOrUnacked, c.waiters);
    SumSplit(HeldOrUnacked, HoldsSlot, CountedUnacked, c.waiters);
    SumSplit(CountedUnacked, CountedTimedOut, CountedFailed, c.waiters);
    SumBounded(NotAcked, c.waiters, 1);
    SumAtMost(Uncounted, HoldsSlot, c.waiters);
    WaitersPartition(c.waiters);
  }

  /** Neither the semaphore nor the WaitGroup is ever given back more than was taken. */
  lemma NeverOverReleased(o: Options, c: Client, w: nat)
    requires Inv(o, c)
    ensures Ready(o, c, Release(w)) ==> c.held >= 1
    ensures Ready(o, c, CallDone(w)) ==> c.outstanding >= 1
  {
    if w < |c.waiters| {
      SumAtLeast(HoldsSlot, c.waiters, w);
      SumAtLeast(NotGone, c.waiters, w);
    }
  }

  /** Once the wait is over, so at the disconnect too, no waiter is left, no slot is taken, every
      message is counted, and the latencies recorded are exactly the acked publishes above QoS 0. */
  lemma DrainedMeansDone(o: Options, c: Client)
    requires Inv(o, c) && Over(c.sender)
    ensures forall w :: 0 <= w < |c.waiters| ==> c.waiters[w].Gone?
    ensures c.held == 0 && c.outstanding == 0
    ensures c.sent == c.published == c.acked + c.failed + c.timedOut <= o.count
    ensures !c.stopped ==> c.published == o.count
    ensures |c.shared| == (if o.qos > 0 then c.acked else 0)
    ensures |c.own| == (if o.qos > 0 && o.perClientStats then c.acked else 0)
    ensures o.perClientStats ==> multiset(c.own) == multiset(c.shared)
  {
    SumZero(NotGone, c.waiters);
    SumZero(HoldsSlot, c.waiters);
    SumZero(Uncounted, c.waiters);
    SumZero(RecordedUncounted, c.waiters);
    SumZero(OwnUncounted, c.waiters);
    GatherNothing(OwnPending, c.waiters);
    WaitersPartition(c.waiters);
  }

  /** While the run is going on, latencies recorded and acks counted differ by exactly the
      waiters between the two. */
  lemma LatenciesRunAhead(o: Options, c: Client)
    requires Inv(o, c) && o.qos > 0
    ensures |c.shared| - c.acked == Sum(RecordedUncounted, c.waiters)
    ensures o.perClientStats ==> |c.own| - c.acked == Sum(OwnUncounted, c.waiters)
  {
  }

  // ----- progress and termination

  /** The next step of a waiter whose wait, if it is not over yet, ends with this outcome. */
  function WaiterAction(o: Options, c: Client, k: nat, outcome: Outcome): (a: Action)
    requires k < |c.waiters| && !c.waiters[k].Gone? && StageOk(o, c.waiters[k])
    ensures Ready(o, c, a) && OfWaiter(a) && (a.Answer? ==> a.outcome == outcome)
  {
    var w := c.waiters[k];
    if w.Waiting? then Answer(k, outcome)
    else if w.Counted? then Release(k)
    else if w.Released? then CallDone(k)
    else if ReadyToCount(o, w).Some? then CountResult(k)
    else if w.SharedRecorded? then RecordOwn(k)
    else RecordShared(k, 0)
  }

  /** Until the client's goroutine has ended, something can move without any help from outside:
      a sender waiting for a slot or for the last results has a waiter that can go on. Whatever
      the outcome is that a wait ends with, a time-out for instance, will do. */
  lemma ClientCanMove(o: Options, cancelled: bool, c: Client, outcome: Outcome) returns (a: Action)
    requires Inv(o, c) && !c.sender.Exited? && o.inFlight >= 1
    ensures Enabled(o, cancelled, c, a) && !a.PaceCancelled? && (a.Answer? ==> a.outcome == outcome)
  {
    match c.sender
    case Acquiring(_) =>
      if cancelled {
        a := AcquireCancelled;
      } else if c.held < o.inFlight {
        a := AcquireSlot;
      } else {
        var k := SumWitness(HoldsSlot, c.waiters);
        a := WaiterAction(o, c, k, outcome);
      }
    case Sending(_) => a := Send;
    case CountingSent(_) => a := CountSent;
    case Registering(_) => a := Register;
    case Spawning(_) => a := Spawn;
    case Pacing(_) => a := Paced;
    case Draining =>
      if c.outstanding == 0 {
        a := WaitOver;
      } else {
        var k := SumWitness(NotGone, c.waiters);
        a := WaiterAction(o, c, k, outcome);
      }
    case Drained => a := Disconnect;
    case Disconnected => a := Exit;
  }

  function SenderRank(o: Options, s: Sender): int {
    match s
    case Acquiring(i) => 20 * (o.count - i) + 10
    case Sending(i) => 20 * (o.count - i) + 9
    case CountingSent(i) => 20 * (o.count - i) + 8
    case Registering(i) => 20 * (o.count - i) + 7
    case Spawning(i) => 20 * (o.count - i) + 6
    case Pacing(i) => 20 * (o.count - i) - 9
    case Draining => 3
    case Drained => 2
    case Disconnected => 1
    case Exited => 0
  }

  /** A bound on the steps a client can still take. */
  function Rank(o: Options, c: Client): int {
    SenderRank(o, c.sender) + Sum(WaiterRank, c.waiters)
  }

  lemma RankFromStart(o: Options)
    ensures 0 <= Rank(o, Init(o)) <= 20 * o.count + 10
  {
  }

  lemma RankDecreases(o: Options, cancelled: bool, c: Client, a: Action)
    requires Inv(o, c) && Enabled(o, cancelled, c, a)
    ensures 0 <= Rank(o, Apply(o, c, a)) < Rank(o, c)
  {
    hide Sum, Gather;
    StepKeepsInv(o, cancelled, c, a);
    var c' := Apply(o, c, a);
    if OfWaiter(a) {
      WaiterRankDrops(o, c, a);
    } else if a.Spawn? {
      SumAppend(WaiterRank, c.waiters, Waiting);
    }
  }

  lemma WaiterRankDrops(o: Options, c: Client, a: Action)
    requires Ready(o, c, a) && OfWaiter(a)
    ensures Apply(o, c, a).sender == c.sender
    ensures Sum(WaiterRank, Apply(o, c, a).waiters) < Sum(WaiterRank, c.waiters)
  {
    hide Sum, Gather;
    var after := Apply(o, c, a).waiters[a.w];
    assert Apply(o, c, a).waiters == c.waiters[a.w := after];
    SumUpdate(WaiterRank, c.waiters, a.w, after);
  }

  /** A cancellation ends the wait for a slot and the pause between messages, so the sender can go
      straight on to wait for the last results, whatever its waiters and its pacer do. */
  lemma CancelledSenderCanStop(o: Options, c: Client)
    requires WaitsToSend(c.sender)
    ensures var a := if c.sender.Acquiring? then AcquireCancelled else PaceCancelled;
            Enabled(o, true, c, a) && Apply(o, c, a) == c.(sender := Draining, stopped := true)
  {
  }

  /** Once the context is cancelled, a client hands over no more messages than the one it already
      has a slot for. */
  lemma CancelledStopsSending(o: Options, c: Client, a: Action)
    requires Enabled(o, true, c, a)
    ensures var c' := Apply(o, c, a);
            c'.sent + AboutToSend(c'.sender) == c.sent + AboutToSend(c.sender)
  {
  }

  predicate WaitsToSend(s: Sender) { s.Acquiring? || s.Pacing? }

  function AboutToSend(s: Sender): nat { if s.Sending? then 1 else 0 }

  /** No step takes a message or a result back. */
  lemma CountersGrow(o: Options, c: Client, a: Action)
    requires Ready(o, c, a)
    ensures var c' := Apply(o, c, a);
            && c.published <= c'.published && c.acked <= c'.acked
            && c.failed <= c'.failed && c.timedOut <= c'.timedOut
  {
  }
}
