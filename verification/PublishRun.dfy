/** A whole publish run: connecting, one publishing goroutine per client, the acks sampler, and
    the goroutine that called RunPublish. All of them interleave, and the context can be
    cancelled at any moment. */
module PublishRun {
  import opened Counting
  import C = ConnectClients
  import P = PublishClient

  datatype Options = Options(clients: nat, connectConcurrency: nat, publish: P.Options, shards: nat)

  predicate ValidOptions(o: Options) {
    o.connectConcurrency >= 1 && o.publish.inFlight >= 1 && o.shards >= 1
  }

  function Connecting(o: Options): C.Options { C.Options(o.clients, o.connectConcurrency) }

  datatype Verdict =
    | Nil
    | ConnectError
    | PublishError(published: nat, acked: nat, failed: nat, timedOut: nat)

  /** Where RunPublish is. */
  datatype Main =
    | InConnect
    | ReportingFailure     // finishConnecting(false) is next
    | FinishingFailure     // finish is next
    | JudgingFailure       // looks whether the context was cancelled
    | ReportingConnected   // finishConnecting(true) and the sampler are next
    | Adding(next: nat)    // waitGroup.Add is next
    | Starting(next: nat)  // the go statement is next
    | AwaitingClients
    | Finishing            // finish is next
    | AwaitingSampler
    | Judging              // looks at the final counters
    | Returned(verdict: Verdict)

  datatype Sampler = NotStarted | Sampling | Stopped

  datatype Run = Run(
    main: Main,
    cancelled: bool,
    group: C.Group,
    publishers: seq<P.Client>,   // the clients whose goroutine has been started
    outstanding: int,            // count of the run's WaitGroup
    shards: seq<seq<int>>,       // what each shared latency array has recorded
    sampler: Sampler,
    connectFailed: bool,
    connectFinishedCloses: nat,  // closes of the channel connectFinished
    doneCloses: nat)             // closes of the channel done

  datatype Action =
    | Cancel
    | Connect(c: C.Action)
    | Publish(i: nat, p: P.Action)
    | Proceed                    // the next step of RunPublish itself
    | StopSampler

  function Init(o: Options): Run {
    Run(InConnect, false, C.Init(Connecting(o)), [], 0, seq(o.shards, _ => []), NotStarted, false, 0, 0)
  }

  predicate CanProceed(s: Run) {
    match s.main
    case InConnect => s.group.caller.Done?
    case AwaitingClients => s.outstanding == 0
    case AwaitingSampler => s.sampler.Stopped?
    case Returned(_) => false
    case _ => true
  }

  predicate Enabled(o: Options, s: Run, a: Action) {
    match a
    case Cancel => !s.cancelled
    case Connect(c) => C.Shaped(Connecting(o), s.group) && C.Enabled(Connecting(o), s.group, c)
    case Publish(i, p) =>
      && i < |s.publishers| && |s.shards| == o.shards > 0
      && P.Enabled(o.publish, s.cancelled, s.publishers[i], p)
    case Proceed => CanProceed(s)
    case StopSampler => s.sampler.Sampling? && s.doneCloses > 0
  }

  function Published(c: P.Client): nat { c.published }
  function Acked(c: P.Client): nat { c.acked }
  function Failed(c: P.Client): nat { c.failed }
  function TimedOut(c: P.Client): nat { c.timedOut }

  function Judge(s: Run): Verdict {
    var published, acked := Sum(Published, s.publishers), Sum(Acked, s.publishers);
    var failed, timedOut := Sum(Failed, s.publishers), Sum(TimedOut, s.publishers);
    if failed + timedOut > 0 then PublishError(published, acked, failed, timedOut) else Nil
  }

  function ApplyMain(o: Options, s: Run): Run
    requires CanProceed(s)
  {
    match s.main
    case InConnect => s.(main := if s.group.caller.connected then ReportingConnected else ReportingFailure)
    case ReportingFailure =>
      s.(connectFailed := true, connectFinishedCloses := s.connectFinishedCloses + 1, main := FinishingFailure)
    case FinishingFailure => s.(doneCloses := s.doneCloses + 1, main := JudgingFailure)
    case JudgingFailure => s.(main := Returned(if s.cancelled then Nil else ConnectError))
    case ReportingConnected =>
      s.(connectFinishedCloses := s.connectFinishedCloses + 1, sampler := Sampling, main := Adding(0))
    case Adding(n) =>
      if n < o.clients then s.(outstanding := s.outstanding + 1, main := Starting(n))
      else s.(main := AwaitingClients)
    case Starting(n) => s.(publishers := s.publishers + [P.Init(o.publish)], main := Adding(n + 1))
    case AwaitingClients => s.(main := Finishing)
    case Finishing => s.(doneCloses := s.doneCloses + 1, main := AwaitingSampler)
    case AwaitingSampler => s.(main := Judging)
    case Judging => s.(main := Returned(Judge(s)))
  }

  /** Clients are spread over the shared latency arrays round robin. */
  function Recorded(o: Options, shards: seq<seq<int>>, i: nat, p: P.Action): seq<seq<int>>
    requires |shards| == o.shards > 0
  {
    if p.RecordShared? then shards[i % o.shards := shards[i % o.shards] + [p.microseconds]] else shards
  }

  function ApplyPublish(o: Options, s: Run, i: nat, p: P.Action): Run
    requires Enabled(o, s, Publish(i, p))
  {
    s.(publishers := s.publishers[i := P.Apply(o.publish, s.publishers[i], p)],
       shards := Recorded(o, s.shards, i, p),
       outstanding := if p.Exit? then s.outstanding - 1 else s.outstanding)
  }

  function Apply(o: Options, s: Run, a: Action): Run
    requires Enabled(o, s, a)
  {
    match a
    case Cancel => s.(cancelled := true)
    case Connect(c) => s.(group := C.Apply(Connecting(o), s.cancelled, s.group, c))
    case Publish(i, p) => ApplyPublish(o, s, i, p)
    case Proceed => ApplyMain(o, s)
    case StopSampler => s.(sampler := Stopped)
  }

  // ----- the invariant

  function NotExited(c: P.Client): nat { if c.sender.Exited? then 0 else 1 }

  function SharedOf(c: P.Client): multiset<int> { multiset(c.shared) }

  predicate FailurePath(m: Main) { m.ReportingFailure? || m.FinishingFailure? || m.JudgingFailure? }

  predicate SuccessPath(m: Main) { !m.InConnect? && !FailurePath(m) && !m.Returned? }

  predicate AllStarted(m: Main) {
    m.AwaitingClients? || m.Finishing? || m.AwaitingSampler? || m.Judging?
  }

  predicate AllExited(m: Main) { m.Finishing? || m.AwaitingSampler? || m.Judging? || m.Returned? }

  /** The main goroutine only goes on to publish with every client, and only after connecting. */
  ghost predicate PhaseOk(o: Options, s: Run) {
    && C.Inv(Connecting(o), s.group)
    && (FailurePath(s.main) ==> s.group.caller == C.Done(false))
    && (SuccessPath(s.main) ==> s.group.caller == C.Done(true))
    && (s.main.Returned? ==> s.group.caller.Done?)
    && (s.group.caller == C.Done(false) || s.group.caller.TearingDown? ==> s.group.failed || s.cancelled)
    && |s.publishers| == StartedClients(o, s)
    && (s.main.Adding? ==> s.main.next <= o.clients)
    && (s.main.Starting? ==> s.main.next < o.clients)
  }

  function StartedClients(o: Options, s: Run): nat {
    match s.main
    case Adding(n) => n
    case Starting(n) => n
    case Returned(_) => if s.group.caller == C.Done(true) then o.clients else 0
    case _ => if AllStarted(s.main) then o.clients else 0
  }

  ghost predicate ClientsOk(o: Options, s: Run) {
    && (forall i :: 0 <= i < |s.publishers| ==>
          P.Inv(o.publish, s.publishers[i]) && (s.publishers[i].stopped ==> s.cancelled))
    && s.outstanding == Sum(NotExited, s.publishers) + (if s.main.Starting? then 1 else 0)
    && (AllExited(s.main) ==> s.outstanding == 0)
  }

  predicate BeforeConnectFinished(m: Main) { m.InConnect? || m.ReportingFailure? || m.ReportingConnected? }

  ghost predicate ChannelsOk(s: Run) {
    && s.connectFinishedCloses == (if BeforeConnectFinished(s.main) then 0 else 1)
    && s.doneCloses ==
         (if s.main.JudgingFailure? || s.main.AwaitingSampler? || s.main.Judging? || s.main.Returned? then 1 else 0)
    && (s.sampler.Stopped? ==> s.doneCloses == 1)
    && (s.sampler.NotStarted? <==> s.connectFailed || BeforeConnectFinished(s.main))
    && (s.connectFailed <==> s.group.caller == C.Done(false) && !s.main.InConnect? && !s.main.ReportingFailure?)
    && (s.main.Judging? || (s.main.Returned? && s.group.caller == C.Done(true)) ==> s.sampler.Stopped?)
  }

  ghost predicate LatenciesOk(o: Options, s: Run) {
    && |s.shards| == o.shards
    && Gather(AsMultiset, s.shards) == Gather(SharedOf, s.publishers)
  }

  ghost predicate VerdictOk(s: Run) {
    s.main.Returned? ==>
      && (s.group.caller == C.Done(true) ==> s.main.verdict == Judge(s))
      && (s.group.caller == C.Done(false) ==> s.main.verdict == Nil || s.main.verdict == ConnectError)
      && (s.group.caller == C.Done(false) && !s.cancelled ==> s.main.verdict == ConnectError)
      && (s.main.verdict == ConnectError ==> s.group.failed)
  }

  ghost predicate Inv(o: Options, s: Run) {
    PhaseOk(o, s) && ClientsOk(o, s) && ChannelsOk(s) && LatenciesOk(o, s) && VerdictOk(s)
  }

  lemma InitInv(o: Options)
    ensures Inv(o, Init(o))
  {
    C.InitInv(Connecting(o));
    GatherNothing(AsMultiset, Init(o).shards);
  }

  /** Once connectClients has returned, its goroutines have all ended. */
  lemma ConnectOnlyWhileConnecting(o: Options, s: Run, c: C.Action)
    requires Inv(o, s) && Enabled(o, s, Connect(c))
    ensures s.main.InConnect? && !s.group.caller.Done?
  {
    if c.Step? {
      C.StepMeansActive(Connecting(o), s.group, c.n);
    }
  }

  lemma ConnectKeepsInv(o: Options, s: Run, c: C.Action)
    requires Inv(o, s) && Enabled(o, s, Connect(c))
    ensures Inv(o, Apply(o, s, Connect(c)))
  {
    hide Sum, Gather, C.Inv;
    ConnectOnlyWhileConnecting(o, s, c);
    C.StepKeepsInv(Connecting(o), s.cancelled, s.group, c);
  }

  lemma ProceedKeepsPhase(o: Options, s: Run)
    requires PhaseOk(o, s) && CanProceed(s)
    ensures PhaseOk(o, ApplyMain(o, s))
  {
    hide Sum, C.Inv;
  }

  lemma ProceedKeepsClients(o: Options, s: Run)
    requires ClientsOk(o, s) && CanProceed(s) && (s.main.JudgingFailure? ==> s.outstanding == 0)
    ensures ClientsOk(o, ApplyMain(o, s))
  {
    hide Sum, P.Inv;
    if s.main.Starting? {
      P.InitInv(o.publish);
      SumAppend(NotExited, s.publishers, P.Init(o.publish));
    }
  }

  lemma ProceedKeepsChannels(o: Options, s: Run)
    requires PhaseOk(o, s) && ChannelsOk(s) && CanProceed(s)
    ensures ChannelsOk(ApplyMain(o, s))
  {
    hide Sum, C.Inv;
  }

  lemma ProceedKeepsLatencies(o: Options, s: Run)
    requires LatenciesOk(o, s) && CanProceed(s)
    ensures LatenciesOk(o, ApplyMain(o, s))
  {
    hide Sum, Gather;
    if s.main.Starting? {
      GatherAppend(SharedOf, s.publishers, P.Init(o.publish));
    }
  }

  lemma ProceedKeepsVerdict(o: Options, s: Run)
    requires PhaseOk(o, s) && CanProceed(s)
    ensures VerdictOk(ApplyMain(o, s))
  {
    hide Sum, C.Inv;
  }

  lemma ProceedKeepsInv(o: Options, s: Run)
    requires Inv(o, s) && Enabled(o, s, Proceed)
    ensures Inv(o, Apply(o, s, Proceed))
  {
    hide Sum, Gather, C.Inv, P.Inv;
    assert |s.publishers| == 0 ==> Sum(NotExited, s.publishers) == 0 by {
      SumZero(NotExited, s.publishers);
    }
    ProceedKeepsPhase(o, s);
    ProceedKeepsClients(o, s);
    ProceedKeepsChannels(o, s);
    ProceedKeepsLatencies(o, s);
    ProceedKeepsVerdict(o, s);
  }

  /** A client's goroutine moves only while RunPublish waits for the clients. */
  lemma PublishOnlyWhileWaiting(o: Options, s: Run, i: nat, p: P.Action)
    requires Inv(o, s) && Enabled(o, s, Publish(i, p))
    ensures !AllExited(s.main) && !s.publishers[i].sender.Exited?
  {
    hide Sum, Gather, C.Inv;
    if s.publishers[i].sender.Exited? {
      P.DrainedMeansDone(o.publish, s.publishers[i]);
    }
    SumAtLeast(NotExited, s.publishers, i);
  }

  lemma PublishKeepsClients(o: Options, s: Run, i: nat, p: P.Action)
    requires Inv(o, s) && Enabled(o, s, Publish(i, p))
    ensures ClientsOk(o, Apply(o, s, Publish(i, p)))
  {
    hide Sum, Gather, C.Inv, P.Inv;
    PublishOnlyWhileWaiting(o, s, i, p);
    P.StepKeepsInv(o.publish, s.cancelled, s.publishers[i], p);
    SumUpdate(NotExited, s.publishers, i, P.Apply(o.publish, s.publishers[i], p));
    StopsOnlyIfCancelled(o.publish, s.cancelled, s.publishers[i], p);
  }

  lemma StopsOnlyIfCancelled(o: P.Options, cancelled: bool, c: P.Client, p: P.Action)
    requires P.Enabled(o, cancelled, c, p) && (c.stopped ==> cancelled)
    ensures var c' := P.Apply(o, c, p);
            && (c'.stopped ==> cancelled)
            && (c'.sender.Exited? <==> c.sender.Exited? || p.Exit?)
            && (p.Exit? ==> !c.sender.Exited?)
            && c'.shared == if p.RecordShared? then c.shared + [p.microseconds] else c.shared
  {
    hide P.ReadyToCount;
  }

  /** A recorded latency reaches exactly one shared array. */
  lemma PublishKeepsLatencies(o: Options, s: Run, i: nat, p: P.Action)
    requires Inv(o, s) && Enabled(o, s, Publish(i, p))
    ensures LatenciesOk(o, Apply(o, s, Publish(i, p)))
  {
    hide Sum, Gather, C.Inv, P.Inv;
    var after := P.Apply(o.publish, s.publishers[i], p);
    StopsOnlyIfCancelled(o.publish, s.cancelled, s.publishers[i], p);
    if p.RecordShared? {
      var k, v := i % o.shards, multiset{p.microseconds};
      GatherMore(AsMultiset, s.shards, k, s.shards[k] + [p.microseconds], v);
      GatherMore(SharedOf, s.publishers, i, after, v);
    } else {
      GatherKeep(SharedOf, s.publishers, i, after);
    }
  }

  lemma PublishKeepsInv(o: Options, s: Run, i: nat, p: P.Action)
    requires Inv(o, s) && Enabled(o, s, Publish(i, p))
    ensures Inv(o, Apply(o, s, Publish(i, p)))
  {
    hide Sum, Gather, C.Inv, P.Inv;
    PublishOnlyWhileWaiting(o, s, i, p);
    PublishKeepsClients(o, s, i, p);
    PublishKeepsLatencies(o, s, i, p);
  }

  lemma StepKeepsInv(o: Options, s: Run, a: Action)
    requires Inv(o, s) && Enabled(o, s, a)
    ensures Inv(o, Apply(o, s, a))
  {
    hide Sum, Gather, C.Inv, P.Inv;
    match a
    case Cancel => 
    case Connect(c) => ConnectKeepsInv(o, s, c);
    case Publish(i, p) => PublishKeepsInv(o, s, i, p);
    case Proceed => ProceedKeepsInv(o, s);
    case StopSampler => 
  }
}
