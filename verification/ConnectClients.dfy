/** Connecting all clients in parallel: one goroutine per client under an error group with a
    limit, and a caller that either gets every client or tears down whatever connected.

    Contracts taken for granted of the error group: Go blocks while as many goroutines as the
    limit are running, the first returned error cancels the group's context, and Wait returns
    once none is running, with an error exactly if one was returned. */
module ConnectClients {
  import opened Counting

  datatype Options = Options(clients: nat, limit: nat)

  datatype Connector =
    | Idle
    | Checking            // about to look at the group's context
    | Cleared             // the context was in order; connect is called next
    | Dialing             // inside connect
    | Dialed              // connect returned a client
    | Stored              // the client is in its slot
    | Returned(ok: bool)  // the goroutine's function has returned
    | Exiting(ok: bool)   // its error, if any, has been reported to the group
    | Exited(ok: bool)

  /** The goroutine that called connectClients. */
  datatype Caller =
    | Launching(next: nat)
    | Waiting
    | CheckingContext
    | TearingDown(next: nat)
    | Done(connected: bool)

  datatype Group = Group(
    caller: Caller,
    connectors: seq<Connector>,
    active: int,             // goroutines the group counts as running
    failed: bool,            // an error has been reported, so the group's context is cancelled
    slots: seq<bool>,        // clients[i] holds a client
    connected: nat,          // progress.clientsConnected
    dials: seq<nat>,         // calls of connect, per client
    disconnects: seq<nat>)   // calls of Disconnect by the teardown, per client

  /** Step(n, ok) is the next step of connector n; ok is what a dial results in. */
  datatype Action = Launch | LaunchedAll | WaitOver | CheckContext | TearDown | Step(n: nat, ok: bool)

  function Init(o: Options): Group {
    Group(Launching(0), seq(o.clients, _ => Idle), 0, false,
          seq(o.clients, _ => false), 0, seq(o.clients, _ => 0), seq(o.clients, _ => 0))
  }

  predicate Running(c: Connector) { !c.Idle? && !c.Exited? }

  predicate Enabled(o: Options, g: Group, a: Action) {
    match a
    case Launch => g.caller.Launching? && g.caller.next < o.clients && g.active < o.limit
    case LaunchedAll => g.caller == Launching(o.clients)
    case WaitOver => g.caller.Waiting? && g.active == 0
    case CheckContext => g.caller.CheckingContext?
    case TearDown => g.caller.TearingDown?
    case Step(n, _) => n < |g.connectors| && Running(g.connectors[n])
  }

  predicate Shaped(o: Options, g: Group) {
    |g.connectors| == |g.slots| == |g.dials| == |g.disconnects| == o.clients
  }

  function Move(g: Group, n: nat, c: Connector): Group
    requires n < |g.connectors|
  {
    g.(connectors := g.connectors[n := c])
  }

  function ApplyStep(cancelled: bool, g: Group, n: nat, ok: bool): Group
    requires n < |g.connectors| == |g.slots| == |g.dials| && Running(g.connectors[n])
  {
    match g.connectors[n]
    case Checking =>
      Move(g, n, if cancelled || g.failed then Returned(false) else Cleared)
    case Cleared => Move(g, n, Dialing).(dials := g.dials[n := g.dials[n] + 1])
    case Dialing => Move(g, n, if ok then Dialed else Returned(false))
    case Dialed => Move(g, n, Stored).(slots := g.slots[n := true])
    case Stored => Move(g, n, Returned(true)).(connected := g.connected + 1)
    case Returned(good) => Move(g, n, Exiting(good)).(failed := g.failed || !good)
    case Exiting(good) => Move(g, n, Exited(good)).(active := g.active - 1)
  }

  function Apply(o: Options, cancelled: bool, g: Group, a: Action): Group
    requires Shaped(o, g) && Enabled(o, g, a)
  {
    match a
    case Launch => Move(g, g.caller.next, Checking).(active := g.active + 1, caller := Launching(g.caller.next + 1))
    case LaunchedAll => g.(caller := Waiting)
    case WaitOver => g.(caller := if g.failed then TearingDown(0) else CheckingContext)
    case CheckContext => g.(caller := if cancelled then TearingDown(0) else Done(true))
    case TearDown =>
      var k := g.caller.next;
      if k >= o.clients then g.(caller := Done(false))
      else g.(caller := TearingDown(k + 1),
              disconnects := if g.slots[k] then g.disconnects[k := g.disconnects[k] + 1] else g.disconnects)
    case Step(n, ok) => ApplyStep(cancelled, g, n, ok)
  }

  // ----- the invariant

  function IsRunning(c: Connector): nat { if Running(c) then 1 else 0 }

  function IsDialing(c: Connector): nat { if c.Dialing? then 1 else 0 }

  /** The connector's client is in its slot. */
  predicate HasStored(c: Connector) {
    c.Stored? || ((c.Returned? || c.Exiting? || c.Exited?) && c.ok)
  }

  function HasCounted(c: Connector): nat {
    if (c.Returned? || c.Exiting? || c.Exited?) && c.ok then 1 else 0
  }

  predicate HasReportedError(c: Connector) { (c.Exiting? || c.Exited?) && !c.ok }

  ghost predicate ConnectorsOk(o: Options, g: Group)
    requires Shaped(o, g)
  {
    && g.active == Sum(IsRunning, g.connectors) && g.active <= o.limit
    && g.connected == Sum(HasCounted, g.connectors)
    && (forall n :: 0 <= n < o.clients ==> g.slots[n] == HasStored(g.connectors[n]))
    && (g.failed <==> exists n :: 0 <= n < o.clients && HasReportedError(g.connectors[n]))
  }

  /** How often a connector may have called connect, given where it is. */
  predicate DialedAsOften(c: Connector, dials: nat) {
    && dials <= 1
    && (c.Idle? || c.Checking? || c.Cleared? ==> dials == 0)
    && (c.Dialing? || c.Dialed? || HasStored(c) ==> dials == 1)
  }

  ghost predicate DialsOk(o: Options, g: Group)
    requires Shaped(o, g)
  {
    forall n :: 0 <= n < o.clients ==> DialedAsOften(g.connectors[n], g.dials[n])
  }

  predicate PastWait(c: Caller) { c.CheckingContext? || c.TearingDown? || c.Done? }

  /** How many slots the teardown has passed. */
  function TornDown(o: Options, c: Caller): nat {
    match c
    case TearingDown(k) => k
    case Done(false) => o.clients
    case _ => 0
  }

  ghost predicate CallerOk(o: Options, g: Group)
    requires Shaped(o, g)
  {
    && (g.caller.Launching? ==> g.caller.next <= o.clients)
    && (forall n :: 0 <= n < o.clients ==>
          (g.connectors[n].Idle? <==> g.caller.Launching? && n >= g.caller.next))
    && (PastWait(g.caller) ==> g.active == 0)
    && (g.caller.CheckingContext? || g.caller == Done(true) ==> !g.failed)
    && (g.caller.TearingDown? ==> g.caller.next <= o.clients)
    && (forall n :: 0 <= n < o.clients ==>
          g.disconnects[n] == if n < TornDown(o, g.caller) && g.slots[n] then 1 else 0)
  }

  ghost predicate Inv(o: Options, g: Group) {
    Shaped(o, g) && ConnectorsOk(o, g) && DialsOk(o, g) && CallerOk(o, g)
  }

  lemma InitInv(o: Options)
    ensures Inv(o, Init(o))
  {
    SumZero(IsRunning, Init(o).connectors);
    SumZero(HasCounted, Init(o).connectors);
  }

  lemma LaunchKeepsInv(o: Options, cancelled: bool, g: Group)
    requires Inv(o, g) && Enabled(o, g, Launch)
    ensures Inv(o, Apply(o, cancelled, g, Launch))
  {
    hide Sum;
    SumUpdate(IsRunning, g.connectors, g.caller.next, Checking);
    SumUpdate(HasCounted, g.connectors, g.caller.next, Checking);
    KeepsFailure(o, g, Apply(o, cancelled, g, Launch), g.caller.next);
  }

  /** A connector's step keeps "failed exactly if an error was reported". */
  lemma KeepsFailure(o: Options, g: Group, g': Group, k: nat)
    requires Inv(o, g) && Shaped(o, g') && k < o.clients
    requires g'.connectors == g.connectors[k := g'.connectors[k]]
    requires HasReportedError(g.connectors[k]) ==> HasReportedError(g'.connectors[k])
    requires g'.failed == (g.failed || HasReportedError(g'.connectors[k]))
    ensures g'.failed <==> exists n :: 0 <= n < o.clients && HasReportedError(g'.connectors[n])
  {
    hide Sum;
    if g.failed {
      var n :| 0 <= n < o.clients && HasReportedError(g.connectors[n]);
      assert HasReportedError(g'.connectors[n]);
    }
    if HasReportedError(g'.connectors[k]) {
      assert 0 <= k < o.clients && HasReportedError(g'.connectors[k]);
    }
    if n :| 0 <= n < o.clients && HasReportedError(g'.connectors[n]) {
      assert n != k ==> g'.connectors[n] == g.connectors[n];
    }
  }

  lemma CallerKeepsInv(o: Options, cancelled: bool, g: Group, a: Action)
    requires Inv(o, g) && Enabled(o, g, a) && !a.Launch? && !a.Step?
    ensures Inv(o, Apply(o, cancelled, g, a))
  {
    hide Sum;
  }

  /** What a connector's step does to the group's bookkeeping. */
  lemma StepEffect(cancelled: bool, g: Group, n: nat, ok: bool)
    requires n < |g.connectors| == |g.slots| == |g.dials| && Running(g.connectors[n])
    requires g.slots[n] == HasStored(g.connectors[n])
    requires HasReportedError(g.connectors[n]) ==> g.failed
    ensures var g' := ApplyStep(cancelled, g, n, ok);
            var before, after := g.connectors[n], g'.connectors[n];
            && g'.active + IsRunning(before) == g.active + IsRunning(after)
            && g'.connected + HasCounted(before) == g.connected + HasCounted(after)
            && IsRunning(after) <= IsRunning(before)
            && g'.slots == g.slots[n := HasStored(after)]
            && (HasReportedError(before) ==> HasReportedError(after))
            && g'.failed == (g.failed || HasReportedError(after))
  {
  }

  lemma StepKeepsConnectors(o: Options, cancelled: bool, g: Group, n: nat, ok: bool)
    requires Inv(o, g) && Enabled(o, g, Step(n, ok))
    ensures ConnectorsOk(o, Apply(o, cancelled, g, Step(n, ok)))
  {
    hide Sum, ApplyStep, CallerOk, DialsOk, HasStored, HasCounted, IsRunning;
    var g' := Apply(o, cancelled, g, Step(n, ok));
    StepShape(cancelled, g, n, ok);
    StepEffect(cancelled, g, n, ok);
    SumUpdate(IsRunning, g.connectors, n, g'.connectors[n]);
    SumUpdate(HasCounted, g.connectors, n, g'.connectors[n]);
    KeepsFailure(o, g, g', n);
  }

  lemma StepKeepsDials(o: Options, cancelled: bool, g: Group, n: nat, ok: bool)
    requires Shaped(o, g) && DialsOk(o, g) && Enabled(o, g, Step(n, ok))
    ensures Shaped(o, Apply(o, cancelled, g, Step(n, ok))) && DialsOk(o, Apply(o, cancelled, g, Step(n, ok)))
  {
    hide ApplyStep, DialedAsOften;
    StepShape(cancelled, g, n, ok);
    DialEffect(cancelled, g, n, ok);
  }

  /** What a connector's step means for dials and failures. */
  lemma DialEffect(cancelled: bool, g: Group, n: nat, ok: bool)
    requires n < |g.connectors| == |g.slots| == |g.dials| && Running(g.connectors[n])
    ensures var g' := ApplyStep(cancelled, g, n, ok);
            && |g'.connectors| == |g.connectors| && g'.dials == g.dials[n := g'.dials[n]]
            && var before, after := g.connectors[n], g'.connectors[n];
               && g'.dials[n] == g.dials[n] + IsCleared(before)
               && (DialedAsOften(before, g.dials[n]) ==> DialedAsOften(after, g'.dials[n]))
               && !after.Checking? && (after.Cleared? ==> before.Checking? && !g'.failed && !cancelled)
               && (g'.failed <==> g.failed || before == Returned(false))
               && (ok && !g.failed && !cancelled && before != Returned(false) ==> after != Returned(false))
               && (before.Checking? && !g.failed && !cancelled ==> after.Cleared?)
  {
  }

  lemma StepShape(cancelled: bool, g: Group, n: nat, ok: bool)
    requires n < |g.connectors| == |g.slots| == |g.dials| && Running(g.connectors[n])
    ensures var g' := ApplyStep(cancelled, g, n, ok);
            && g'.caller == g.caller && g'.disconnects == g.disconnects
            && g'.connectors == g.connectors[n := g'.connectors[n]] && !g'.connectors[n].Idle?
            && |g'.slots| == |g.slots| && |g'.dials| == |g.dials|
  {
  }

  lemma StepKeepsCaller(o: Options, cancelled: bool, g: Group, n: nat, ok: bool)
    requires Inv(o, g) && Enabled(o, g, Step(n, ok))
    ensures CallerOk(o, Apply(o, cancelled, g, Step(n, ok)))
  {
    hide Sum, ApplyStep, ConnectorsOk, DialsOk;
    StepShape(cancelled, g, n, ok);
    assert !PastWait(g.caller) by {
      StepMeansActive(o, g, n);
    }
  }

  lemma StepMeansActive(o: Options, g: Group, n: nat)
    requires Inv(o, g) && n < o.clients && Running(g.connectors[n])
    ensures g.active > 0
  {
    SumAtLeast(IsRunning, g.connectors, n);
  }

  lemma StepKeepsInv(o: Options, cancelled: bool, g: Group, a: Action)
    requires Inv(o, g) && Enabled(o, g, a)
    ensures Inv(o, Apply(o, cancelled, g, a))
  {
    hide Sum;
    match a
    case Launch => LaunchKeepsInv(o, cancelled, g);
    case Step(n, ok) =>
      StepKeepsConnectors(o, cancelled, g, n, ok);
      StepKeepsCaller(o, cancelled, g, n, ok);
      StepKeepsDials(o, cancelled, g, n, ok);
    case _ => CallerKeepsInv(o, cancelled, g, a);
  }

  // ----- what connectClients promises

  /** Never more connects at once than the limit. */
  lemma LimitedDials(o: Options, g: Group)
    requires Inv(o, g)
    ensures Sum(IsDialing, g.connectors) <= g.active <= o.limit
  {
    SumAtMost(IsDialing, IsRunning, g.connectors);
  }

  function IsCleared(c: Connector): nat { if c.Cleared? then 1 else 0 }

  /** A goroutine calls connect only as a step of its own and only once its check has passed.
      After the first reported failure, or once the caller's context is cancelled, none passes
      the check any more: only those that already had may still call connect. */
  lemma OnlyClearedDial(o: Options, cancelled: bool, g: Group, a: Action, n: nat)
    requires Inv(o, g) && Enabled(o, g, a) && n < o.clients
    ensures var g' := Apply(o, cancelled, g, a);
            && Shaped(o, g')
            && (g'.dials[n] != g.dials[n] <==> g.connectors[n].Cleared? && a.Step? && a.n == n)
            && (g.failed || cancelled ==>
                 g'.dials[n] + IsCleared(g'.connectors[n]) <= g.dials[n] + IsCleared(g.connectors[n]))
            && (g.failed ==> g'.failed)
  {
    hide Sum, ApplyStep, ConnectorsOk, DialsOk, CallerOk;
    if a.Step? {
      StepShape(cancelled, g, a.n, a.ok);
      DialEffect(cancelled, g, a.n, a.ok);
    }
  }

  /** All or nothing: on success every slot is filled, all are counted and none has been
      disconnected; otherwise every client that connected has been disconnected exactly once. */
  lemma AllOrNothing(o: Options, g: Group)
    requires Inv(o, g) && g.caller.Done?
    ensures forall n :: 0 <= n < o.clients ==> g.connectors[n] == Exited(g.slots[n])
    ensures g.caller.connected ==> !g.failed
    ensures g.caller.connected ==> g.connected == o.clients
    ensures g.caller.connected ==> forall n :: 0 <= n < o.clients ==> g.slots[n] && g.disconnects[n] == 0
    ensures !g.caller.connected ==> forall n :: 0 <= n < o.clients ==> g.disconnects[n] == if g.slots[n] then 1 else 0
  {
    SumZero(IsRunning, g.connectors);
    if g.caller.connected {
      SumConstant(HasCounted, g.connectors, 1);
    }
  }

  /** Until the caller has its answer, something can move; dials always end. */
  lemma GroupCanMove(o: Options, g: Group) returns (a: Action)
    requires Inv(o, g) && !g.caller.Done? && o.limit >= 1
    ensures Enabled(o, g, a) && (a.Step? ==> a.ok)
  {
    match g.caller
    case Launching(next) =>
      if next == o.clients {
        a := LaunchedAll;
      } else if g.active < o.limit {
        a := Launch;
      } else {
        var n := SumWitness(IsRunning, g.connectors);
        a := Step(n, true);
      }
    case Waiting =>
      if g.active == 0 {
        a := WaitOver;
      } else {
        var n := SumWitness(IsRunning, g.connectors);
        a := Step(n, true);
      }
    case CheckingContext => a := CheckContext;
    case TearingDown(_) => a := TearDown;
  }

  function ConnectorRank(c: Connector): nat {
    match c
    case Idle => 8
    case Checking => 7
    case Cleared => 6
    case Dialing => 5
    case Dialed => 4
    case Stored => 3
    case Returned(_) => 2
    case Exiting(_) => 1
    case Exited(_) => 0
  }

  function CallerRank(o: Options, c: Caller): int {
    match c
    case Launching(next) => o.clients - next + o.clients + 4
    case Waiting => o.clients + 3
    case CheckingContext => o.clients + 2
    case TearingDown(k) => o.clients - k + 1
    case Done(_) => 0
  }

  function Rank(o: Options, g: Group): int {
    CallerRank(o, g.caller) + Sum(ConnectorRank, g.connectors)
  }

  lemma RankFromStart(o: Options)
    ensures Rank(o, Init(o)) == 10 * o.clients + 4
  {
    SumConstant(ConnectorRank, Init(o).connectors, 8);
  }

  lemma StepRankDrops(cancelled: bool, g: Group, n: nat, ok: bool)
    requires n < |g.connectors| == |g.slots| == |g.dials| && Running(g.connectors[n])
    ensures Sum(ConnectorRank, ApplyStep(cancelled, g, n, ok).connectors) < Sum(ConnectorRank, g.connectors)
  {
    hide Sum;
    var g' := ApplyStep(cancelled, g, n, ok);
    SumUpdate(ConnectorRank, g.connectors, n, g'.connectors[n]);
  }

  lemma RankDecreases(o: Options, cancelled: bool, g: Group, a: Action)
    requires Inv(o, g) && Enabled(o, g, a)
    ensures 0 <= Rank(o, Apply(o, cancelled, g, a)) < Rank(o, g)
  {
    hide Sum, ApplyStep, ConnectorsOk;
    StepKeepsInv(o, cancelled, g, a);
    if a.Launch? {
      SumUpdate(ConnectorRank, g.connectors, g.caller.next, Checking);
    } else if a.Step? {
      StepShape(cancelled, g, a.n, a.ok);
      StepRankDrops(cancelled, g, a.n, a.ok);
    }
  }
}
