/** Many goroutines recording into one client's chunked counters at once. Every atomic load,
    compare-and-swap and add is one step, and the steps interleave in any order. */
module ChunkInstall {
  import opened Optional
  import opened Counting
  import opened LatencyIndex
  import opened RecordedCounts

  /** The value being recorded, and the slot and offset worked out from it at the start. */
  datatype Record = Record(v: int, slot: nat, offset: nat)

  /** Where a goroutine is inside record. Chunks are named by their place on the heap. */
  datatype Thread =
    | Idle
    | Loading(r: Record)
    | Swapping(r: Record, own: nat)
    | Reloading(r: Record)
    | Adding(r: Record, chunk: Option<nat>)

  datatype State = State(
    slots: seq<Option<nat>>,
    heap: seq<seq<nat>>,
    threads: seq<Thread>,
    begun: seq<int>,
    completed: seq<int>,
    panicked: bool)

  /** Begin starts record(v) on an idle goroutine; Advance is its next atomic step. */
  datatype Action = Begin(t: nat, v: int) | Advance(t: nat)

  const SLOTS := COUNTS_LENGTH / HALF_COUNT

  function EmptyChunk(): (chunk: seq<nat>)
    ensures |chunk| == HALF_COUNT
  {
    seq(HALF_COUNT, _ => 0)
  }

  function RecordOf(v: int): (r: Record)
    ensures r.slot < SLOTS && r.offset < HALF_COUNT && Locates(r)
  {
    Record(v, CountsIndex(v) / HALF_COUNT, CountsIndex(v) % HALF_COUNT)
  }

  ghost predicate Locates(r: Record) {
    HALF_COUNT * r.slot + r.offset == CountsIndex(r.v)
  }

  function Init(threads: nat): State {
    State(seq(SLOTS, _ => None), [], seq(threads, _ => Idle), [], [], false)
  }

  predicate Enabled(s: State, a: Action) {
    && a.t < |s.threads|
    && (a.Begin? <==> s.threads[a.t].Idle?)
  }

  predicate Fits(thread: Thread, heapSize: nat) {
    !thread.Idle? ==>
      && thread.r.slot < SLOTS && thread.r.offset < HALF_COUNT
      && (thread.Swapping? ==> thread.own < heapSize)
      && (thread.Adding? && thread.chunk.Some? ==> thread.chunk.value < heapSize)
  }

  ghost predicate WellFormed(s: State) {
    && |s.slots| == SLOTS
    && (forall c :: 0 <= c < |s.heap| ==> |s.heap[c]| == HALF_COUNT)
    && (forall n :: 0 <= n < SLOTS && s.slots[n].Some? ==> s.slots[n].value < |s.heap|)
    && forall t :: 0 <= t < |s.threads| ==> Fits(s.threads[t], |s.heap|)
  }

  function Load(s: State, t: nat, r: Record): State
    requires t < |s.threads| && r.slot < |s.slots|
  {
    if s.slots[r.slot].Some? then
      s.(threads := s.threads[t := Adding(r, s.slots[r.slot])])
    else
      s.(heap := s.heap + [EmptyChunk()], threads := s.threads[t := Swapping(r, |s.heap|)])
  }

  function Swap(s: State, t: nat, r: Record, own: nat): State
    requires t < |s.threads| && r.slot < |s.slots|
  {
    if s.slots[r.slot].Some? then
      s.(threads := s.threads[t := Reloading(r)])
    else
      s.(slots := s.slots[r.slot := Some(own)], threads := s.threads[t := Adding(r, Some(own))])
  }

  function Reload(s: State, t: nat, r: Record): State
    requires t < |s.threads| && r.slot < |s.slots|
  {
    s.(threads := s.threads[t := Adding(r, s.slots[r.slot])])
  }

  /** Adding through a nil chunk pointer would crash the program. */
  function Add(s: State, t: nat, r: Record, chunk: Option<nat>): State
    requires t < |s.threads| && r.offset < HALF_COUNT
    requires chunk.Some? ==> chunk.value < |s.heap| && |s.heap[chunk.value]| == HALF_COUNT
  {
    if chunk.None? then s.(threads := s.threads[t := Idle], panicked := true)
    else
      s.(threads := s.threads[t := Idle],
         heap := Bumped(s.heap, chunk.value, r.offset),
         completed := s.completed + [r.v])
  }

  function Bumped(heap: seq<seq<nat>>, c: nat, o: nat): seq<seq<nat>>
    requires c < |heap| && o < |heap[c]|
  {
    heap[c := heap[c][o := heap[c][o] + 1]]
  }

  function Apply(s: State, a: Action): State
    requires WellFormed(s) && Enabled(s, a)
  {
    match a
    case Begin(t, v) =>
      s.(threads := s.threads[t := Loading(RecordOf(v))], begun := s.begun + [v])
    case Advance(t) =>
      match s.threads[t]
      case Loading(r) => Load(s, t, r)
      case Swapping(r, own) => Swap(s, t, r, own)
      case Reloading(r) => Reload(s, t, r)
      case Adding(r, chunk) => Add(s, t, r, chunk)
  }

  // ----- the invariant

  /** What the counter at an offset of a slot holds; a missing chunk counts as zeroes. */
  function Stored(s: State, n: nat, offset: nat): nat
    requires n < |s.slots| && offset < HALF_COUNT
    requires s.slots[n].Some? ==> s.slots[n].value < |s.heap| && |s.heap[s.slots[n].value]| == HALF_COUNT
  {
    if s.slots[n].None? then 0 else s.heap[s.slots[n].value][offset]
  }

  /** A goroutine about to swap holds a fresh chunk nobody else has; one about to add holds the
      chunk that is installed. */
  ghost predicate ThreadOk(s: State, t: nat)
    requires WellFormed(s) && t < |s.threads|
  {
    var thread := s.threads[t];
    && (!thread.Idle? ==> Locates(thread.r))
    && (thread.Swapping? ==> OwnsFreshChunk(s, t, thread.own))
    && (thread.Reloading? ==> s.slots[thread.r.slot].Some?)
    && (thread.Adding? ==> thread.chunk.Some? && s.slots[thread.r.slot] == thread.chunk)
  }

  ghost predicate OwnsFreshChunk(s: State, t: nat, own: nat) {
    && own < |s.heap| && s.heap[own] == EmptyChunk()
    && (forall n :: 0 <= n < |s.slots| ==> s.slots[n] != Some(own))
    && forall u :: 0 <= u < |s.threads| && u != t && s.threads[u].Swapping? ==> s.threads[u].own != own
  }

  function Pending(thread: Thread): multiset<int> {
    if thread.Idle? then multiset{} else multiset{thread.r.v}
  }

  ghost predicate CountsOk(s: State)
    requires WellFormed(s)
  {
    forall n, o :: 0 <= n < SLOTS && 0 <= o < HALF_COUNT ==> Stored(s, n, o) == Hits(s.completed, HALF_COUNT * n + o)
  }

  ghost predicate Inv(s: State) {
    && WellFormed(s)
    && !s.panicked
    && (forall m, n :: 0 <= m < n < SLOTS && s.slots[m].Some? ==> s.slots[m] != s.slots[n])
    && (forall t :: 0 <= t < |s.threads| ==> ThreadOk(s, t))
    && CountsOk(s)
    && multiset(s.begun) == multiset(s.completed) + Gather(Pending, s.threads)
  }

  lemma InitInv(threads: nat)
    ensures Inv(Init(threads))
  {
    GatherNothing(Pending, Init(threads).threads);
  }

  lemma BeginKeepsInv(s: State, t: nat, v: int)
    requires Inv(s) && Enabled(s, Begin(t, v))
    ensures Inv(Apply(s, Begin(t, v)))
  {
    hide CountsIndex, Hits, Locates, Gather, CountsOk;
    var s' := Apply(s, Begin(t, v));
    assert WellFormed(s') && ThreadOk(s', t);
    assert multiset(s'.begun) == multiset(s.begun) + multiset{v};
    GatherGain(Pending, s.threads, t, s'.threads[t]);
    SameCounts(s, s');
    ThreadsStayOk(s, s', t);
  }

  lemma SameCounts(s: State, s': State)
    requires WellFormed(s) && WellFormed(s') && CountsOk(s) && s'.completed == s.completed
    requires forall n :: 0 <= n < SLOTS && s.slots[n].Some? ==> s'.slots[n] == s.slots[n]
    requires forall n :: 0 <= n < SLOTS && s'.slots[n].Some? ==>
               s'.heap[s'.slots[n].value] == (if s.slots[n].Some? then s.heap[s.slots[n].value] else EmptyChunk())
    ensures CountsOk(s')
  {
    hide Hits;
    forall n, o | 0 <= n < SLOTS && 0 <= o < HALF_COUNT ensures Stored(s', n, o) == Stored(s, n, o) {
    }
  }

  /** A step of one goroutine does not spoil what the others hold: slots that were filled stay,
      a newly filled one gets the moving goroutine's own chunk, and private chunks are untouched. */
  lemma ThreadsStayOk(s: State, s': State, t: nat)
    requires WellFormed(s) && WellFormed(s') && (forall u :: 0 <= u < |s.threads| ==> ThreadOk(s, u))
    requires t < |s.threads| == |s'.threads| && ThreadOk(s', t)
    requires forall u :: 0 <= u < |s.threads| && u != t ==> s'.threads[u] == s.threads[u]
    requires forall n :: 0 <= n < SLOTS && s.slots[n].Some? ==> s'.slots[n] == s.slots[n]
    requires forall n :: 0 <= n < SLOTS && s'.slots[n] != s.slots[n] ==>
               s.threads[t].Swapping? && s'.slots[n] == Some(s.threads[t].own)
    requires |s.heap| <= |s'.heap|
    requires forall u :: 0 <= u < |s.threads| && u != t && s.threads[u].Swapping? ==>
               s'.heap[s.threads[u].own] == s.heap[s.threads[u].own]
    ensures forall u :: 0 <= u < |s'.threads| ==> ThreadOk(s', u)
  {
    hide Locates;
    forall u | 0 <= u < |s'.threads| && u != t ensures ThreadOk(s', u) {
      assert ThreadOk(s, u) && ThreadOk(s, t);
    }
  }

  lemma LoadKeepsInv(s: State, t: nat)
    requires Inv(s) && Enabled(s, Advance(t)) && s.threads[t].Loading?
    ensures Inv(Apply(s, Advance(t)))
  {
    hide CountsIndex, Hits, Locates, Gather, CountsOk;
    var s' := Load(s, t, s.threads[t].r);
    assert ThreadOk(s, t);
    GatherKeep(Pending, s.threads, t, s'.threads[t]);
    assert forall c :: 0 <= c < |s.heap| ==> s'.heap[c] == s.heap[c];
    assert WellFormed(s');
    assert ThreadOk(s', t);
    SameCounts(s, s');
    ThreadsStayOk(s, s', t);
  }

  lemma SwapKeepsInv(s: State, t: nat)
    requires Inv(s) && Enabled(s, Advance(t)) && s.threads[t].Swapping?
    ensures Inv(Apply(s, Advance(t)))
  {
    hide CountsIndex, Hits, Locates, Gather, CountsOk;
    var s' := Swap(s, t, s.threads[t].r, s.threads[t].own);
    assert ThreadOk(s, t);
    GatherKeep(Pending, s.threads, t, s'.threads[t]);
    assert WellFormed(s') && ThreadOk(s', t);
    SameCounts(s, s');
    ThreadsStayOk(s, s', t);
  }

  lemma ReloadKeepsInv(s: State, t: nat)
    requires Inv(s) && Enabled(s, Advance(t)) && s.threads[t].Reloading?
    ensures Inv(Apply(s, Advance(t)))
  {
    hide CountsIndex, Hits, Locates, Gather, CountsOk;
    var s' := Reload(s, t, s.threads[t].r);
    assert ThreadOk(s, t);
    GatherKeep(Pending, s.threads, t, s'.threads[t]);
    assert WellFormed(s') && ThreadOk(s', t);
    SameCounts(s, s');
    ThreadsStayOk(s, s', t);
  }

  lemma AddKeepsInv(s: State, t: nat)
    requires Inv(s) && Enabled(s, Advance(t)) && s.threads[t].Adding?
    ensures Inv(Apply(s, Advance(t)))
  {
    hide CountsIndex, Hits, Locates, Gather, CountsOk;
    var r, chunk := s.threads[t].r, s.threads[t].chunk;
    assert ThreadOk(s, t);
    var s' := Add(s, t, r, chunk);
    assert multiset(s'.completed) == multiset(s.completed) + multiset{r.v};
    GatherLose(Pending, s.threads, t, Idle);
    assert WellFormed(s') && ThreadOk(s', t);
    AddCounts(s, t, s');
    forall u | 0 <= u < |s.threads| && u != t && s.threads[u].Swapping?
      ensures s'.heap[s.threads[u].own] == s.heap[s.threads[u].own]
    {
      assert ThreadOk(s, u);
    }
    ThreadsStayOk(s, s', t);
  }

  lemma AddCounts(s: State, t: nat, s': State)
    requires Inv(s) && Enabled(s, Advance(t)) && s.threads[t].Adding?
    requires s' == Apply(s, Advance(t)) && WellFormed(s')
    ensures CountsOk(s')
  {
    hide CountsIndex, Hits;
    var r := s.threads[t].r;
    assert ThreadOk(s, t);
    forall n, o | 0 <= n < SLOTS && 0 <= o < HALF_COUNT
      ensures Stored(s', n, o) == Hits(s'.completed, HALF_COUNT * n + o)
    {
      HitsAppend(s.completed, r.v, HALF_COUNT * n + o);
      assert Stored(s, n, o) == Hits(s.completed, HALF_COUNT * n + o);
      assert n == r.slot && o == r.offset <==> HALF_COUNT * n + o == CountsIndex(r.v);
      assert Stored(s', n, o) == Stored(s, n, o) + (if HALF_COUNT * n + o == CountsIndex(r.v) then 1 else 0);
    }
  }

  lemma StepKeepsInv(s: State, a: Action)
    requires Inv(s) && Enabled(s, a)
    ensures Inv(Apply(s, a))
  {
    hide CountsIndex, Hits, Locates, Gather, CountsOk;
    match a
    case Begin(t, v) => BeginKeepsInv(s, t, v);
    case Advance(t) =>
      match s.threads[t]
      case Loading(_) => LoadKeepsInv(s, t);
      case Swapping(_, _) => SwapKeepsInv(s, t);
      case Reloading(_) => ReloadKeepsInv(s, t);
      case Adding(_, _) => AddKeepsInv(s, t);
  }

  // ----- whole executions

  ghost predicate Execution(threads: nat, states: seq<State>, actions: seq<Action>) {
    && |states| == |actions| + 1
    && states[0] == Init(threads)
    && forall i :: 0 <= i < |actions| ==>
         WellFormed(states[i]) && Enabled(states[i], actions[i]) && states[i + 1] == Apply(states[i], actions[i])
  }

  lemma {:induction false} ExecutionKeepsInv(threads: nat, states: seq<State>, actions: seq<Action>, i: nat)
    requires Execution(threads, states, actions) && i < |states|
    ensures Inv(states[i])
  {
    hide CountsIndex, Hits, Locates;
    if i == 0 {
      InitInv(threads);
    } else {
      ExecutionKeepsInv(threads, states, actions, i - 1);
      StepKeepsInv(states[i - 1], actions[i - 1]);
    }
  }

  lemma StepKeepsInstalled(s: State, a: Action, n: nat)
    requires Inv(s) && Enabled(s, a) && n < SLOTS
    ensures |Apply(s, a).slots| == SLOTS
    ensures s.slots[n].Some? ==> Apply(s, a).slots[n] == s.slots[n]
  {
    hide CountsIndex, Hits, Gather, ThreadOk, CountsOk;
  }

  /** Once a chunk is installed in a slot it stays there for the rest of the execution. */
  lemma {:induction false} InstalledForever(
    threads: nat, states: seq<State>, actions: seq<Action>, i: nat, j: nat, n: nat)
    requires Execution(threads, states, actions) && i <= j < |states| && n < SLOTS
    ensures |states[i].slots| == |states[j].slots| == SLOTS
    ensures states[i].slots[n].Some? ==> states[j].slots[n] == states[i].slots[n]
  {
    hide CountsIndex, Hits, Gather, ThreadOk, CountsOk, Apply, Enabled;
    ExecutionKeepsInv(threads, states, actions, i);
    if i < j {
      InstalledForever(threads, states, actions, i, j - 1, n);
      ExecutionKeepsInv(threads, states, actions, j - 1);
      StepKeepsInstalled(states[j - 1], actions[j - 1], n);
    }
  }

  /** In every reachable state nothing has crashed, a goroutine about to add holds the installed
      chunk, and each counter equals the number of completed records that land on it. */
  lemma NothingLost(threads: nat, states: seq<State>, actions: seq<Action>, i: nat)
    requires Execution(threads, states, actions) && i < |states|
    ensures WellFormed(states[i]) && !states[i].panicked
    ensures forall t :: 0 <= t < |states[i].threads| && states[i].threads[t].Adding? ==>
              states[i].threads[t].chunk.Some?
              && states[i].slots[states[i].threads[t].r.slot] == states[i].threads[t].chunk
    ensures forall n, o :: 0 <= n < SLOTS && 0 <= o < HALF_COUNT ==>
              Stored(states[i], n, o) == Hits(states[i].completed, HALF_COUNT * n + o)
  {
    hide CountsIndex, Hits, Locates;
    ExecutionKeepsInv(threads, states, actions, i);
    forall t | 0 <= t < |states[i].threads| && states[i].threads[t].Adding?
      ensures states[i].threads[t].chunk.Some?
      ensures states[i].slots[states[i].threads[t].r.slot] == states[i].threads[t].chunk
    {
      assert ThreadOk(states[i], t);
    }
  }

  function AllCounts(s: State): (counts: seq<nat>)
    requires WellFormed(s)
    ensures |counts| == COUNTS_LENGTH
  {
    seq(COUNTS_LENGTH, k requires 0 <= k < COUNTS_LENGTH => Stored(s, k / HALF_COUNT, k % HALF_COUNT))
  }

  /** The values whose recording has been begun, in order. */
  function Begun(actions: seq<Action>): seq<int> {
    if actions == [] then []
    else
      var last := actions[|actions| - 1];
      Begun(actions[..|actions| - 1]) + (if last.Begin? then [last.v] else [])
  }

  lemma BegunStep(s: State, a: Action)
    requires WellFormed(s) && Enabled(s, a)
    ensures Apply(s, a).begun == s.begun + (if a.Begin? then [a.v] else [])
  {
  }

  lemma {:induction false} BegunSoFar(threads: nat, states: seq<State>, actions: seq<Action>, i: nat)
    requires Execution(threads, states, actions) && i < |states|
    ensures states[i].begun == Begun(actions[..i])
  {
    hide WellFormed, Enabled, Apply;
    if i > 0 {
      BegunSoFar(threads, states, actions, i - 1);
      BegunStep(states[i - 1], actions[i - 1]);
      assert actions[..i][..i - 1] == actions[..i - 1];
    }
  }

  /** When every goroutine is idle again, the counters are those of recording every begun value
      directly, whatever the interleaving was. */
  lemma QuietCountsAreRecorded(threads: nat, states: seq<State>, actions: seq<Action>, i: nat)
    requires Execution(threads, states, actions) && i < |states|
    requires forall t :: 0 <= t < |states[i].threads| ==> states[i].threads[t].Idle?
    ensures WellFormed(states[i]) && AllCounts(states[i]) == CountsOf(Begun(actions[..i]))
  {
    hide CountsIndex, Hits, Locates, Begun, Execution, Inv, CountsOf, AllCounts;
    BegunSoFar(threads, states, actions, i);
    ExecutionKeepsInv(threads, states, actions, i);
    QuietStateIsRecorded(states[i]);
  }

  lemma QuietStateIsRecorded(s: State)
    requires Inv(s) && forall t :: 0 <= t < |s.threads| ==> s.threads[t].Idle?
    ensures WellFormed(s) && AllCounts(s) == CountsOf(s.begun)
  {
    hide CountsIndex, Hits, Locates;
    GatherNothing(Pending, s.threads);
    CountsIgnoreOrder(s.begun, s.completed);
    forall k | 0 <= k < COUNTS_LENGTH ensures AllCounts(s)[k] == CountsOf(s.completed)[k] {
      assert HALF_COUNT * (k / HALF_COUNT) + k % HALF_COUNT == k;
      assert Stored(s, k / HALF_COUNT, k % HALF_COUNT) ==
               Hits(s.completed, HALF_COUNT * (k / HALF_COUNT) + k % HALF_COUNT);
    }
  }

  function StepsLeft(thread: Thread): nat {
    match thread
    case Idle => 0
    case Adding(_, _) => 1
    case Reloading(_) => 2
    case Swapping(_, _) => 3
    case Loading(_) => 4
  }

  /** The next step of a record is always possible, and no other goroutine moves it back. */
  lemma RecordStep(s: State, a: Action, t: nat)
    requires Inv(s) && Enabled(s, a) && t < |s.threads| && !s.threads[t].Idle?
    ensures Enabled(s, Advance(t))
    ensures t < |Apply(s, a).threads|
    ensures StepsLeft(Apply(s, a).threads[t]) + IsAdvanceOf(t)(a) <= StepsLeft(s.threads[t])
  {
  }

  function IsAdvanceOf(t: nat): Action -> nat {
    (a: Action) => if a == Advance(t) then 1 else 0
  }

  /** Between instants i and k goroutine t begins record(v) and has not completed it. */
  ghost predicate Recording(states: seq<State>, actions: seq<Action>, i: nat, k: nat, t: nat, v: int) {
    && i < k < |states| == |actions| + 1 && actions[i] == Begin(t, v)
    && forall m :: i < m < k ==> t < |states[m].threads| && !states[m].threads[t].Idle?
  }

  /** A record never waits for another one: in every execution its next step is always possible,
      and it completes with at most its fourth step, whatever the other goroutines do. */
  lemma {:induction false} RecordIsWaitFree(
    threads: nat, states: seq<State>, actions: seq<Action>, i: nat, k: nat, t: nat, v: int)
    requires Execution(threads, states, actions) && Recording(states, actions, i, k, t, v)
    ensures t < |states[k].threads|
    ensures Sum(IsAdvanceOf(t), actions[i + 1..k]) + StepsLeft(states[k].threads[t]) <= 4
    ensures !states[k].threads[t].Idle? ==> Enabled(states[k], Advance(t))
  {
    hide CountsIndex, Hits, Locates, Apply, Enabled, Inv, Sum, StepsLeft;
    if k == i + 1 {
      ExecutionKeepsInv(threads, states, actions, i);
      BeginStep(states[i], t, v);
      assert actions[i + 1..k] == [];
      SumNothing(t);
    } else {
      RecordIsWaitFree(threads, states, actions, i, k - 1, t, v);
      ExecutionKeepsInv(threads, states, actions, k - 1);
      RecordStep(states[k - 1], actions[k - 1], t);
      assert actions[i + 1..k] == actions[i + 1..k - 1] + [actions[k - 1]];
      SumAppend(IsAdvanceOf(t), actions[i + 1..k - 1], actions[k - 1]);
    }
    if !states[k].threads[t].Idle? {
      RunningCanAdvance(states[k], t);
    }
  }

  lemma BeginStep(s: State, t: nat, v: int)
    requires Inv(s) && Enabled(s, Begin(t, v))
    ensures t < |Apply(s, Begin(t, v)).threads| && StepsLeft(Apply(s, Begin(t, v)).threads[t]) == 4
  {
  }

  lemma SumNothing(t: nat)
    ensures Sum(IsAdvanceOf(t), []) == 0
  {
  }

  lemma RunningCanAdvance(s: State, t: nat)
    requires t < |s.threads| && !s.threads[t].Idle?
    ensures Enabled(s, Advance(t))
  {
  }
}
