/** What holds over whole runs of the orchestrator. */
module TaskPoolHistory {
  import opened Prelude
  import opened TaskStatus
  import opened TaskPool
  import opened TaskPoolInvariant
  import opened TaskPoolSafety

  /** A run: any interleaving of steps from the start of the host. */
  ghost predicate Execution(states: seq<Pool>, events: seq<Event>) {
    && |states| == |events| + 1
    && states[0] == EMPTY_POOL
    && forall i :: 0 <= i < |events| ==> Enabled(states[i], events[i]) && states[i + 1] == Step(states[i], events[i])
  }

  /** In the first `n` steps no operator ends a turn that is not registered, or closes one that will spawn all the same. */
  ghost predicate TimelyRun(states: seq<Pool>, events: seq<Event>, n: nat)
    requires Execution(states, events) && n <= |events|
  {
    forall i :: 0 <= i < n ==> Timely(states[i], events[i])
  }

  lemma {:induction false} ReachableInv(states: seq<Pool>, events: seq<Event>, i: nat)
    requires Execution(states, events) && i < |states|
    ensures Inv(states[i])
  {
    if i == 0 {
      EmptyPoolInv();
    } else {
      ReachableInv(states, events, i - 1);
      StepKeepsInv(states[i - 1], events[i - 1]);
      assert states[i - 1 + 1] == Step(states[i - 1], events[i - 1]);
    }
  }

  lemma {:induction false} ReachableSafeInv(states: seq<Pool>, events: seq<Event>, i: nat)
    requires Execution(states, events) && i < |states| && TimelyRun(states, events, i)
    ensures SafeInv(states[i]) && Registering(states[i]) && forall r :: WithinCapacity(states[i], r)
  {
    if i == 0 {
      EmptySafeInv();
      forall r ensures WithinCapacity(states[0], r) { EmptyCapacity(states[0], r); }
    } else {
      var s, e := states[i - 1], events[i - 1];
      ReachableSafeInv(states, events, i - 1);
      assert states[i - 1 + 1] == Step(s, e) && Timely(s, e);
      StepKeepsSafeInv(s, e);
      StepKeepsRegistering(s, e, states[i]);
      forall r ensures WithinCapacity(states[i], r) { StepKeepsCapacity(s, e, states[i], r); }
    }
  }

  // ---------------------------------------------------------------------------
  // One process per thread

  /** In a timely run a thread never has two processes that are up or still closing. */
  lemma {:induction false} OneProcessPerThread(states: seq<Pool>, events: seq<Event>, i: nat, p: nat, q: nat)
    requires Execution(states, events) && i < |states| && TimelyRun(states, events, i)
    requires p < |states[i].processes| && q < |states[i].processes|
    requires states[i].processes[p].state.Up? && states[i].processes[q].state.Up?
    requires states[i].processes[p].key == states[i].processes[q].key
    ensures p == q
  {
    ReachableSafeInv(states, events, i);
  }

  /** A step after which some process is up and not the registered one of its thread. */
  predicate Orphans(s: Pool, e: Event)
    requires Enabled(s, e)
  {
    match e
    case Register(w) =>
      var key := s.tasks[s.workers[w].task].key;
      key in s.live && s.live[key].server < |s.processes| && s.processes[s.live[key].server].state.Up?
    case Start(w) =>
      var p := s.workers[w].server;
      !RefusesSpawn(s.processes[p]) && !Registered(s.live, s.processes[p].key, p)
    case WorkerDrops(w) =>
      var p := s.workers[w].server;
      Registered(s.live, s.processes[p].key, p) && s.processes[p].state.Up?
    case OperatorDrops(p) => Registered(s.live, s.processes[p].key, p) && s.processes[p].state.Up?
    case _ => false
  }

  lemma OrphanAppears(s: Pool, e: Event, s': Pool)
    requires Inv(s) && UpOk(s.live, s.processes) && Enabled(s, e) && s' == Step(s, e) && Orphans(s, e)
    ensures !UpOk(s'.live, s'.processes)
  {
    ProcessesStay(s, e, s');
    var p := match e
      case Register(w) => s.live[s.tasks[s.workers[w].task].key].server
      case Start(w) => s.workers[w].server
      case WorkerDrops(w) => s.workers[w].server
      case OperatorDrops(p) => p
      case _ => 0;
    assert e.Register? ==> EntryOk(s.processes[p].key, s.live[s.processes[p].key], s.processes) by {
      assert e.Register? ==> EntryOk(s.tasks[s.workers[e.worker].task].key, s.live[s.tasks[s.workers[e.worker].task].key], s.processes);
    }
    assert s'.processes[p].state.Up? && !Registered(s'.live, s'.processes[p].key, p);
  }

  /** Only an early operator can orphan a process. */
  lemma OrphansNeedAnEarlyOperator(states: seq<Pool>, events: seq<Event>, i: nat)
    requires Execution(states, events) && i < |events| && Orphans(states[i], events[i])
    ensures exists j :: 0 <= j <= i && !Timely(states[j], events[j])
  {
    if TimelyRun(states, events, i + 1) {
      ReachableSafeInv(states, events, i);
      ReachableSafeInv(states, events, i + 1);
      OrphanAppears(states[i], events[i], states[i + 1]);
    }
  }

  // ---------------------------------------------------------------------------
  // Owners, claims and closers, in every run

  predicate IsOwner(s: Pool, w: nat, t: nat) {
    w < |s.workers| && Owns(s.workers[w], t)
  }

  /** A running task has exactly one owning worker. */
  lemma OneOwner(states: seq<Pool>, events: seq<Event>, i: nat, t: nat)
    requires Execution(states, events) && i < |states| && t < |states[i].tasks| && states[i].tasks[t].status == Running
    ensures exists w :: IsOwner(states[i], w, t)
    ensures forall w, v :: IsOwner(states[i], w, t) && IsOwner(states[i], v, t) ==> w == v
  {
    ReachableInv(states, events, i);
    var w :| 0 <= w < |states[i].workers| && Owns(states[i].workers[w], t);
    assert IsOwner(states[i], w, t);
  }

  /** A worker that goes back to idle leaves its task terminal. */
  lemma IdleLeavesTerminal(states: seq<Pool>, events: seq<Event>, i: nat, w: nat)
    requires Execution(states, events) && i < |events| && w < |states[i].workers| && w < |states[i + 1].workers|
    requires !states[i].workers[w].Idle? && states[i + 1].workers[w].Idle?
    ensures states[i].workers[w].task < |states[i + 1].tasks|
    ensures Terminal(states[i + 1].tasks[states[i].workers[w].task].status)
  {
    ReachableInv(states, events, i);
    assert states[i + 1] == Step(states[i], events[i]);
    assert PhaseOk(states[i].tasks, states[i].workers[w]);
    if !events[i].Claim? {
      WorkerStepMovesOn(states[i], events[i]);
      StepRetires(states[i], events[i]);
    }
  }

  lemma StepKeepsTerminal(s: Pool, e: Event, s': Pool, t: nat)
    requires Enabled(s, e) && s' == Step(s, e) && t < |s.tasks| && Terminal(s.tasks[t].status)
    ensures t < |s'.tasks| && s'.tasks[t] == s.tasks[t]
  {
    if !e.Claim? {
      StepRetires(s, e);
    }
  }

  predicate HasRow(s: Pool, t: nat, row: TaskRow) {
    t < |s.tasks| && s.tasks[t] == row
  }

  lemma NextTerminal(states: seq<Pool>, events: seq<Event>, i: nat, t: nat, row: TaskRow)
    requires Execution(states, events) && i < |events| && HasRow(states[i], t, row) && Terminal(row.status)
    ensures HasRow(states[i + 1], t, row)
  {
    StepKeepsTerminal(states[i], events[i], states[i + 1], t);
  }

  ghost predicate KeepsRow(a: Pool, b: Pool, t: nat, row: TaskRow) {
    HasRow(a, t, row) ==> HasRow(b, t, row)
  }

  lemma {:induction false} RowStays(states: seq<Pool>, i: nat, j: nat, t: nat, row: TaskRow)
    requires i <= j < |states| && HasRow(states[i], t, row)
    requires forall k {:trigger states[k]} :: i <= k < j ==> KeepsRow(states[k], states[k + 1], t, row)
    ensures HasRow(states[j], t, row)
    decreases j
  {
    if i < j {
      RowStays(states, i, j - 1, t, row);
      assert KeepsRow(states[j - 1], states[j - 1 + 1], t, row);
    }
  }

  /** Terminal statuses never change. */
  lemma TerminalIsFinal(states: seq<Pool>, events: seq<Event>, i: nat, j: nat, t: nat)
    requires Execution(states, events) && i <= j < |states| && t < |states[i].tasks| && Terminal(states[i].tasks[t].status)
    ensures t < |states[j].tasks| && states[j].tasks[t] == states[i].tasks[t]
  {
    var row := states[i].tasks[t];
    forall k {:trigger states[k]} | i <= k < j ensures KeepsRow(states[k], states[k + 1], t, row) {
      if HasRow(states[k], t, row) {
        NextTerminal(states, events, k, t, row);
      }
    }
    RowStays(states, i, j, t, row);
  }

  /** Tasks of one thread start in queue order. */
  lemma ThreadsStartInOrder(states: seq<Pool>, events: seq<Event>, i: nat, a: nat, b: nat)
    requires Execution(states, events) && i < |states| && a < b < |states[i].claims|
    ensures var t, u := states[i].claims[a], states[i].claims[b];
      t < |states[i].tasks| && u < |states[i].tasks| && (states[i].tasks[t].key == states[i].tasks[u].key ==> t < u)
  {
    ReachableInv(states, events, i);
  }

  /** On no runtime more than its slots are running, whatever operators do. */
  lemma RunningWithinSlots(states: seq<Pool>, events: seq<Event>, i: nat, r: Runtime)
    requires Execution(states, events) && i < |states|
    ensures |RunningIn(states[i].tasks, r)| <= WORKERS_PER_RUNTIME
  {
    ReachableInv(states, events, i);
  }

  /** No process is closed by two callers, and each one that leaves the registry in a timely run was closed by one. */
  lemma ClosedByOneCaller(states: seq<Pool>, events: seq<Event>, i: nat, p: nat)
    requires Execution(states, events) && i < |states| && p < |states[i].processes|
    ensures states[i].processes[p].takenBy <= 1
    ensures TimelyRun(states, events, i) && !Registered(states[i].live, states[i].processes[p].key, p) ==>
      states[i].processes[p].takenBy == 1 && !states[i].processes[p].state.Up?
  {
    ReachableInv(states, events, i);
    assert ProcessOk(states[i].tasks, states[i].processes[p]);
    if TimelyRun(states, events, i) {
      ReachableSafeInv(states, events, i);
    }
  }

  // ---------------------------------------------------------------------------
  // Fences

  predicate IsClosing(s: Pool, p: nat) {
    p in s.closers.owned || p in s.closers.dropping || exists w :: 0 <= w < |s.workers| && Closes(s.workers[w], p)
  }

  /** Who closes a process still finds it registered. */
  ghost predicate Registering(s: Pool) {
    forall p: nat :: p < |s.processes| && IsClosing(s, p) ==> Registered(s.live, s.processes[p].key, p)
  }

  /** The thread of a process whose close failed: its entry is closing and nobody is closing it. */
  predicate Fenced(s: Pool, k: Key) {
    k in s.live && s.live[k].closing && !IsClosing(s, s.live[k].server)
  }

  lemma NewCloser(s: Pool, e: Event, s': Pool, p: nat)
    requires Enabled(s, e) && s' == Step(s, e) && p < |s.processes| && IsClosing(s', p) && !IsClosing(s, p)
    ensures Takes(s, e) && TakesProcess(s, e, p)
  {
    SameWorkers(s, e, s');
    if p !in s'.closers.owned && p !in s'.closers.dropping {
      var w :| 0 <= w < |s'.workers| && Closes(s'.workers[w], p);
      assert s'.workers[w] != s.workers[w];
      NewWorkerCloser(s, e, s', w);
    }
  }

  lemma NewWorkerCloser(s: Pool, e: Event, s': Pool, w: nat)
    requires Enabled(s, e) && s' == Step(s, e) && w < |s.workers| && w < |s'.workers|
    requires s'.workers[w].Leaving? && !s'.workers[w].stage.Wanting? && !Closes(s.workers[w], s'.workers[w].server)
    ensures e == WorkerTakes(w) && Takes(s, e) && s.workers[w].server == s'.workers[w].server
  {
  }

  lemma DropEndsClosing(s: Pool, e: Event, s': Pool, p: nat)
    requires Inv(s) && Enabled(s, e) && s' == Step(s, e) && p < |s.processes| && DropsProcess(s, e, p)
    ensures !IsClosing(s', p)
  {
    if e.WorkerDrops? {
      assert Closes(s.workers[e.worker], p);
      assert WorkerCloses(s.workers, p);
      forall w | 0 <= w < |s.workers|
        ensures !Closes(s'.workers[w], p)
      {
        if w != e.worker && Closes(s.workers[w], p) {
          OneWorkerPerProcess(s, w, e.worker);
        }
      }
    } else {
      assert OperatorCloses(s.closers, p) >= 1;
      assert ProcessOk(s.tasks, s.processes[p]);
      assert !WorkerCloses(s.workers, p);
    }
  }

  lemma NewProcessIsNotClosing(s: Pool, e: Event, s': Pool)
    requires Inv(s) && Enabled(s, e) && e.Register? && s' == Step(s, e)
    ensures !IsClosing(s', |s.processes|)
  {
    assert forall w :: 0 <= w < |s.workers| ==> ServerOk(s.processes, s.workers[w]);
  }

  lemma ProcessesGrowByRegister(s: Pool, e: Event, s': Pool)
    requires Enabled(s, e) && s' == Step(s, e)
    ensures |s'.processes| == |s.processes| + if e.Register? then 1 else 0
  {
  }

  lemma StepKeepsRegistering(s: Pool, e: Event, s': Pool)
    requires SafeInv(s) && Registering(s) && Enabled(s, e) && s' == Step(s, e)
    ensures Registering(s')
  {
    ProcessesStay(s, e, s');
    ProcessesGrowByRegister(s, e, s');
    forall p: nat | p < |s'.processes| && IsClosing(s', p)
      ensures Registered(s'.live, s'.processes[p].key, p)
    {
      if p == |s.processes| {
        NewProcessIsNotClosing(s, e, s');
      } else {
        if !IsClosing(s, p) {
          NewCloser(s, e, s', p);
        }
        EntryFate(s, e, s', s.processes[p].key, p);
        if DropsProcess(s, e, p) {
          DropEndsClosing(s, e, s', p);
        }
      }
    }
  }

  predicate CloseRaises(s: Pool, e: Event, p: nat)
    requires Enabled(s, e)
  {
    (e.WorkerShuts? && !e.ok && s.workers[e.worker].server == p) || (e.OperatorShuts? && !e.ok && e.server == p)
  }

  lemma RaisedByWorker(s: Pool, w: nat, s': Pool)
    requires SafeInv(s) && Enabled(s, WorkerShuts(w, false)) && s' == Step(s, WorkerShuts(w, false))
    ensures IsClosing(s, s.workers[w].server) && !IsClosing(s', s.workers[w].server) && s'.live == s.live
  {
    var p := s.workers[w].server;
    assert Closes(s.workers[w], p) && WorkerCloses(s.workers, p);
    forall v | 0 <= v < |s.workers|
      ensures !Closes(s'.workers[v], p)
    {
      if v != w && Closes(s.workers[v], p) {
        OneWorkerPerProcess(s, v, w);
      }
    }
  }

  lemma RaisedByOperator(s: Pool, p: nat, s': Pool)
    requires SafeInv(s) && Enabled(s, OperatorShuts(p, false)) && s' == Step(s, OperatorShuts(p, false))
    ensures IsClosing(s, p) && !IsClosing(s', p) && s'.live == s.live
  {
    assert ProcessOk(s.tasks, s.processes[p]);
    assert OperatorCloses(s.closers, p) >= 1 && !WorkerCloses(s.workers, p);
  }

  /** A close that raises leaves its thread fenced. */
  lemma RaisingFences(s: Pool, e: Event, s': Pool, p: nat)
    requires SafeInv(s) && Registering(s) && Enabled(s, e) && s' == Step(s, e)
    requires p < |s.processes| && CloseRaises(s, e, p)
    ensures Fenced(s', s.processes[p].key) && s'.live[s.processes[p].key].server == p
  {
    if e.WorkerShuts? {
      RaisedByWorker(s, e.worker, s');
    } else {
      RaisedByOperator(s, p, s');
    }
    ClosedEntryIsClosing(s, p);
  }

  lemma ClosedEntryIsClosing(s: Pool, p: nat)
    requires Inv(s) && Registering(s) && p < |s.processes| && IsClosing(s, p)
    ensures Registered(s.live, s.processes[p].key, p) && s.live[s.processes[p].key].closing
  {
    assert EntryOk(s.processes[p].key, s.live[s.processes[p].key], s.processes);
    assert ProcessOk(s.tasks, s.processes[p]);
    if p in s.closers.owned || p in s.closers.dropping {
      assert OperatorCloses(s.closers, p) >= 1;
    } else {
      assert WorkerCloses(s.workers, p);
    }
  }

  lemma DropperIsClosing(s: Pool, e: Event, p: nat)
    requires Enabled(s, e) && DropsProcess(s, e, p)
    ensures IsClosing(s, p)
  {
    if e.WorkerDrops? {
      assert Closes(s.workers[e.worker], p);
    }
  }

  lemma StepKeepsFence(s: Pool, e: Event, s': Pool, k: Key)
    requires SafeInv(s) && Enabled(s, e) && s' == Step(s, e) && Fenced(s, k)
    ensures Fenced(s', k)
  {
    var p := s.live[k].server;
    assert EntryOk(k, s.live[k], s.processes);
    EntryFate(s, e, s', k, p);
    if DropsProcess(s, e, p) {
      DropperIsClosing(s, e, p);
    }
    if IsClosing(s', p) {
      NewCloser(s, e, s', p);
    }
  }

  lemma NextFence(states: seq<Pool>, events: seq<Event>, i: nat, k: Key)
    requires Execution(states, events) && i < |events| && TimelyRun(states, events, i) && Fenced(states[i], k)
    ensures Fenced(states[i + 1], k)
  {
    ReachableSafeInv(states, events, i);
    StepKeepsFence(states[i], events[i], states[i + 1], k);
  }

  /** Once a close has raised, the thread stays fenced: */
  lemma {:induction false} FencedForever(states: seq<Pool>, events: seq<Event>, i: nat, j: nat, k: Key)
    requires Execution(states, events) && i <= j < |states| && TimelyRun(states, events, j) && Fenced(states[i], k)
    ensures Fenced(states[j], k)
    decreases j
  {
    if i < j {
      FencedForever(states, events, i, j - 1, k);
      NextFence(states, events, j - 1, k);
    }
  }

  /** no task of it is ever claimed again. */
  lemma FencedIsNeverClaimed(states: seq<Pool>, events: seq<Event>, i: nat, j: nat, k: Key, w: nat)
    requires Execution(states, events) && i <= j < |events| && TimelyRun(states, events, j) && Fenced(states[i], k)
    requires events[j] == Claim(w) && NextClaim(states[j].tasks, states[j].live).Some?
    ensures states[j].tasks[NextClaim(states[j].tasks, states[j].live).value].key != k
  {
    FencedForever(states, events, i, j, k);
  }

  // ---------------------------------------------------------------------------
  // Capacity

  /** Turns that a worker has claimed and whose process is not registered yet. */
  function UnregisteredIn(s: Pool, r: Runtime): set<nat> {
    set t | 0 <= t < |s.tasks| && s.tasks[t].key.runtime == r && IsClaimed(s.workers, t)
  }

  /** Entries of the registry and turns about to enter it. */
  ghost predicate WithinCapacity(s: Pool, r: Runtime) {
    |LiveIn(s.live, r)| + |UnregisteredIn(s, r)| <= 2 * WORKERS_PER_RUNTIME - 1
  }

  lemma EmptyCapacity(s: Pool, r: Runtime)
    requires s.live == map[] && s.tasks == []
    ensures WithinCapacity(s, r)
  {
    assert LiveIn(s.live, r) == {} && UnregisteredIn(s, r) == {};
  }

  lemma UnregisteredAreRunning(s: Pool, r: Runtime)
    requires ClaimedOk(s.tasks, s.workers, s.live)
    ensures |UnregisteredIn(s, r)| <= |RunningIn(s.tasks, r)|
  {
    SmallerSet(UnregisteredIn(s, r), RunningIn(s.tasks, r));
  }

  /** A claim finds fewer live entries than slots, so entries and claims stay below twice the slots. */
  lemma ClaimKeepsCapacity(s: Pool, w: nat, s': Pool, r: Runtime)
    requires SafeInv(s) && WithinCapacity(s, r) && Enabled(s, Claim(w)) && s' == Step(s, Claim(w)) && SafeInv(s')
    ensures WithinCapacity(s', r)
  {
    var next := NextClaim(s.tasks, s.live);
    if next.Some? {
      if s.tasks[next.value].key.runtime == r {
        UnregisteredAreRunning(s', r);
      } else {
        ClaimElsewhere(s, w, s', r);
      }
    }
  }

  lemma ClaimElsewhere(s: Pool, w: nat, s': Pool, r: Runtime)
    requires Enabled(s, Claim(w)) && s' == Step(s, Claim(w)) && NextClaim(s.tasks, s.live).Some?
    requires s.tasks[NextClaim(s.tasks, s.live).value].key.runtime != r
    ensures |UnregisteredIn(s', r)| <= |UnregisteredIn(s, r)|
  {
    forall t | t in UnregisteredIn(s', r)
      ensures t in UnregisteredIn(s, r)
    {
      var v :| 0 <= v < |s'.workers| && s'.workers[v] == Claimed(t);
      assert s.workers[v] == Claimed(t);
    }
    SmallerSet(UnregisteredIn(s', r), UnregisteredIn(s, r));
  }

  lemma RegisteredIsNoLongerWaiting(s: Pool, w: nat, s': Pool, r: Runtime)
    requires SafeInv(s) && Enabled(s, Register(w)) && s' == Step(s, Register(w))
    ensures UnregisteredIn(s', r) <= UnregisteredIn(s, r) - {s.workers[w].task}
  {
    forall u | u in UnregisteredIn(s', r)
      ensures u in UnregisteredIn(s, r) && u != s.workers[w].task
    {
      var v :| 0 <= v < |s'.workers| && s'.workers[v] == Claimed(u);
      assert s.workers[v] == Claimed(u) && v != w;
    }
  }

  lemma RegisterKeepsCapacity(s: Pool, w: nat, s': Pool, r: Runtime)
    requires SafeInv(s) && WithinCapacity(s, r) && Enabled(s, Register(w)) && s' == Step(s, Register(w))
    ensures WithinCapacity(s', r)
  {
    var t := s.workers[w].task;
    var key := s.tasks[t].key;
    assert IsClaimed(s.workers, t);
    RegisteredIsNoLongerWaiting(s, w, s', r);
    SmallerSet(UnregisteredIn(s', r), UnregisteredIn(s, r) - {t});
    if key.runtime == r {
      assert LiveIn(s'.live, r) <= LiveIn(s.live, r) + {key};
      SmallerSet(LiveIn(s'.live, r), LiveIn(s.live, r) + {key});
    } else {
      SmallerSet(LiveIn(s'.live, r), LiveIn(s.live, r));
    }
  }

  lemma OtherStepKeepsCapacity(s: Pool, e: Event, s': Pool, r: Runtime)
    requires SafeInv(s) && WithinCapacity(s, r) && Enabled(s, e) && !e.Claim? && !e.Register? && s' == Step(s, e)
    ensures WithinCapacity(s', r)
  {
    WorkerStepMoves(s, e);
    StepRetires(s, e);
    forall t | t in UnregisteredIn(s', r)
      ensures t in UnregisteredIn(s, r)
    {
      var v :| 0 <= v < |s'.workers| && s'.workers[v] == Claimed(t);
      assert PhaseMoves(s.workers[v], s'.workers[v]) && PhaseOk(s.tasks, s.workers[v]);
      assert s.workers[v] == Claimed(t);
    }
    SmallerSet(UnregisteredIn(s', r), UnregisteredIn(s, r));
    forall k | k in LiveIn(s'.live, r)
      ensures k in LiveIn(s.live, r)
    {
      if k !in s.live {
        LiveGrowsByRegister(s, e, k);
      }
    }
    SmallerSet(LiveIn(s'.live, r), LiveIn(s.live, r));
  }

  lemma StepKeepsCapacity(s: Pool, e: Event, s': Pool, r: Runtime)
    requires SafeInv(s) && WithinCapacity(s, r) && Enabled(s, e) && s' == Step(s, e) && SafeInv(s')
    ensures WithinCapacity(s', r)
  {
    if e.Claim? {
      ClaimKeepsCapacity(s, e.worker, s', r);
    } else if e.Register? {
      RegisterKeepsCapacity(s, e.worker, s', r);
    } else {
      OtherStepKeepsCapacity(s, e, s', r);
    }
  }

  /** In timely runs, live processes and claimed turns that will have one are fewer than twice the slots. */
  lemma CapacityHolds(states: seq<Pool>, events: seq<Event>, i: nat, r: Runtime)
    requires Execution(states, events) && i < |states| && TimelyRun(states, events, i)
    ensures |LiveIn(states[i].live, r)| + |UnregisteredIn(states[i], r)| <= 2 * WORKERS_PER_RUNTIME - 1
  {
    ReachableSafeInv(states, events, i);
    assert WithinCapacity(states[i], r);
  }
}
