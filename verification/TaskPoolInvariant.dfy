/** What every step of the orchestrator keeps, whatever operators do and however steps interleave. */
module TaskPoolInvariant {
  import opened Prelude
  import opened TaskStatus
  import opened TaskPool

  /** The worker is in charge of the task's outcome. */
  predicate Owns(p: Phase, t: nat) {
    (p.Claimed? || p.Ready? || p.Checked? || p.Started?) && p.task == t
  }

  predicate HasServer(p: Phase) {
    p.Ready? || p.Checked? || p.Started? || p.Leaving?
  }

  /** Running tasks have distinct threads, at most three on each runtime. */
  ghost predicate RunningOk(tasks: seq<TaskRow>) {
    && (forall t, u :: 0 <= t < u < |tasks| && tasks[t].status == Running && tasks[u].status == Running
          ==> tasks[t].key != tasks[u].key)
    && (forall r :: |RunningIn(tasks, r)| <= WORKERS_PER_RUNTIME)
  }

  predicate PhaseOk(tasks: seq<TaskRow>, p: Phase) {
    p.Idle?
    || (p.task < |tasks| && tasks[p.task].status != Queued && (p.Leaving? ==> Terminal(tasks[p.task].status)))
  }

  /** A running task has exactly one owning worker; a worker that is done with its task leaves it terminal. */
  ghost predicate OwnersOk(tasks: seq<TaskRow>, workers: seq<Phase>) {
    && |workers| == WORKER_COUNT
    && (forall w :: 0 <= w < |workers| ==> PhaseOk(tasks, workers[w]))
    && (forall w, v :: 0 <= w < v < |workers| && !workers[w].Idle? && !workers[v].Idle?
          ==> workers[w].task != workers[v].task)
    && (forall t :: 0 <= t < |tasks| && tasks[t].status == Running
          ==> exists w :: 0 <= w < |workers| && Owns(workers[w], t))
  }

  predicate ProcessOk(tasks: seq<TaskRow>, p: Process) {
    p.task < |tasks| && tasks[p.task].status != Queued && p.key == tasks[p.task].key && p.takenBy <= 1
  }

  predicate ServerOk(processes: seq<Process>, p: Phase) {
    HasServer(p) ==> p.server < |processes| && processes[p.server].task == p.task
  }

  /** A process belongs to one task; the worker of a task that has no process yet is still at its claim. */
  ghost predicate ProcessesOk(tasks: seq<TaskRow>, workers: seq<Phase>, processes: seq<Process>) {
    && (forall p :: 0 <= p < |processes| ==> ProcessOk(tasks, processes[p]))
    && (forall p, q :: 0 <= p < q < |processes| ==> processes[p].task != processes[q].task)
    && (forall w :: 0 <= w < |workers| ==> ServerOk(processes, workers[w]))
    && (forall w, p :: 0 <= w < |workers| && 0 <= p < |processes| && workers[w].Claimed?
          ==> processes[p].task != workers[w].task)
  }

  predicate EntryOk(k: Key, turn: Turn, processes: seq<Process>) {
    && turn.server < |processes|
    && processes[turn.server].key == k && processes[turn.server].task == turn.task
    && processes[turn.server].takenBy == (if turn.closing then 1 else 0)
  }

  /** An entry names a process of its thread; an entry that is not closing has a process nobody took. */
  ghost predicate LiveOk(live: map<Key, Turn>, processes: seq<Process>) {
    forall k :: k in live ==> EntryOk(k, live[k], processes)
  }

  predicate Closes(p: Phase, server: nat) {
    p.Leaving? && p.server == server && !p.stage.Wanting?
  }

  ghost predicate WorkerCloses(workers: seq<Phase>, server: nat) {
    exists w :: 0 <= w < |workers| && Closes(workers[w], server)
  }

  function OperatorCloses(c: Closers, server: nat): nat {
    c.owned[server] + c.dropping[server]
  }

  /** At most one caller is closing a process, and only one that took it. */
  ghost predicate ClosersOk(workers: seq<Phase>, processes: seq<Process>, c: Closers) {
    && (forall p :: p in c.wanted || p in c.owned || p in c.dropping ==> p < |processes|)
    && (forall p :: 0 <= p < |processes| && WorkerCloses(workers, p)
          ==> OperatorCloses(c, p) == 0 && processes[p].takenBy == 1)
    && (forall p :: 0 <= p < |processes| ==> OperatorCloses(c, p) <= processes[p].takenBy)
  }

  /** Tasks of one thread are claimed in queue order: no later one is claimed while an earlier one waits. */
  ghost predicate OrderOk(tasks: seq<TaskRow>, claims: seq<nat>) {
    && (forall i :: 0 <= i < |claims| ==> claims[i] < |tasks| && tasks[claims[i]].status != Queued)
    && (forall i, j :: 0 <= i < j < |claims| && tasks[claims[i]].key == tasks[claims[j]].key ==> claims[i] < claims[j])
    && (forall i, t :: 0 <= i < |claims| && 0 <= t < |tasks| && tasks[t].status == Queued
          ==> tasks[t].key != tasks[claims[i]].key || claims[i] < t)
  }

  ghost predicate Inv(s: Pool) {
    && RunningOk(s.tasks) && OwnersOk(s.tasks, s.workers) && ProcessesOk(s.tasks, s.workers, s.processes)
    && LiveOk(s.live, s.processes) && ClosersOk(s.workers, s.processes, s.closers) && OrderOk(s.tasks, s.claims)
    && (forall t :: t in s.closers.lookups ==> t < |s.tasks|)
  }

  lemma NoneRunning(r: Runtime)
    ensures RunningIn([], r) == {}
  {
  }

  lemma NoTasks(tasks: seq<TaskRow>, claims: seq<nat>)
    requires tasks == [] && claims == []
    ensures RunningOk(tasks) && OrderOk(tasks, claims)
  {
    forall r ensures |RunningIn(tasks, r)| <= WORKERS_PER_RUNTIME { NoneRunning(r); }
  }

  lemma IdleWorkers(tasks: seq<TaskRow>, workers: seq<Phase>, processes: seq<Process>, c: Closers)
    requires tasks == [] && processes == [] && c.wanted == c.owned == c.dropping == multiset{}
    requires |workers| == WORKER_COUNT && forall w :: 0 <= w < |workers| ==> workers[w] == Idle
    ensures OwnersOk(tasks, workers) && ProcessesOk(tasks, workers, processes) && ClosersOk(workers, processes, c)
  {
  }

  lemma FreshPoolInv(s: Pool)
    requires s.tasks == [] && s.processes == [] && s.claims == [] && s.live == map[] && s.closers == NO_CLOSERS
    requires |s.workers| == WORKER_COUNT && forall w :: 0 <= w < |s.workers| ==> s.workers[w] == Idle
    ensures Inv(s)
  {
    NoTasks(s.tasks, s.claims);
    IdleWorkers(s.tasks, s.workers, s.processes, s.closers);
  }

  lemma EmptyPoolInv()
    ensures Inv(EMPTY_POOL)
  {
    FreshPoolInv(EMPTY_POOL);
  }

  // ---------------------------------------------------------------------------
  // Tasks

  /** Tasks may finish and new ones may be queued; nothing else changes. */
  ghost predicate Retires(a: seq<TaskRow>, b: seq<TaskRow>) {
    && |a| <= |b|
    && (forall t :: 0 <= t < |a| ==> b[t].key == a[t].key && (b[t].status == a[t].status || (!Terminal(a[t].status) && Terminal(b[t].status))))
    && (forall t :: |a| <= t < |b| ==> b[t].status == Queued)
  }

  lemma RetiringKeepsTasks(a: seq<TaskRow>, b: seq<TaskRow>, claims: seq<nat>)
    requires Retires(a, b) && RunningOk(a) && OrderOk(a, claims)
    ensures RunningOk(b) && OrderOk(b, claims)
  {
    forall r ensures |RunningIn(b, r)| <= |RunningIn(a, r)| {
      assert RunningIn(b, r) <= RunningIn(a, r);
      SmallerSet(RunningIn(b, r), RunningIn(a, r));
    }
  }

  lemma SmallerSet<T>(a: set<T>, b: set<T>)
    requires a <= b
    ensures |a| <= |b|
  {
    assert b == a + (b - a);
  }

  lemma RunningAfterClaim(tasks: seq<TaskRow>, t: nat, r: Runtime)
    requires t < |tasks|
    ensures |RunningIn(WithStatus(tasks, t, Running), r)|
            <= |RunningIn(tasks, r)| + if tasks[t].key.runtime == r then 1 else 0
  {
    var before, after := RunningIn(tasks, r), RunningIn(WithStatus(tasks, t, Running), r);
    if tasks[t].key.runtime == r {
      assert after <= before + {t};
      SmallerSet(after, before + {t});
    } else {
      assert after <= before;
      SmallerSet(after, before);
    }
  }

  lemma ClaimKeepsRunning(tasks: seq<TaskRow>, live: map<Key, Turn>, t: nat)
    requires RunningOk(tasks) && Claimable(tasks, live, t)
    ensures RunningOk(WithStatus(tasks, t, Running))
  {
    forall r ensures |RunningIn(WithStatus(tasks, t, Running), r)| <= WORKERS_PER_RUNTIME {
      RunningAfterClaim(tasks, t, r);
    }
  }

  lemma ClaimKeepsOrder(tasks: seq<TaskRow>, live: map<Key, Turn>, claims: seq<nat>, t: nat)
    requires OrderOk(tasks, claims) && Claimable(tasks, live, t)
    requires forall u :: 0 <= u < t ==> !Claimable(tasks, live, u)
    ensures OrderOk(WithStatus(tasks, t, Running), claims + [t])
  {
    EarlierOnesAreNotQueued(tasks, live, t);
  }

  /** Of the queued tasks of one thread the first one is claimed. */
  lemma EarlierOnesAreNotQueued(tasks: seq<TaskRow>, live: map<Key, Turn>, t: nat)
    requires Claimable(tasks, live, t) && forall u :: 0 <= u < t ==> !Claimable(tasks, live, u)
    ensures forall u :: 0 <= u < t && tasks[u].key == tasks[t].key ==> tasks[u].status != Queued
  {
    forall u | 0 <= u < t && tasks[u].key == tasks[t].key
      ensures tasks[u].status != Queued
    {
      assert !Claimable(tasks, live, u);
    }
  }

  lemma StepRetires(s: Pool, e: Event)
    requires Enabled(s, e) && !e.Claim?
    ensures Retires(s.tasks, Step(s, e).tasks) && Step(s, e).claims == s.claims
  {
  }

  lemma StepKeepsTasks(s: Pool, e: Event)
    requires Inv(s) && Enabled(s, e)
    ensures RunningOk(Step(s, e).tasks) && OrderOk(Step(s, e).tasks, Step(s, e).claims)
  {
    if e.Claim? {
      var next := NextClaim(s.tasks, s.live);
      if next.Some? {
        ClaimKeepsRunning(s.tasks, s.live, next.value);
        ClaimKeepsOrder(s.tasks, s.live, s.claims, next.value);
      }
    } else {
      StepRetires(s, e);
      RetiringKeepsTasks(s.tasks, Step(s, e).tasks, s.claims);
    }
  }

  // ---------------------------------------------------------------------------
  // Owners

  lemma RetiringKeepsOwners(a: seq<TaskRow>, b: seq<TaskRow>, workers: seq<Phase>)
    requires Retires(a, b) && OwnersOk(a, workers)
    ensures OwnersOk(b, workers)
  {
  }

  /** A worker moves on with its task, or leaves it terminal. */
  lemma WorkerMovesOn(tasks: seq<TaskRow>, workers: seq<Phase>, w: nat, p: Phase)
    requires OwnersOk(tasks, workers) && w < |workers| && !workers[w].Idle?
    requires p.Idle? || p.task == workers[w].task
    requires Owns(p, workers[w].task) || Terminal(tasks[workers[w].task].status)
    ensures OwnersOk(tasks, workers[w := p])
  {
    var after := workers[w := p];
    forall t | 0 <= t < |tasks| && tasks[t].status == Running
      ensures exists v :: 0 <= v < |after| && Owns(after[v], t)
    {
      var v :| 0 <= v < |workers| && Owns(workers[v], t);
      assert Owns(after[v], t);
    }
  }

  lemma ClaimKeepsOwners(tasks: seq<TaskRow>, workers: seq<Phase>, w: nat, t: nat)
    requires OwnersOk(tasks, workers) && w < |workers| && workers[w].Idle? && t < |tasks| && tasks[t].status == Queued
    ensures OwnersOk(WithStatus(tasks, t, Running), workers[w := Claimed(t)])
  {
    var b, after := WithStatus(tasks, t, Running), workers[w := Claimed(t)];
    forall u | 0 <= u < |b| && b[u].status == Running
      ensures exists v :: 0 <= v < |after| && Owns(after[v], u)
    {
      if u == t {
        assert Owns(after[w], u);
      } else {
        var v :| 0 <= v < |workers| && Owns(workers[v], u);
        assert Owns(after[v], u);
      }
    }
  }

  lemma FinishingIsTerminal(tasks: seq<TaskRow>, t: nat, ok: bool)
    requires t < |tasks| && tasks[t].status != Queued
    ensures Retires(tasks, Finished(tasks, t, ok)) && Terminal(Finished(tasks, t, ok)[t].status)
  {
  }

  lemma StepKeepsOwners(s: Pool, e: Event)
    requires Inv(s) && Enabled(s, e)
    ensures OwnersOk(Step(s, e).tasks, Step(s, e).workers)
  {
    var s' := Step(s, e);
    if e.Claim? {
      if NextClaim(s.tasks, s.live).Some? {
        ClaimKeepsOwners(s.tasks, s.workers, e.worker, NextClaim(s.tasks, s.live).value);
      }
    } else {
      StepRetires(s, e);
      RetiringKeepsOwners(s.tasks, s'.tasks, s.workers);
      if s'.workers != s.workers {
        WorkerStepMovesOn(s, e);
        WorkerMovesOn(s'.tasks, s.workers, e.worker, s'.workers[e.worker]);
      }
    }
  }

  predicate IsWorkerEvent(e: Event) {
    e.GiveUp? || e.Register? || e.Recheck? || e.Start? || e.FailToStart? || e.Finish? || e.WorkerTakes? || e.WorkerShuts? || e.WorkerDrops?
  }

  lemma WorkerStepMovesOn(s: Pool, e: Event)
    requires Inv(s) && Enabled(s, e) && !e.Claim? && Step(s, e).workers != s.workers
    ensures IsWorkerEvent(e) && e.worker < |s.workers| && !s.workers[e.worker].Idle?
    ensures var p, t := Step(s, e).workers[e.worker], s.workers[e.worker].task;
      && Step(s, e).workers == s.workers[e.worker := p]
      && (p.Idle? || p.task == t)
      && (Owns(p, t) || Terminal(Step(s, e).tasks[t].status))
  {
    if e.GiveUp? || e.FailToStart? || e.Start? {
      FinishingIsTerminal(s.tasks, s.workers[e.worker].task, false);
    } else if e.Finish? {
      FinishingIsTerminal(s.tasks, s.workers[e.worker].task, e.ok);
    }
  }

  // ---------------------------------------------------------------------------
  // Processes

  /** No task changes its thread or goes back into the queue. */
  ghost predicate TasksGrow(a: seq<TaskRow>, b: seq<TaskRow>) {
    && |a| <= |b|
    && forall t :: 0 <= t < |a| ==> b[t].key == a[t].key && (a[t].status != Queued ==> b[t].status != Queued)
  }

  /** A process keeps its thread and its task. */
  ghost predicate SameProcesses(a: seq<Process>, b: seq<Process>) {
    |a| == |b| && forall p :: 0 <= p < |a| ==> a[p].key == b[p].key && a[p].task == b[p].task && b[p].takenBy <= 1
  }

  /** A worker keeps its task and its process until it is idle. */
  predicate PhaseMoves(a: Phase, b: Phase) {
    b.Idle?
    || (!a.Idle? && a.task == b.task && (HasServer(b) ==> HasServer(a) && a.server == b.server) && (b.Claimed? ==> a.Claimed?))
  }

  ghost predicate WorkersMove(a: seq<Phase>, b: seq<Phase>) {
    |a| == |b| && forall w :: 0 <= w < |a| ==> PhaseMoves(a[w], b[w])
  }

  lemma MovingKeepsProcesses(a: seq<TaskRow>, b: seq<TaskRow>, workers: seq<Phase>, workers': seq<Phase>,
                             processes: seq<Process>, processes': seq<Process>)
    requires ProcessesOk(a, workers, processes)
    requires TasksGrow(a, b) && WorkersMove(workers, workers') && SameProcesses(processes, processes')
    ensures ProcessesOk(b, workers', processes')
  {
  }

  lemma ClaimKeepsProcesses(tasks: seq<TaskRow>, workers: seq<Phase>, processes: seq<Process>, w: nat, t: nat)
    requires ProcessesOk(tasks, workers, processes) && w < |workers| && t < |tasks| && tasks[t].status == Queued
    ensures ProcessesOk(WithStatus(tasks, t, Running), workers[w := Claimed(t)], processes)
  {
  }

  lemma RegisterKeepsProcesses(tasks: seq<TaskRow>, workers: seq<Phase>, processes: seq<Process>, w: nat, t: nat)
    requires OwnersOk(tasks, workers) && ProcessesOk(tasks, workers, processes)
    requires w < |workers| && workers[w] == Claimed(t)
    ensures ProcessesOk(tasks, workers[w := Ready(t, |processes|)], processes + [Process(tasks[t].key, t, Unstarted, 0)])
  {
  }

  lemma WorkerStepMoves(s: Pool, e: Event)
    requires Enabled(s, e) && !e.Claim? && !e.Register?
    ensures WorkersMove(s.workers, Step(s, e).workers)
  {
  }

  lemma TakingKeepsIdentities(live: map<Key, Turn>, processes: seq<Process>, p: nat)
    requires LiveOk(live, processes) && p < |processes| && Takeable(live, processes[p].key, p)
    requires forall q :: 0 <= q < |processes| ==> processes[q].takenBy <= 1
    ensures SameProcesses(processes, TakenOnce(processes, p))
  {
    assert EntryOk(processes[p].key, live[processes[p].key], processes);
  }

  lemma StepKeepsIdentities(s: Pool, e: Event)
    requires ProcessesOk(s.tasks, s.workers, s.processes) && LiveOk(s.live, s.processes)
    requires Enabled(s, e) && !e.Register?
    ensures SameProcesses(s.processes, Step(s, e).processes)
  {
    assert forall p :: 0 <= p < |s.processes| ==> ProcessOk(s.tasks, s.processes[p]);
    if Takes(s, e) {
      TakingKeepsIdentities(s.live, s.processes, if e.WorkerTakes? then s.workers[e.worker].server else e.server);
    }
  }

  lemma StepKeepsProcesses(s: Pool, e: Event)
    requires Inv(s) && Enabled(s, e)
    ensures ProcessesOk(Step(s, e).tasks, Step(s, e).workers, Step(s, e).processes)
  {
    var s' := Step(s, e);
    if e.Claim? {
      if NextClaim(s.tasks, s.live).Some? {
        ClaimKeepsProcesses(s.tasks, s.workers, s.processes, e.worker, NextClaim(s.tasks, s.live).value);
      }
    } else if e.Register? {
      RegisterKeepsProcesses(s.tasks, s.workers, s.processes, e.worker, s.workers[e.worker].task);
    } else {
      StepRetires(s, e);
      WorkerStepMoves(s, e);
      StepKeepsIdentities(s, e);
      MovingKeepsProcesses(s.tasks, s'.tasks, s.workers, s'.workers, s.processes, s'.processes);
    }
  }

  // ---------------------------------------------------------------------------
  // Registry

  lemma TakingKeepsLive(live: map<Key, Turn>, processes: seq<Process>, key: Key, p: nat)
    requires LiveOk(live, processes) && Takeable(live, key, p) && p < |processes|
    ensures LiveOk(Take(live, key), TakenOnce(processes, p))
  {
    forall k | k in Take(live, key)
      ensures EntryOk(k, Take(live, key)[k], TakenOnce(processes, p))
    {
      assert EntryOk(k, live[k], processes) && EntryOk(key, live[key], processes);
    }
  }

  predicate SameButState(a: Process, b: Process) {
    a.key == b.key && a.task == b.task && a.takenBy == b.takenBy
  }

  /** The states of processes do not matter to the registry, and entries may go. */
  lemma SubsetKeepsLive(live: map<Key, Turn>, live': map<Key, Turn>, processes: seq<Process>, processes': seq<Process>)
    requires LiveOk(live, processes) && |processes| <= |processes'|
    requires forall k :: k in live' ==> k in live && live'[k] == live[k]
    requires forall p :: 0 <= p < |processes| ==> SameButState(processes[p], processes'[p])
    ensures LiveOk(live', processes')
  {
    forall k | k in live'
      ensures EntryOk(k, live'[k], processes')
    {
      assert EntryOk(k, live[k], processes);
    }
  }

  lemma RegisterKeepsLive(s: Pool, w: nat)
    requires Inv(s) && Enabled(s, Register(w))
    ensures LiveOk(Step(s, Register(w)).live, Step(s, Register(w)).processes)
  {
    var s' := Step(s, Register(w));
    var key := s.tasks[s.workers[w].task].key;
    forall k | k in s'.live
      ensures EntryOk(k, s'.live[k], s'.processes)
    {
      if k != key {
        assert EntryOk(k, s.live[k], s.processes);
      }
    }
  }

  predicate Takes(s: Pool, e: Event) {
    Enabled(s, e)
    && match e
       case WorkerTakes(w) => Takeable(s.live, s.processes[s.workers[w].server].key, s.workers[w].server)
       case OperatorTakes(p) => Takeable(s.live, s.processes[p].key, p)
       case _ => false
  }

  ghost predicate QuietOnLive(s: Pool, s': Pool) {
    && |s.processes| == |s'.processes|
    && (forall k :: k in s'.live ==> k in s.live && s'.live[k] == s.live[k])
    && (forall p :: 0 <= p < |s.processes| ==> SameButState(s.processes[p], s'.processes[p]))
  }

  lemma QuietWorkerStep(s: Pool, e: Event)
    requires Enabled(s, e) && (e.Claim? || (IsWorkerEvent(e) && !e.Register?)) && !Takes(s, e)
    ensures QuietOnLive(s, Step(s, e))
  {
  }

  lemma QuietStepOnLive(s: Pool, e: Event)
    requires Enabled(s, e) && !e.Register? && !Takes(s, e)
    ensures QuietOnLive(s, Step(s, e))
  {
    if e.Claim? || IsWorkerEvent(e) {
      QuietWorkerStep(s, e);
    }
  }

  lemma StepKeepsLive(s: Pool, e: Event)
    requires Inv(s) && Enabled(s, e)
    ensures LiveOk(Step(s, e).live, Step(s, e).processes)
  {
    var s' := Step(s, e);
    if e.Register? {
      RegisterKeepsLive(s, e.worker);
    } else if Takes(s, e) {
      var p := if e.WorkerTakes? then s.workers[e.worker].server else e.server;
      TakingKeepsLive(s.live, s.processes, s.processes[p].key, p);
    } else {
      QuietStepOnLive(s, e);
      SubsetKeepsLive(s.live, s'.live, s.processes, s'.processes);
    }
  }

  // ---------------------------------------------------------------------------
  // Close calls

  /** A worker's move makes it a closer of a process only if it already was, or just took it. */
  lemma WorkersOtherThan(workers: seq<Phase>, w: nat, p: Phase, server: nat)
    requires w < |workers|
    ensures WorkerCloses(workers[w := p], server) ==> WorkerCloses(workers, server) || Closes(p, server)
  {
    if WorkerCloses(workers[w := p], server) {
      var v :| 0 <= v < |workers| && Closes(workers[w := p][v], server);
      assert v != w ==> Closes(workers[v], server);
    }
  }

  lemma MovingKeepsClosers(workers: seq<Phase>, processes: seq<Process>, processes': seq<Process>, c: Closers, w: nat, p: Phase)
    requires ClosersOk(workers, processes, c) && w < |workers|
    requires p.Leaving? && !p.stage.Wanting? ==> Closes(workers[w], p.server)
    requires |processes| == |processes'| && forall q :: 0 <= q < |processes| ==> processes'[q].takenBy == processes[q].takenBy
    ensures ClosersOk(workers[w := p], processes', c)
  {
    forall q: nat | q < |processes|
      ensures WorkerCloses(workers[w := p], q) ==> WorkerCloses(workers, q)
    {
      WorkersOtherThan(workers, w, p, q);
    }
  }

  lemma TakingFindsNoCloser(s: Pool, p: nat)
    requires Inv(s) && p < |s.processes| && Takeable(s.live, s.processes[p].key, p)
    ensures s.processes[p].takenBy == 0 && OperatorCloses(s.closers, p) == 0 && !WorkerCloses(s.workers, p)
  {
    assert EntryOk(s.processes[p].key, s.live[s.processes[p].key], s.processes);
  }

  lemma WorkerTakesKeepsClosers(s: Pool, w: nat)
    requires Inv(s) && Takes(s, WorkerTakes(w))
    ensures ClosersOk(Step(s, WorkerTakes(w)).workers, Step(s, WorkerTakes(w)).processes, s.closers)
  {
    var p := s.workers[w].server;
    var phase := Leaving(s.workers[w].task, p, Owning);
    TakingFindsNoCloser(s, p);
    forall q: nat | q < |s.processes|
      ensures WorkerCloses(s.workers[w := phase], q) ==> q == p || WorkerCloses(s.workers, q)
    {
      WorkersOtherThan(s.workers, w, phase, q);
    }
  }

  lemma OperatorTakesKeepsClosers(s: Pool, p: nat)
    requires Inv(s) && Takes(s, OperatorTakes(p))
    ensures ClosersOk(s.workers, Step(s, OperatorTakes(p)).processes, Step(s, OperatorTakes(p)).closers)
  {
    TakingFindsNoCloser(s, p);
  }

  /** Close calls may end or move on; wanting to close is no close yet. */
  lemma FewerKeepsClosers(workers: seq<Phase>, processes: seq<Process>, processes': seq<Process>, c: Closers, d: Closers)
    requires ClosersOk(workers, processes, c)
    requires |processes| == |processes'| && forall q :: 0 <= q < |processes| ==> processes'[q].takenBy == processes[q].takenBy
    requires forall p :: p in d.wanted || p in d.owned || p in d.dropping ==> p < |processes|
    requires forall p: nat :: OperatorCloses(d, p) <= OperatorCloses(c, p)
    ensures ClosersOk(workers, processes', d)
  {
  }

  lemma RegisterKeepsClosers(s: Pool, w: nat)
    requires Inv(s) && Enabled(s, Register(w))
    ensures ClosersOk(Step(s, Register(w)).workers, Step(s, Register(w)).processes, s.closers)
  {
    var n := |s.processes|;
    var phase := Ready(s.workers[w].task, n);
    assert OperatorCloses(s.closers, n) == 0;
    forall q: nat | q <= n
      ensures WorkerCloses(s.workers[w := phase], q) ==> q < n && WorkerCloses(s.workers, q)
    {
      WorkersOtherThan(s.workers, w, phase, q);
      assert forall v :: 0 <= v < |s.workers| ==> ServerOk(s.processes, s.workers[v]);
    }
  }

  /** Lookups find processes that exist. */
  lemma LookingUpKeepsClosers(s: Pool, e: Event)
    requires Inv(s) && Enabled(s, e) && (e.LookUp? || e.Collect?)
    ensures ClosersOk(s.workers, s.processes, Step(s, e).closers)
  {
    assert forall k :: k in s.live ==> EntryOk(k, s.live[k], s.processes);
    FewerKeepsClosers(s.workers, s.processes, s.processes, s.closers, Step(s, e).closers);
  }

  lemma ClosersMoveOn(c: Closers, p: nat, ok: bool)
    requires p in c.owned
    ensures var d := c.(owned := c.owned - multiset{p});
      forall q: nat :: OperatorCloses(if ok then d.(dropping := d.dropping + multiset{p}) else d, q) <= OperatorCloses(c, q)
  {
  }

  lemma OperatorEndsItsClose(s: Pool, e: Event)
    requires ClosersOk(s.workers, s.processes, s.closers)
    requires Enabled(s, e) && !Takes(s, e) && (e.OperatorTakes? || e.OperatorShuts? || e.OperatorDrops?)
    ensures ClosersOk(s.workers, Step(s, e).processes, Step(s, e).closers)
  {
    if e.OperatorShuts? {
      ClosersMoveOn(s.closers, e.server, e.ok);
    }
    FewerKeepsClosers(s.workers, s.processes, Step(s, e).processes, s.closers, Step(s, e).closers);
  }

  lemma OperatorStepKeepsClosers(s: Pool, e: Event)
    requires Inv(s) && Enabled(s, e) && !Takes(s, e)
    requires e.OperatorTakes? || e.OperatorShuts? || e.OperatorDrops? || e.Kill? || e.StopRuntime? || e.Exit?
    ensures ClosersOk(s.workers, Step(s, e).processes, Step(s, e).closers)
  {
    if e.Kill? || e.StopRuntime? || e.Exit? {
      FewerKeepsClosers(s.workers, s.processes, Step(s, e).processes, s.closers, Step(s, e).closers);
    } else {
      OperatorEndsItsClose(s, e);
    }
  }

  lemma WorkerStepKeepsClosers(s: Pool, e: Event)
    requires Inv(s) && Enabled(s, e) && (e.Claim? || IsWorkerEvent(e)) && !e.Register? && !Takes(s, e)
    ensures ClosersOk(Step(s, e).workers, Step(s, e).processes, s.closers)
  {
    var s' := Step(s, e);
    MovingKeepsClosers(s.workers, s.processes, s'.processes, s.closers, e.worker, s'.workers[e.worker]);
    assert s'.workers == s.workers[e.worker := s'.workers[e.worker]];
  }

  lemma StepKeepsClosers(s: Pool, e: Event)
    requires Inv(s) && Enabled(s, e)
    ensures ClosersOk(Step(s, e).workers, Step(s, e).processes, Step(s, e).closers)
  {
    if e.Register? {
      RegisterKeepsClosers(s, e.worker);
    } else if Takes(s, e) {
      if e.WorkerTakes? { WorkerTakesKeepsClosers(s, e.worker); } else { OperatorTakesKeepsClosers(s, e.server); }
    } else if e.Claim? || IsWorkerEvent(e) {
      WorkerStepKeepsClosers(s, e);
    } else if e.LookUp? || e.Collect? {
      LookingUpKeepsClosers(s, e);
    } else if !e.Submit? && !e.Cancel? {
      OperatorStepKeepsClosers(s, e);
    }
  }

  // ---------------------------------------------------------------------------

  lemma StepKeepsLookups(s: Pool, e: Event)
    requires Inv(s) && Enabled(s, e)
    ensures forall t :: t in Step(s, e).closers.lookups ==> t < |Step(s, e).tasks|
  {
    if !e.Claim? {
      StepRetires(s, e);
    }
  }

  lemma StepKeepsInv(s: Pool, e: Event)
    requires Inv(s) && Enabled(s, e)
    ensures Inv(Step(s, e))
  {
    StepKeepsTasks(s, e);
    StepKeepsOwners(s, e);
    StepKeepsProcesses(s, e);
    StepKeepsLive(s, e);
    StepKeepsClosers(s, e);
    StepKeepsLookups(s, e);
  }
}
