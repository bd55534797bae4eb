/**
 * At most one process per user thread, and how many there can be: what holds
 * while no operator ends a turn that is not registered yet, or closes one that is
 * going to spawn its process all the same.
 */
module TaskPoolSafety {
  import opened TaskStatus
  import opened TaskPool
  import opened TaskPoolInvariant

  // ---------------------------------------------------------------------------
  // The boot window

  predicate IsClaimed(workers: seq<Phase>, t: nat) {
    exists w :: 0 <= w < |workers| && workers[w] == Claimed(t)
  }

  /**
   * The worker will still spawn process `p` once it has been closed. A Codex turn
   * always does. A Claude turn does if its task still runs or the check is past.
   * A Hermes turn that was closed refuses.
   */
  predicate WillSpawn(p: Phase, r: Runtime, running: bool) {
    match r
    case Codex => p.Ready?
    case ClaudeCode => p.Checked? || (p.Ready? && running)
    case Hermes => false
  }

  predicate IsBooting(s: Pool, w: nat, p: nat) {
    && w < |s.workers| && (s.workers[w].Ready? || s.workers[w].Checked?) && s.workers[w].server == p
    && p < |s.processes| && s.workers[w].task < |s.tasks|
    && WillSpawn(s.workers[w], s.processes[p].key.runtime, s.tasks[s.workers[w].task].status == Running)
  }

  /** An operator ends a running task whose process is not registered yet. */
  predicate EarlyKill(s: Pool, e: Event) {
    match e
    case Kill(t) => IsClaimed(s.workers, t)
    case StopRuntime(r) => exists t :: 0 <= t < |s.tasks| && IsClaimed(s.workers, t) && s.tasks[t].key.runtime == r
    case _ => false
  }

  /** An operator takes a process that its worker has registered and will spawn all the same. */
  predicate EarlyClose(s: Pool, e: Event) {
    e.OperatorTakes? && exists w :: 0 <= w < |s.workers| && IsBooting(s, w, e.server)
  }

  predicate Timely(s: Pool, e: Event) {
    !EarlyKill(s, e) && !EarlyClose(s, e)
  }

  // ---------------------------------------------------------------------------
  // The invariant

  ghost predicate ClaimedOk(tasks: seq<TaskRow>, workers: seq<Phase>, live: map<Key, Turn>) {
    forall w :: 0 <= w < |workers| && workers[w].Claimed? ==>
      workers[w].task < |tasks| && tasks[workers[w].task].status == Running && tasks[workers[w].task].key !in live
  }

  /**
   * The process of a worker that will spawn it whatever happens is registered,
   * and nobody took it. One that refuses once it is closed is registered until then.
   */
  predicate BootOk(p: Phase, tasks: seq<TaskRow>, live: map<Key, Turn>, processes: seq<Process>) {
    p.Ready? || p.Checked? ==>
      && p.server < |processes| && p.task < |tasks|
      && (WillSpawn(p, processes[p.server].key.runtime, tasks[p.task].status == Running) ==>
            Takeable(live, processes[p.server].key, p.server))
      && (processes[p.server].key.runtime.Hermes? && !processes[p.server].state.Down? ==>
            Registered(live, processes[p.server].key, p.server))
  }

  ghost predicate ReadyOk(workers: seq<Phase>, tasks: seq<TaskRow>, live: map<Key, Turn>, processes: seq<Process>) {
    forall w :: 0 <= w < |workers| ==> BootOk(workers[w], tasks, live, processes)
  }

  /** Every process that is up is the one registered for its thread. */
  ghost predicate UpOk(live: map<Key, Turn>, processes: seq<Process>) {
    forall p :: 0 <= p < |processes| && processes[p].state.Up? ==> Registered(live, processes[p].key, p)
  }

  ghost predicate WorkerDropping(workers: seq<Phase>, p: nat) {
    exists w :: 0 <= w < |workers| && workers[w].Leaving? && workers[w].server == p && workers[w].stage.Dropping?
  }

  /** Who drops an entry has shut its process down. */
  ghost predicate DropOk(workers: seq<Phase>, processes: seq<Process>, c: Closers) {
    forall p: nat :: p < |processes| && (p in c.dropping || WorkerDropping(workers, p)) ==> processes[p].state.Down?
  }

  /** A process leaves the registry only after one caller took it. */
  ghost predicate TakenOk(live: map<Key, Turn>, processes: seq<Process>) {
    forall p :: 0 <= p < |processes| && processes[p].takenBy == 0 ==> Takeable(live, processes[p].key, p)
  }

  ghost predicate SafeInv(s: Pool) {
    && Inv(s)
    && ClaimedOk(s.tasks, s.workers, s.live) && ReadyOk(s.workers, s.tasks, s.live, s.processes)
    && UpOk(s.live, s.processes) && DropOk(s.workers, s.processes, s.closers) && TakenOk(s.live, s.processes)
  }

  lemma EmptySafeInv()
    ensures SafeInv(EMPTY_POOL)
  {
    EmptyPoolInv();
    IdleIsSafe(EMPTY_POOL.tasks, EMPTY_POOL.workers, EMPTY_POOL.live, EMPTY_POOL.processes, EMPTY_POOL.closers);
  }

  lemma IdleIsSafe(tasks: seq<TaskRow>, workers: seq<Phase>, live: map<Key, Turn>, processes: seq<Process>, c: Closers)
    requires forall w :: 0 <= w < |workers| ==> workers[w].Idle?
    requires live == map[] && processes == []
    ensures ClaimedOk(tasks, workers, live) && ReadyOk(workers, tasks, live, processes)
    ensures UpOk(live, processes) && DropOk(workers, processes, c) && TakenOk(live, processes)
  {
  }

  // ---------------------------------------------------------------------------
  // Claimed turns

  /** Only kills and stops, and the task's own worker, end a running task. */
  lemma WhoEndsATask(s: Pool, e: Event, s': Pool, t: nat)
    requires OwnersOk(s.tasks, s.workers) && Enabled(s, e) && s' == Step(s, e) && !e.Claim?
    requires t < |s.tasks| && s.tasks[t].status == Running
    ensures t < |s'.tasks|
    ensures s'.tasks[t] == s.tasks[t] || e == Kill(t) || e == StopRuntime(s.tasks[t].key.runtime)
            || ((e.GiveUp? || e.Start? || e.FailToStart? || e.Finish?) && s.workers[e.worker].task == t)
  {
  }

  /** A timely step ends no task that a worker has claimed and not registered. */
  lemma ClaimedTaskKeepsRunning(s: Pool, e: Event, w: nat, s': Pool)
    requires SafeInv(s) && Enabled(s, e) && Timely(s, e) && !e.Claim? && s' == Step(s, e)
    requires w < |s.workers| && s.workers[w].Claimed? && w < |s'.workers| && s'.workers[w] == s.workers[w]
    ensures s.workers[w].task < |s'.tasks| && s'.tasks[s.workers[w].task] == s.tasks[s.workers[w].task]
  {
    var t := s.workers[w].task;
    assert IsClaimed(s.workers, t);
    WhoEndsATask(s, e, s', t);
  }

  lemma LiveGrowsByRegister(s: Pool, e: Event, k: Key)
    requires Enabled(s, e) && k in Step(s, e).live && k !in s.live
    ensures e.Register? && k == s.tasks[s.workers[e.worker].task].key
  {
  }

  /** Claimed turns are running on distinct threads. */
  lemma ClaimedKeysDiffer(tasks: seq<TaskRow>, workers: seq<Phase>, live: map<Key, Turn>, w: nat, v: nat)
    requires RunningOk(tasks) && OwnersOk(tasks, workers) && ClaimedOk(tasks, workers, live)
    requires w < |workers| && v < |workers| && w != v && workers[w].Claimed? && workers[v].Claimed?
    ensures tasks[workers[w].task].key != tasks[workers[v].task].key
  {
    var t, u := workers[w].task, workers[v].task;
    assert t != u by {
      if w < v { assert workers[w].task != workers[v].task; } else { assert workers[v].task != workers[w].task; }
    }
    assert tasks[t].status == Running && tasks[u].status == Running;
  }

  lemma ClaimKeepsClaimed(s: Pool, w: nat)
    requires SafeInv(s) && Enabled(s, Claim(w))
    ensures ClaimedOk(Step(s, Claim(w)).tasks, Step(s, Claim(w)).workers, s.live)
  {
  }

  lemma RegisterKeepsClaimed(s: Pool, w: nat)
    requires SafeInv(s) && Enabled(s, Register(w))
    ensures ClaimedOk(s.tasks, Step(s, Register(w)).workers, Step(s, Register(w)).live)
  {
    var s' := Step(s, Register(w));
    forall v | 0 <= v < |s.workers| && s'.workers[v].Claimed?
      ensures s.workers[v].task < |s.tasks| && s.tasks[s.workers[v].task].status == Running
      ensures s.tasks[s.workers[v].task].key !in s'.live
    {
      ClaimedKeysDiffer(s.tasks, s.workers, s.live, v, w);
    }
  }

  lemma StepKeepsClaimed(s: Pool, e: Event)
    requires SafeInv(s) && Enabled(s, e) && Timely(s, e)
    ensures ClaimedOk(Step(s, e).tasks, Step(s, e).workers, Step(s, e).live)
  {
    if e.Claim? {
      ClaimKeepsClaimed(s, e.worker);
    } else if e.Register? {
      RegisterKeepsClaimed(s, e.worker);
    } else {
      OtherStepKeepsClaimed(s, e, Step(s, e));
    }
  }

  lemma OtherStepKeepsClaimed(s: Pool, e: Event, s': Pool)
    requires SafeInv(s) && Enabled(s, e) && Timely(s, e) && !e.Claim? && !e.Register? && s' == Step(s, e)
    ensures ClaimedOk(s'.tasks, s'.workers, s'.live)
  {
    WorkerStepMoves(s, e);
    StepRetires(s, e);
    forall w | 0 <= w < |s'.workers| && s'.workers[w].Claimed?
      ensures s'.workers[w].task < |s'.tasks| && s'.tasks[s'.workers[w].task].status == Running
      ensures s'.tasks[s'.workers[w].task].key !in s'.live
    {
      assert PhaseMoves(s.workers[w], s'.workers[w]);
      ClaimedTaskKeepsRunning(s, e, w, s');
      if s.tasks[s.workers[w].task].key in s'.live {
        LiveGrowsByRegister(s, e, s.tasks[s.workers[w].task].key);
      }
    }
  }

  // ---------------------------------------------------------------------------
  // Entries

  predicate DropsProcess(s: Pool, e: Event, p: nat)
    requires Enabled(s, e)
  {
    (e.WorkerDrops? && s.workers[e.worker].server == p) || (e.OperatorDrops? && e.server == p)
  }

  predicate TakesProcess(s: Pool, e: Event, p: nat)
    requires Enabled(s, e)
  {
    (e.WorkerTakes? && s.workers[e.worker].server == p) || (e.OperatorTakes? && e.server == p)
  }

  /** An entry stays until its process is dropped, and is marked only when its process is taken. */
  lemma EntryFate(s: Pool, e: Event, s': Pool, key: Key, p: nat)
    requires Enabled(s, e) && s' == Step(s, e) && ClaimedOk(s.tasks, s.workers, s.live)
    requires Registered(s.live, key, p)
    ensures Registered(s'.live, key, p) || DropsProcess(s, e, p)
    ensures Registered(s'.live, key, p) && !TakesProcess(s, e, p) ==> s'.live[key] == s.live[key]
  {
  }

  /** Nobody drops a process that nobody took. */
  lemma DroppedWasTaken(s: Pool, e: Event, p: nat)
    requires Inv(s) && Enabled(s, e) && DropsProcess(s, e, p) && p < |s.processes|
    ensures s.processes[p].takenBy == 1
  {
    if e.WorkerDrops? {
      assert Closes(s.workers[e.worker], p);
    } else {
      assert OperatorCloses(s.closers, p) >= 1;
      assert ProcessOk(s.tasks, s.processes[p]);
    }
  }

  lemma TakeableMeansUntaken(live: map<Key, Turn>, processes: seq<Process>, p: nat)
    requires LiveOk(live, processes) && p < |processes| && Takeable(live, processes[p].key, p)
    ensures processes[p].takenBy == 0
  {
    assert EntryOk(processes[p].key, live[processes[p].key], processes);
  }

  /** The entry of a process that nobody took stays takeable until somebody takes it. */
  lemma UntakenStays(s: Pool, e: Event, s': Pool, p: nat)
    requires Inv(s) && ClaimedOk(s.tasks, s.workers, s.live) && Enabled(s, e) && s' == Step(s, e)
    requires p < |s.processes| && Takeable(s.live, s.processes[p].key, p) && !TakesProcess(s, e, p)
    ensures Takeable(s'.live, s.processes[p].key, p)
  {
    EntryFate(s, e, s', s.processes[p].key, p);
    TakeableMeansUntaken(s.live, s.processes, p);
    if DropsProcess(s, e, p) {
      DroppedWasTaken(s, e, p);
    }
  }

  /** Only its own worker has a process. */
  lemma OneWorkerPerProcess(s: Pool, w: nat, v: nat)
    requires Inv(s) && w < |s.workers| && v < |s.workers| && HasServer(s.workers[w]) && HasServer(s.workers[v])
    requires s.workers[w].server == s.workers[v].server
    ensures w == v
  {
    assert ServerOk(s.processes, s.workers[w]) && ServerOk(s.processes, s.workers[v]);
    assert s.workers[w].task == s.workers[v].task;
  }

  /** Processes are only added, and keep their keys. */
  lemma ProcessesStay(s: Pool, e: Event, s': Pool)
    requires Enabled(s, e) && s' == Step(s, e)
    ensures |s.processes| <= |s'.processes|
    ensures forall p :: 0 <= p < |s.processes| ==> s'.processes[p].key == s.processes[p].key
  {
  }

  lemma SameWorkers(s: Pool, e: Event, s': Pool)
    requires Enabled(s, e) && s' == Step(s, e)
    ensures |s'.workers| == |s.workers|
  {
  }

  predicate Boots(p: Phase) {
    p.Ready? || p.Checked?
  }

  lemma NewlyBooting(s: Pool, e: Event, s': Pool, w: nat)
    requires Enabled(s, e) && s' == Step(s, e) && w < |s.workers| && w < |s'.workers|
    requires Boots(s'.workers[w]) && s'.workers[w] != s.workers[w]
    ensures e == Register(w) || (e == Recheck(w) && s.workers[w].Ready? && s'.workers[w].Checked? && s'.tasks == s.tasks
              && s'.live == s.live && s'.processes == s.processes && s'.workers[w].server == s.workers[w].server
              && s'.workers[w].task == s.workers[w].task && s.tasks[s.workers[w].task].status == Running
              && !s.processes[s.workers[w].server].key.runtime.Codex?)
  {
  }

  lemma RegisteredBoots(s: Pool, w: nat, s': Pool)
    requires Inv(s) && Enabled(s, Register(w)) && s' == Step(s, Register(w))
    ensures BootOk(s'.workers[w], s'.tasks, s'.live, s'.processes)
  {
  }

  lemma StepKeepsReady(s: Pool, e: Event, s': Pool)
    requires SafeInv(s) && Enabled(s, e) && Timely(s, e) && s' == Step(s, e)
    ensures ReadyOk(s'.workers, s'.tasks, s'.live, s'.processes)
  {
    SameWorkers(s, e, s');
    forall w | 0 <= w < |s'.workers|
      ensures BootOk(s'.workers[w], s'.tasks, s'.live, s'.processes)
    {
      if Boots(s'.workers[w]) {
        if s'.workers[w] == s.workers[w] {
          ReadyStays(s, e, s', w);
        } else {
          NewlyBooting(s, e, s', w);
          if e.Register? {
            RegisteredBoots(s, w, s');
          } else {
            assert BootOk(s.workers[w], s.tasks, s.live, s.processes);
          }
        }
      }
    }
  }

  /** A task that has ended does not run again. */
  lemma EndedStaysEnded(s: Pool, e: Event, s': Pool, t: nat)
    requires Enabled(s, e) && s' == Step(s, e) && t < |s.tasks| && s.tasks[t].status != Queued
    ensures t < |s'.tasks| && (s'.tasks[t].status == Running ==> s.tasks[t].status == Running)
  {
    if !e.Claim? {
      StepRetires(s, e);
    }
  }

  lemma DownStaysDown(s: Pool, e: Event, s': Pool, p: nat)
    requires Enabled(s, e) && s' == Step(s, e) && p < |s.processes| && s.processes[p].state.Down?
    ensures p < |s'.processes|
    ensures s'.processes[p].state.Down? || (e.Start? && s.workers[e.worker].server == p && !RefusesSpawn(s.processes[p]))
  {
  }

  /** A process that is not down yet was not down before. */
  lemma NotDownYet(s: Pool, e: Event, s': Pool, w: nat)
    requires Enabled(s, e) && s' == Step(s, e) && Inv(s) && w < |s.workers| && w < |s'.workers| && Boots(s.workers[w])
    requires s'.workers[w] == s.workers[w] && s.workers[w].server < |s.processes| && s.workers[w].server < |s'.processes|
    ensures !s'.processes[s.workers[w].server].state.Down? ==> !s.processes[s.workers[w].server].state.Down?
  {
    var p := s.workers[w].server;
    if s.processes[p].state.Down? {
      DownStaysDown(s, e, s', p);
      if e.Start? && s.workers[e.worker].server == p {
        OneWorkerPerProcess(s, w, e.worker);
      }
    }
  }

  /** A process that somebody shuts or drops has been taken. */
  lemma DroppedIsDown(s: Pool, e: Event, p: nat)
    requires DropOk(s.workers, s.processes, s.closers) && Enabled(s, e) && DropsProcess(s, e, p) && p < |s.processes|
    ensures s.processes[p].state.Down?
  {
    if e.WorkerDrops? {
      assert WorkerDropping(s.workers, p);
    }
  }

  lemma ReadyStays(s: Pool, e: Event, s': Pool, w: nat)
    requires SafeInv(s) && Enabled(s, e) && !EarlyClose(s, e) && s' == Step(s, e)
    requires w < |s.workers| && w < |s'.workers| && Boots(s.workers[w]) && s'.workers[w] == s.workers[w]
    ensures BootOk(s.workers[w], s'.tasks, s'.live, s'.processes)
  {
    var p, t := s.workers[w].server, s.workers[w].task;
    assert BootOk(s.workers[w], s.tasks, s.live, s.processes) && PhaseOk(s.tasks, s.workers[w]);
    ProcessesStay(s, e, s');
    EndedStaysEnded(s, e, s', t);
    if WillSpawn(s.workers[w], s.processes[p].key.runtime, s'.tasks[t].status == Running) {
      SpawnerStays(s, e, s', w);
    }
    if s.processes[p].key.runtime.Hermes? && !s'.processes[p].state.Down? {
      NotDownYet(s, e, s', w);
      EntryFate(s, e, s', s.processes[p].key, p);
      if DropsProcess(s, e, p) {
        DroppedIsDown(s, e, p);
      }
    }
  }

  lemma SpawnerStays(s: Pool, e: Event, s': Pool, w: nat)
    requires Inv(s) && ClaimedOk(s.tasks, s.workers, s.live) && Enabled(s, e) && !EarlyClose(s, e) && s' == Step(s, e)
    requires w < |s.workers| && w < |s'.workers| && Boots(s.workers[w]) && s'.workers[w] == s.workers[w]
    requires s.workers[w].server < |s.processes| && IsBooting(s, w, s.workers[w].server)
    requires Takeable(s.live, s.processes[s.workers[w].server].key, s.workers[w].server)
    ensures Takeable(s'.live, s.processes[s.workers[w].server].key, s.workers[w].server)
  {
    var p := s.workers[w].server;
    if TakesProcess(s, e, p) {
      if e.WorkerTakes? {
        OneWorkerPerProcess(s, w, e.worker);
      }
    } else {
      UntakenStays(s, e, s', p);
    }
  }

  lemma NewlyUp(s: Pool, e: Event, s': Pool, p: nat)
    requires Enabled(s, e) && s' == Step(s, e) && p < |s'.processes| && s'.processes[p].state.Up?
    requires p >= |s.processes| || !s.processes[p].state.Up?
    ensures e.Start? && s.workers[e.worker].server == p && p < |s.processes| && s'.live == s.live
    ensures !RefusesSpawn(s.processes[p])
  {
  }

  lemma StepKeepsUp(s: Pool, e: Event, s': Pool)
    requires SafeInv(s) && Enabled(s, e) && s' == Step(s, e)
    ensures UpOk(s'.live, s'.processes)
  {
    ProcessesStay(s, e, s');
    forall p | 0 <= p < |s'.processes| && s'.processes[p].state.Up?
      ensures Registered(s'.live, s'.processes[p].key, p)
    {
      if p >= |s.processes| || !s.processes[p].state.Up? {
        NewlyUp(s, e, s', p);
        assert BootOk(s.workers[e.worker], s.tasks, s.live, s.processes);
      } else {
        EntryFate(s, e, s', s.processes[p].key, p);
        if DropsProcess(s, e, p) {
          DroppedIsDown(s, e, p);
        }
      }
    }
  }

  lemma StepKeepsTaken(s: Pool, e: Event, s': Pool)
    requires SafeInv(s) && Enabled(s, e) && s' == Step(s, e)
    ensures TakenOk(s'.live, s'.processes)
  {
    ProcessesStay(s, e, s');
    forall p | 0 <= p < |s'.processes| && s'.processes[p].takenBy == 0
      ensures Takeable(s'.live, s'.processes[p].key, p)
    {
      UntakenHistory(s, e, s', p);
      if p < |s.processes| {
        UntakenStays(s, e, s', p);
      }
    }
  }

  lemma UntakenHistory(s: Pool, e: Event, s': Pool, p: nat)
    requires Enabled(s, e) && s' == Step(s, e) && TakenOk(s.live, s.processes)
    requires p < |s'.processes| && s'.processes[p].takenBy == 0
    ensures p < |s.processes| ==> s.processes[p].takenBy == 0 && !TakesProcess(s, e, p)
    ensures p >= |s.processes| ==> Takeable(s'.live, s'.processes[p].key, p)
  {
  }

  lemma WorkerStartsDropping(s: Pool, e: Event, s': Pool, w: nat)
    requires Enabled(s, e) && s' == Step(s, e) && w < |s'.workers| && w < |s.workers|
    requires s'.workers[w].Leaving? && s'.workers[w].stage.Dropping? && s'.workers[w] != s.workers[w]
    ensures s'.workers[w].server < |s'.processes| && s'.processes[s'.workers[w].server].state.Down?
  {
  }

  /** A caller that has just shut a process down is the only new dropper. */
  lemma NewDropper(s: Pool, e: Event, s': Pool, p: nat)
    requires Enabled(s, e) && s' == Step(s, e) && p < |s'.processes|
    requires p in s'.closers.dropping || WorkerDropping(s'.workers, p)
    ensures s'.processes[p].state.Down? || p in s.closers.dropping || WorkerDropping(s.workers, p)
  {
    if p in s'.closers.dropping {
      NewOperatorDropper(s, e, s', p);
    } else {
      var w :| 0 <= w < |s'.workers| && s'.workers[w].Leaving? && s'.workers[w].server == p && s'.workers[w].stage.Dropping?;
      SameWorkers(s, e, s');
      if s'.workers[w] != s.workers[w] {
        WorkerStartsDropping(s, e, s', w);
      }
    }
  }

  lemma NewOperatorDropper(s: Pool, e: Event, s': Pool, p: nat)
    requires Enabled(s, e) && s' == Step(s, e) && p < |s'.processes| && p in s'.closers.dropping
    ensures s'.processes[p].state.Down? || p in s.closers.dropping
  {
  }

  lemma StepKeepsDrop(s: Pool, e: Event, s': Pool)
    requires SafeInv(s) && Enabled(s, e) && s' == Step(s, e)
    ensures DropOk(s'.workers, s'.processes, s'.closers)
  {
    forall p: nat | p < |s'.processes| && (p in s'.closers.dropping || WorkerDropping(s'.workers, p))
      ensures s'.processes[p].state.Down?
    {
      NewDropper(s, e, s', p);
      if !s'.processes[p].state.Down? {
        DropperIsOld(s, e, s', p);
      }
    }
  }

  lemma DropperTookIt(s: Pool, p: nat)
    requires Inv(s) && (p in s.closers.dropping || WorkerDropping(s.workers, p))
    ensures p < |s.processes| && s.processes[p].takenBy >= 1
  {
    if WorkerDropping(s.workers, p) {
      var w :| 0 <= w < |s.workers| && s.workers[w].Leaving? && s.workers[w].server == p && s.workers[w].stage.Dropping?;
      assert ServerOk(s.processes, s.workers[w]) && Closes(s.workers[w], p);
    }
  }

  /** A process that is being dropped does not start any more. */
  lemma DropperIsOld(s: Pool, e: Event, s': Pool, p: nat)
    requires SafeInv(s) && Enabled(s, e) && s' == Step(s, e) && p < |s'.processes|
    requires p in s.closers.dropping || WorkerDropping(s.workers, p)
    ensures s'.processes[p].state.Down?
  {
    DropperTookIt(s, p);
    DownStaysDown(s, e, s', p);
    if !s'.processes[p].state.Down? {
      assert BootOk(s.workers[e.worker], s.tasks, s.live, s.processes);
      TakeableMeansUntaken(s.live, s.processes, p);
    }
  }

  lemma StepKeepsSafeInv(s: Pool, e: Event)
    requires SafeInv(s) && Enabled(s, e) && Timely(s, e)
    ensures SafeInv(Step(s, e))
  {
    StepKeepsInv(s, e);
    StepKeepsClaimed(s, e);
    StepKeepsReady(s, e, Step(s, e));
    StepKeepsUp(s, e, Step(s, e));
    StepKeepsDrop(s, e, Step(s, e));
    StepKeepsTaken(s, e, Step(s, e));
  }
}
