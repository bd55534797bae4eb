/**
 * The task orchestrator: workers that claim queued tasks, register a runtime
 * process, run and finish the turn and close the process, while operators kill
 * tasks and stop whole runtimes.
 *
 * One state mutation, one critical section of the live registry and one call
 * of a process are one atomic step each. `claims` is history: the tasks that
 * were claimed, in order. So is `takenBy` of a process: how many callers took
 * ownership of closing it.
 */
module TaskPool {
  import opened Prelude
  import opened TaskStatus

  const WORKERS_PER_RUNTIME := 3
  const WORKER_COUNT := 9

  datatype Runtime = Codex | ClaudeCode | Hermes

  /** A user thread of a runtime. */
  datatype Key = Key(runtime: Runtime, thread: nat)

  /** A task; its id is its position, which is also the claim order. */
  datatype TaskRow = TaskRow(key: Key, status: Status)

  datatype ProcessState = Unstarted | Up | Down

  /** A runtime process; its id is its position. */
  datatype Process = Process(key: Key, task: nat, state: ProcessState, takenBy: nat)

  /** An entry of the live registry. `closing` marks that some caller owns the close. */
  datatype Turn = Turn(server: nat, task: nat, closing: bool)

  /** Where a caller stands that closes a process. */
  datatype Stage = Wanting | Owning | Dropping

  /**
   * Where a worker stands. It registers its turn (`Ready`) and starts it. A Codex
   * turn spawns its process at once; the other runtimes first check that the task
   * is still running (`Checked`) and spawn theirs with the prompt. `Started` is
   * after the spawn.
   */
  datatype Phase =
    | Idle
    | Claimed(task: nat)
    | Ready(task: nat, server: nat)
    | Checked(task: nat, server: nat)
    | Started(task: nat, server: nat)
    | Leaving(task: nat, server: nat, stage: Stage)

  /** The close calls of operators, by process, and the runtimes and tasks whose processes they still look up. */
  datatype Closers = Closers(lookups: set<nat>, stops: multiset<Runtime>, wanted: multiset<nat>,
                             owned: multiset<nat>, dropping: multiset<nat>)

  datatype Pool = Pool(
    tasks: seq<TaskRow>,
    workers: seq<Phase>,
    live: map<Key, Turn>,
    processes: seq<Process>,
    closers: Closers,
    claims: seq<nat>)

  const NO_CLOSERS := Closers({}, multiset{}, multiset{}, multiset{}, multiset{})

  const EMPTY_POOL := Pool([], [Idle, Idle, Idle, Idle, Idle, Idle, Idle, Idle, Idle], map[], [], NO_CLOSERS, [])

  // ---------------------------------------------------------------------------
  // Claiming

  function RunningIn(tasks: seq<TaskRow>, r: Runtime): set<nat> {
    set t | 0 <= t < |tasks| && tasks[t].status == Running && tasks[t].key.runtime == r
  }

  function AllRunning(tasks: seq<TaskRow>): set<nat> {
    set t | 0 <= t < |tasks| && tasks[t].status == Running
  }

  function LiveIn(live: map<Key, Turn>, r: Runtime): set<Key> {
    set k | k in live && k.runtime == r
  }

  /** A queued task whose runtime has a free slot and whose thread is neither running nor live. */
  predicate Claimable(tasks: seq<TaskRow>, live: map<Key, Turn>, t: nat) {
    && t < |tasks| && tasks[t].status == Queued
    && |RunningIn(tasks, tasks[t].key.runtime)| < WORKERS_PER_RUNTIME
    && |LiveIn(live, tasks[t].key.runtime)| < WORKERS_PER_RUNTIME
    && tasks[t].key !in live
    && forall u :: 0 <= u < |tasks| && tasks[u].status == Running ==> tasks[u].key != tasks[t].key
  }

  /** The first claimable task from `from` on, or the number of tasks. */
  function FirstClaimable(tasks: seq<TaskRow>, live: map<Key, Turn>, from: nat): (t: nat)
    requires from <= |tasks|
    ensures from <= t <= |tasks|
    ensures t < |tasks| ==> Claimable(tasks, live, t)
    ensures forall u :: from <= u < t ==> !Claimable(tasks, live, u)
    decreases |tasks| - from
  {
    if from == |tasks| || Claimable(tasks, live, from) then from else FirstClaimable(tasks, live, from + 1)
  }

  /** The task that the next claim takes. */
  function NextClaim(tasks: seq<TaskRow>, live: map<Key, Turn>): (t: Option<nat>)
    ensures t.Some? ==> Claimable(tasks, live, t.value)
    ensures t.Some? ==> forall u :: 0 <= u < t.value ==> !Claimable(tasks, live, u)
    ensures t.None? ==>
      |AllRunning(tasks)| >= 9 || |live| >= 9 || forall u :: 0 <= u < |tasks| ==> !Claimable(tasks, live, u)
  {
    if |AllRunning(tasks)| >= WORKER_COUNT || |live| >= WORKER_COUNT then None
    else
      var t := FirstClaimable(tasks, live, 0);
      if t < |tasks| then Some(t) else None
  }

  // ---------------------------------------------------------------------------
  // Registry and processes

  predicate Registered(live: map<Key, Turn>, key: Key, server: nat) {
    key in live && live[key].server == server
  }

  /** The entry a close call may take: registered for this process and not taken yet. */
  predicate Takeable(live: map<Key, Turn>, key: Key, server: nat) {
    Registered(live, key, server) && !live[key].closing
  }

  function Take(live: map<Key, Turn>, key: Key): map<Key, Turn>
    requires key in live
  {
    live[key := live[key].(closing := true)]
  }

  function Unregister(live: map<Key, Turn>, key: Key, server: nat): map<Key, Turn> {
    if Registered(live, key, server) then live - {key} else live
  }

  function WithStatus(tasks: seq<TaskRow>, t: nat, status: Status): seq<TaskRow>
    requires t < |tasks|
  {
    tasks[t := tasks[t].(status := status)]
  }

  /** A finish is ignored unless the task is still running. */
  function Finished(tasks: seq<TaskRow>, t: nat, ok: bool): seq<TaskRow>
    requires t < |tasks|
  {
    if tasks[t].status == Running then WithStatus(tasks, t, if ok then Completed else Failed) else tasks
  }

  function FailedIn(tasks: seq<TaskRow>, r: Runtime): (failed: seq<TaskRow>)
    ensures |failed| == |tasks|
  {
    seq(|tasks|, i requires 0 <= i < |tasks| =>
      if tasks[i].status == Running && tasks[i].key.runtime == r then tasks[i].(status := Failed) else tasks[i])
  }

  function WithState(processes: seq<Process>, p: nat, state: ProcessState): seq<Process>
    requires p < |processes|
  {
    processes[p := processes[p].(state := state)]
  }

  function TakenOnce(processes: seq<Process>, p: nat): seq<Process>
    requires p < |processes|
  {
    processes[p := processes[p].(takenBy := processes[p].takenBy + 1)]
  }

  /** The processes registered for a runtime. */
  function ServersOf(live: map<Key, Turn>, r: Runtime): set<nat> {
    set k | k in live && k.runtime == r :: live[k].server
  }

  /** The worker spawns its process from here. */
  predicate AtSpawn(p: Phase, r: Runtime) {
    if r.Codex? then p.Ready? else p.Checked?
  }

  /** A turn that has been closed does not spawn any more; only Hermes keeps that in mind. */
  predicate RefusesSpawn(p: Process) {
    p.key.runtime.Hermes? && p.state.Down?
  }

  /** A Hermes turn ends after its process has, and so does a Claude turn that succeeds. */
  predicate EndsWithProcess(r: Runtime, ok: bool) {
    r.Hermes? || (r.ClaudeCode? && ok)
  }

  /** What a close does to the process; even one that raises has told a Hermes turn that it is closed. */
  function Shut(processes: seq<Process>, p: nat, ok: bool): seq<Process>
    requires p < |processes|
  {
    if ok || (processes[p].key.runtime.Hermes? && processes[p].state.Unstarted?) then WithState(processes, p, Down)
    else processes
  }

  // ---------------------------------------------------------------------------
  // Steps

  datatype Event =
    | Submit(key: Key)
    | Cancel(task: nat)
    | Claim(worker: nat)
    | GiveUp(worker: nat)
    | Register(worker: nat)
    | Recheck(worker: nat)
    | Start(worker: nat)
    | FailToStart(worker: nat)
    | Finish(worker: nat, ok: bool)
    | Exit(server: nat)
    | WorkerTakes(worker: nat)
    | WorkerShuts(worker: nat, ok: bool)
    | WorkerDrops(worker: nat)
    | Kill(task: nat)
    | LookUp(task: nat)
    | StopRuntime(runtime: Runtime)
    | Collect(runtime: Runtime)
    | OperatorTakes(server: nat)
    | OperatorShuts(server: nat, ok: bool)
    | OperatorDrops(server: nat)

  predicate HasWorker(s: Pool, w: nat) {
    w < |s.workers|
    && (s.workers[w].Idle? || s.workers[w].task < |s.tasks|)
    && (s.workers[w].Idle? || s.workers[w].Claimed? || s.workers[w].server < |s.processes|)
  }

  predicate Enabled(s: Pool, e: Event) {
    match e
    case Submit(_) => true
    case Cancel(t) => t < |s.tasks|
    case Claim(w) => HasWorker(s, w) && s.workers[w].Idle?
    case GiveUp(w) => HasWorker(s, w) && s.workers[w].Claimed?
    case Register(w) => HasWorker(s, w) && s.workers[w].Claimed?
    case Recheck(w) =>
      HasWorker(s, w) && s.workers[w].Ready? && !s.processes[s.workers[w].server].key.runtime.Codex?
    case Start(w) =>
      HasWorker(s, w) && (s.workers[w].Ready? || s.workers[w].Checked?)
      && AtSpawn(s.workers[w], s.processes[s.workers[w].server].key.runtime)
    case FailToStart(w) => HasWorker(s, w) && (s.workers[w].Ready? || s.workers[w].Checked?)
    case Finish(w, ok) =>
      HasWorker(s, w) && s.workers[w].Started?
      && (EndsWithProcess(s.processes[s.workers[w].server].key.runtime, ok) ==> s.processes[s.workers[w].server].state.Down?)
    case Exit(p) => p < |s.processes| && s.processes[p].state.Up?
    case WorkerTakes(w) => HasWorker(s, w) && s.workers[w].Leaving? && s.workers[w].stage.Wanting?
    case WorkerShuts(w, _) => HasWorker(s, w) && s.workers[w].Leaving? && s.workers[w].stage.Owning?
    case WorkerDrops(w) => HasWorker(s, w) && s.workers[w].Leaving? && s.workers[w].stage.Dropping?
    case Kill(t) => t < |s.tasks|
    case LookUp(t) => t in s.closers.lookups && t < |s.tasks|
    case StopRuntime(_) => true
    case Collect(r) => r in s.closers.stops
    case OperatorTakes(p) => p in s.closers.wanted && p < |s.processes|
    case OperatorShuts(p, _) => p in s.closers.owned && p < |s.processes|
    case OperatorDrops(p) => p in s.closers.dropping && p < |s.processes|
  }

  function To(s: Pool, w: nat, phase: Phase): Pool
    requires w < |s.workers|
  {
    s.(workers := s.workers[w := phase])
  }

  function ClaimStep(s: Pool, w: nat): Pool
    requires w < |s.workers|
  {
    match NextClaim(s.tasks, s.live)
    case None => s
    case Some(t) => To(s, w, Claimed(t)).(tasks := WithStatus(s.tasks, t, Running), claims := s.claims + [t])
  }

  function LeaveStep(s: Pool, w: nat, t: nat, p: nat, ok: bool): Pool
    requires w < |s.workers| && t < |s.tasks|
  {
    To(s, w, Leaving(t, p, Wanting)).(tasks := Finished(s.tasks, t, ok))
  }

  /** The check before the prompt: a turn whose task has ended is abandoned. */
  function RecheckStep(s: Pool, w: nat, t: nat, p: nat): Pool
    requires w < |s.workers| && t < |s.tasks|
  {
    To(s, w, if s.tasks[t].status == Running then Checked(t, p) else Leaving(t, p, Wanting))
  }

  function StartStep(s: Pool, w: nat, t: nat, p: nat): Pool
    requires w < |s.workers| && t < |s.tasks| && p < |s.processes|
  {
    if RefusesSpawn(s.processes[p]) then LeaveStep(s, w, t, p, false)
    else To(s, w, Started(t, p)).(processes := WithState(s.processes, p, Up))
  }

  /** The process is registered before it starts, so that it can be closed while it boots. */
  function RegisterStep(s: Pool, w: nat, t: nat): Pool
    requires w < |s.workers| && t < |s.tasks|
  {
    var key, server := s.tasks[t].key, |s.processes|;
    To(s, w, Ready(t, server)).(
      processes := s.processes + [Process(key, t, Unstarted, 0)],
      live := s.live[key := Turn(server, t, false)])
  }

  function WorkerTakesStep(s: Pool, w: nat, t: nat, p: nat): Pool
    requires w < |s.workers| && p < |s.processes|
  {
    var key := s.processes[p].key;
    if Takeable(s.live, key, p) then
      To(s, w, Leaving(t, p, Owning)).(live := Take(s.live, key), processes := TakenOnce(s.processes, p))
    else To(s, w, Idle)
  }

  function WorkerShutsStep(s: Pool, w: nat, t: nat, p: nat, ok: bool): Pool
    requires w < |s.workers| && p < |s.processes|
  {
    To(s, w, if ok then Leaving(t, p, Dropping) else Idle).(processes := Shut(s.processes, p, ok))
  }

  function OperatorTakesStep(s: Pool, p: nat): Pool
    requires p < |s.processes|
  {
    var key := s.processes[p].key;
    var c := s.closers.(wanted := s.closers.wanted - multiset{p});
    if Takeable(s.live, key, p) then
      s.(live := Take(s.live, key), processes := TakenOnce(s.processes, p), closers := c.(owned := c.owned + multiset{p}))
    else s.(closers := c)
  }

  function OperatorShutsStep(s: Pool, p: nat, ok: bool): Pool
    requires p < |s.processes|
  {
    var c := s.closers.(owned := s.closers.owned - multiset{p});
    s.(processes := Shut(s.processes, p, ok), closers := if ok then c.(dropping := c.dropping + multiset{p}) else c)
  }

  function KillStep(s: Pool, t: nat): Pool
    requires t < |s.tasks|
  {
    if s.tasks[t].status != Running then s
    else s.(tasks := WithStatus(s.tasks, t, Cancelled), closers := s.closers.(lookups := s.closers.lookups + {t}))
  }

  function LookUpStep(s: Pool, t: nat): Pool
    requires t < |s.tasks|
  {
    var key := s.tasks[t].key;
    var c := s.closers.(lookups := s.closers.lookups - {t});
    if key in s.live && s.live[key].task == t then s.(closers := c.(wanted := c.wanted + multiset{s.live[key].server}))
    else s.(closers := c)
  }

  function Step(s: Pool, e: Event): Pool
    requires Enabled(s, e)
  {
    match e
    case Submit(key) => s.(tasks := s.tasks + [TaskRow(key, Queued)])
    case Cancel(t) => if s.tasks[t].status == Queued then s.(tasks := WithStatus(s.tasks, t, Cancelled)) else s
    case Claim(w) => ClaimStep(s, w)
    case GiveUp(w) => To(s, w, Idle).(tasks := Finished(s.tasks, s.workers[w].task, false))
    case Register(w) => RegisterStep(s, w, s.workers[w].task)
    case Recheck(w) => RecheckStep(s, w, s.workers[w].task, s.workers[w].server)
    case Start(w) => StartStep(s, w, s.workers[w].task, s.workers[w].server)
    case FailToStart(w) => LeaveStep(s, w, s.workers[w].task, s.workers[w].server, false)
    case Finish(w, ok) => LeaveStep(s, w, s.workers[w].task, s.workers[w].server, ok)
    case Exit(p) => s.(processes := WithState(s.processes, p, Down))
    case WorkerTakes(w) => WorkerTakesStep(s, w, s.workers[w].task, s.workers[w].server)
    case WorkerShuts(w, ok) => WorkerShutsStep(s, w, s.workers[w].task, s.workers[w].server, ok)
    case WorkerDrops(w) =>
      To(s, w, Idle).(live := Unregister(s.live, s.processes[s.workers[w].server].key, s.workers[w].server))
    case Kill(t) => KillStep(s, t)
    case LookUp(t) => LookUpStep(s, t)
    case StopRuntime(r) =>
      s.(tasks := FailedIn(s.tasks, r), closers := s.closers.(stops := s.closers.stops + multiset{r}))
    case Collect(r) =>
      s.(closers := s.closers.(stops := s.closers.stops - multiset{r},
                               wanted := s.closers.wanted + multiset(ServersOf(s.live, r))))
    case OperatorTakes(p) => OperatorTakesStep(s, p)
    case OperatorShuts(p, ok) => OperatorShutsStep(s, p, ok)
    case OperatorDrops(p) =>
      s.(live := Unregister(s.live, s.processes[p].key, p),
         closers := s.closers.(dropping := s.closers.dropping - multiset{p}))
  }
}
