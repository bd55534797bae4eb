/** The orchestrator's mutable state, and the critical sections that update it in place. */
module TaskWorkers {
  import opened Prelude
  import opened TaskStatus
  import opened TaskPool

  function Count(counts: map<Runtime, nat>, r: Runtime): nat {
    if r in counts then counts[r] else 0
  }

  function AddOne(counts: map<Runtime, nat>, r: Runtime): map<Runtime, nat> {
    counts[r := Count(counts, r) + 1]
  }

  /** The threads on which a task is running. */
  function RunningThreads(tasks: seq<TaskRow>): set<Key> {
    set t | 0 <= t < |tasks| && tasks[t].status == Running :: tasks[t].key
  }

  lemma RunningGrows(tasks: seq<TaskRow>, i: nat, r: Runtime)
    requires i < |tasks|
    ensures |RunningIn(tasks[..i + 1], r)|
         == |RunningIn(tasks[..i], r)| + if tasks[i].status == Running && tasks[i].key.runtime == r then 1 else 0
  {
    var before, after := RunningIn(tasks[..i], r), RunningIn(tasks[..i + 1], r);
    assert forall t :: t in before ==> t < i;
    if tasks[i].status == Running && tasks[i].key.runtime == r {
      assert after == before + {i};
    } else {
      assert after == before;
    }
  }

  lemma AllRunningGrows(tasks: seq<TaskRow>, i: nat)
    requires i < |tasks|
    ensures |AllRunning(tasks[..i + 1])| == |AllRunning(tasks[..i])| + if tasks[i].status == Running then 1 else 0
    ensures RunningThreads(tasks[..i + 1]) == RunningThreads(tasks[..i]) + if tasks[i].status == Running then {tasks[i].key} else {}
  {
    var before, after := AllRunning(tasks[..i]), AllRunning(tasks[..i + 1]);
    assert forall t :: t in before ==> t < i;
    if tasks[i].status == Running {
      assert after == before + {i};
    } else {
      assert after == before;
    }
    ThreadsGrow(tasks, i);
  }

  lemma ThreadsGrow(tasks: seq<TaskRow>, i: nat)
    requires i < |tasks|
    ensures RunningThreads(tasks[..i + 1]) == RunningThreads(tasks[..i]) + if tasks[i].status == Running then {tasks[i].key} else {}
  {
    forall k | k in RunningThreads(tasks[..i])
      ensures k in RunningThreads(tasks[..i + 1])
    {
      var t :| 0 <= t < i && tasks[t].status == Running && tasks[t].key == k;
      assert tasks[..i + 1][t] == tasks[t];
    }
    if tasks[i].status == Running {
      assert tasks[..i + 1][i] == tasks[i];
    }
  }

  /** How many tasks are running, in all and by runtime, and on which threads. */
  method CountRunning(tasks: seq<TaskRow>) returns (total: nat, counts: map<Runtime, nat>, threads: set<Key>)
    ensures total == |AllRunning(tasks)| && threads == RunningThreads(tasks)
    ensures forall r :: Count(counts, r) == |RunningIn(tasks, r)|
  {
    total, counts, threads := 0, map[], {};
    assert forall r :: RunningIn(tasks[..0], r) == {};
    assert AllRunning(tasks[..0]) == {} && RunningThreads(tasks[..0]) == {};
    for i := 0 to |tasks|
      invariant total == |AllRunning(tasks[..i])| && threads == RunningThreads(tasks[..i])
      invariant forall r :: Count(counts, r) == |RunningIn(tasks[..i], r)|
    {
      AllRunningGrows(tasks, i);
      forall r ensures |RunningIn(tasks[..i + 1], r)|
        == |RunningIn(tasks[..i], r)| + if tasks[i].status == Running && tasks[i].key.runtime == r then 1 else 0
      {
        RunningGrows(tasks, i, r);
      }
      if tasks[i].status == Running {
        total, threads := total + 1, threads + {tasks[i].key};
        counts := AddOne(counts, tasks[i].key.runtime);
      }
    }
    assert tasks[..|tasks|] == tasks;
  }

  /** The live entries of a runtime that are not among the rest. */
  function Seen(live: map<Key, Turn>, rest: set<Key>, r: Runtime): set<Key> {
    LiveIn(live, r) - rest
  }

  lemma SeenGrows(live: map<Key, Turn>, rest: set<Key>, k: Key, r: Runtime)
    requires k in rest && rest <= live.Keys
    ensures |Seen(live, rest - {k}, r)| == |Seen(live, rest, r)| + if r == k.runtime then 1 else 0
  {
    if r == k.runtime {
      assert Seen(live, rest - {k}, r) == Seen(live, rest, r) + {k};
    } else {
      assert Seen(live, rest - {k}, r) == Seen(live, rest, r);
    }
  }

  lemma SeenBounds(live: map<Key, Turn>, r: Runtime)
    ensures Seen(live, live.Keys, r) == {} && Seen(live, {}, r) == LiveIn(live, r)
  {
  }

  /** How many live entries each runtime has. */
  method CountLive(live: map<Key, Turn>) returns (counts: map<Runtime, nat>)
    ensures forall r :: Count(counts, r) == |LiveIn(live, r)|
  {
    counts := map[];
    var rest := live.Keys;
    forall r ensures |Seen(live, rest, r)| == 0 { SeenBounds(live, r); }
    while rest != {}
      invariant rest <= live.Keys
      invariant forall r :: Count(counts, r) == |Seen(live, rest, r)|
      decreases |rest|
    {
      var k :| k in rest;
      forall r ensures |Seen(live, rest - {k}, r)| == |Seen(live, rest, r)| + if r == k.runtime then 1 else 0 {
        SeenGrows(live, rest, k, r);
      }
      counts := AddOne(counts, k.runtime);
      rest := rest - {k};
    }
    forall r ensures Count(counts, r) == |LiveIn(live, r)| { SeenBounds(live, r); }
  }

  class Orchestrator {
    var tasks: seq<TaskRow>
    var workers: seq<Phase>
    var live: map<Key, Turn>
    var processes: seq<Process>
    var closers: Closers
    var claims: seq<nat>

    constructor ()
      ensures State() == EMPTY_POOL
    {
      tasks, live, processes, closers, claims := [], map[], [], NO_CLOSERS, [];
      workers := [Idle, Idle, Idle, Idle, Idle, Idle, Idle, Idle, Idle];
    }

    function State(): Pool
      reads this
    {
      Pool(tasks, workers, live, processes, closers, claims)
    }

    /** Scans the queue for the first task that may run. */
    method FindClaimable() returns (t: Option<nat>)
      ensures t == NextClaim(tasks, live)
    {
      var total, running, threads := CountRunning(tasks);
      if total >= WORKER_COUNT || |live| >= WORKER_COUNT {
        return None;
      }
      var registered := CountLive(live);
      var unavailable := threads + live.Keys;
      var i := 0;
      while i < |tasks|
        invariant i <= |tasks|
        invariant FirstClaimable(tasks, live, 0) == FirstClaimable(tasks, live, i)
      {
        var task := tasks[i];
        var fits := task.status == Queued
          && Count(running, task.key.runtime) < WORKERS_PER_RUNTIME
          && Count(registered, task.key.runtime) < WORKERS_PER_RUNTIME
          && task.key !in unavailable;
        ClaimableIffFits(i);
        if fits {
          return Some(i);
        }
        i := i + 1;
      }
      return None;
    }

    lemma ClaimableIffFits(i: nat)
      requires i < |tasks|
      ensures Claimable(tasks, live, i) <==>
        tasks[i].status == Queued
        && |RunningIn(tasks, tasks[i].key.runtime)| < WORKERS_PER_RUNTIME
        && |LiveIn(live, tasks[i].key.runtime)| < WORKERS_PER_RUNTIME
        && tasks[i].key !in RunningThreads(tasks) + live.Keys
    {
    }

    method Claim(w: nat) returns (t: Option<nat>)
      requires Enabled(State(), Event.Claim(w))
      modifies this
      ensures State() == Step(old(State()), Event.Claim(w)) && t == NextClaim(old(tasks), old(live))
    {
      t := FindClaimable();
      if t.Some? {
        tasks := tasks[t.value := tasks[t.value].(status := Running)];
        workers := workers[w := Claimed(t.value)];
        claims := claims + [t.value];
      }
    }

    /** Registers a process for the claimed turn, replacing whatever entry the thread has. */
    method Register(w: nat) returns (server: nat)
      requires Enabled(State(), Event.Register(w))
      modifies this
      ensures State() == Step(old(State()), Event.Register(w)) && server == old(|processes|)
    {
      var t := workers[w].task;
      server := |processes|;
      processes := processes + [Process(tasks[t].key, t, Unstarted, 0)];
      live := live[tasks[t].key := Turn(server, t, false)];
      workers := workers[w := Ready(t, server)];
    }

    /** The check before the prompt of a Claude or Hermes turn: it is abandoned unless its task still runs. */
    method Recheck(w: nat) returns (goesOn: bool)
      requires Enabled(State(), Event.Recheck(w))
      modifies this`workers
      ensures State() == Step(old(State()), Event.Recheck(w))
      ensures goesOn == (tasks[old(workers)[w].task].status == Running)
    {
      var t, server := workers[w].task, workers[w].server;
      goesOn := tasks[t].status == Running;
      workers := workers[w := if goesOn then Checked(t, server) else Leaving(t, server, Wanting)];
    }

    /** Spawns the process; a Hermes turn that was closed refuses, and fails. */
    method Start(w: nat) returns (spawned: bool)
      requires Enabled(State(), Event.Start(w))
      modifies this
      ensures State() == Step(old(State()), Event.Start(w))
      ensures spawned == !RefusesSpawn(old(processes)[old(workers)[w].server])
    {
      var t, server := workers[w].task, workers[w].server;
      spawned := !(processes[server].key.runtime.Hermes? && processes[server].state.Down?);
      if spawned {
        processes := processes[server := processes[server].(state := Up)];
        workers := workers[w := Started(t, server)];
      } else {
        FinishTask(t, false);
        workers := workers[w := Leaving(t, server, Wanting)];
      }
    }

    /** The finish of a turn; a task that was killed meanwhile stays as it is. */
    method FinishTask(t: nat, ok: bool)
      requires t < |tasks|
      modifies this`tasks
      ensures tasks == Finished(old(tasks), t, ok)
    {
      if tasks[t].status != Running {
        return;
      }
      tasks := tasks[t := tasks[t].(status := if ok then Completed else Failed)];
    }

    method Finish(w: nat, ok: bool)
      requires Enabled(State(), Event.Finish(w, ok))
      modifies this
      ensures State() == Step(old(State()), Event.Finish(w, ok))
    {
      FinishTask(workers[w].task, ok);
      workers := workers[w := Leaving(workers[w].task, workers[w].server, Wanting)];
    }

    /** Takes ownership of closing a process, unless it is no longer registered or somebody else has it. */
    method TakeTurn(server: nat) returns (owned: bool)
      requires server < |processes|
      modifies this`live, this`processes
      ensures owned == Takeable(old(live), old(processes)[server].key, server)
      ensures live == if owned then Take(old(live), old(processes)[server].key) else old(live)
      ensures processes == if owned then TakenOnce(old(processes), server) else old(processes)
    {
      var key := processes[server].key;
      if key !in live || live[key].server != server || live[key].closing {
        return false;
      }
      live := live[key := live[key].(closing := true)];
      processes := processes[server := processes[server].(takenBy := processes[server].takenBy + 1)];
      return true;
    }

    /** Removes the entry of a closed process, if it is still the thread's entry. */
    method DropTurn(server: nat)
      requires server < |processes|
      modifies this`live
      ensures live == Unregister(old(live), processes[server].key, server)
    {
      var key := processes[server].key;
      if key in live && live[key].server == server {
        live := live - {key};
      }
    }

    method WorkerTakes(w: nat)
      requires Enabled(State(), Event.WorkerTakes(w))
      modifies this
      ensures State() == Step(old(State()), Event.WorkerTakes(w))
    {
      var t, server := workers[w].task, workers[w].server;
      var owned := TakeTurn(server);
      workers := workers[w := if owned then Leaving(t, server, Owning) else Idle];
    }

    method WorkerDrops(w: nat)
      requires Enabled(State(), Event.WorkerDrops(w))
      modifies this
      ensures State() == Step(old(State()), Event.WorkerDrops(w))
    {
      DropTurn(workers[w].server);
      workers := workers[w := Idle];
    }

    method OperatorTakes(server: nat)
      requires Enabled(State(), Event.OperatorTakes(server))
      modifies this
      ensures State() == Step(old(State()), Event.OperatorTakes(server))
    {
      var owned := TakeTurn(server);
      closers := closers.(wanted := closers.wanted - multiset{server});
      if owned {
        closers := closers.(owned := closers.owned + multiset{server});
      }
    }

    method OperatorDrops(server: nat)
      requires Enabled(State(), Event.OperatorDrops(server))
      modifies this
      ensures State() == Step(old(State()), Event.OperatorDrops(server))
    {
      DropTurn(server);
      closers := closers.(dropping := closers.dropping - multiset{server});
    }

    method Kill(t: nat) returns (accepted: bool)
      requires Enabled(State(), Event.Kill(t))
      modifies this
      ensures State() == Step(old(State()), Event.Kill(t)) && accepted == (old(tasks)[t].status == Running)
    {
      if tasks[t].status != Running {
        return false;
      }
      tasks := tasks[t := tasks[t].(status := Cancelled)];
      closers := closers.(lookups := closers.lookups + {t});
      return true;
    }

    /** Fails every running task of a runtime. */
    method FailRunning(r: Runtime)
      modifies this`tasks
      ensures tasks == FailedIn(old(tasks), r)
    {
      ghost var was := tasks;
      for i := 0 to |tasks|
        invariant |tasks| == |was|
        invariant tasks[..i] == FailedIn(was, r)[..i] && tasks[i..] == was[i..]
      {
        assert tasks[i] == was[i];
        if tasks[i].status == Running && tasks[i].key.runtime == r {
          tasks := tasks[i := tasks[i].(status := Failed)];
        }
      }
    }

    method StopRuntime(r: Runtime)
      modifies this
      ensures State() == Step(old(State()), Event.StopRuntime(r))
    {
      FailRunning(r);
      closers := closers.(stops := closers.stops + multiset{r});
    }
  }
}
