/**
 * The converse of one process per thread: an operator who ends a turn between its
 * claim and its registration, or closes one that will spawn its process all the
 * same, has always opened the way to two processes of that thread, and but for
 * Hermes to one that nobody will ever close.
 */
module TaskPoolConverse {
  import opened Prelude
  import opened TaskStatus
  import opened TaskPool
  import opened TaskPoolInvariant
  import opened TaskPoolSafety
  import opened TaskPoolHistory
  import opened TaskPoolLost
  import opened TaskPoolDrain

  // ---------------------------------------------------------------------------
  // Two processes of one thread

  /** Worker `w` is on its way with a turn of `key` that is over, while the thread looks free. */
  ghost predicate Stranded(s: Pool, w: nat, key: Key) {
    && w < |s.workers| && (s.workers[w].Claimed? || (!key.runtime.Hermes? && AtSpawn(s.workers[w], key.runtime)))
    && s.workers[w].task < |s.tasks| && s.tasks[s.workers[w].task].key == key
    && s.tasks[s.workers[w].task].status != Running && s.tasks[s.workers[w].task].status != Queued
    && key !in s.live
  }

  function FencedIn(s: Pool, r: Runtime): set<Key> {
    set k | k in s.live && Fenced(s, k) && k.runtime == r
  }

  function AllFenced(s: Pool): set<Key> {
    set k | k in s.live && Fenced(s, k)
  }

  /** The runtime can still claim tasks: closes that raised have not used up its slots, or those of the host. */
  predicate CanStillClaim(s: Pool, r: Runtime) {
    |FencedIn(s, r)| < WORKERS_PER_RUNTIME && |AllFenced(s)| < WORKER_COUNT
  }

  lemma DrainsKeepsStranded(s: Pool, w: nat, s': Pool, key: Key)
    requires Stranded(s, w, key) && Drains(s, w, s')
    ensures Stranded(s', w, key)
  {
  }

  lemma FencesShrink(s: Pool, s': Pool, r: Runtime)
    requires s'.live.Keys <= s.live.Keys && forall k :: Fenced(s', k) ==> Fenced(s, k)
    requires CanStillClaim(s, r)
    ensures CanStillClaim(s', r)
  {
    forall k | k in AllFenced(s') ensures k in AllFenced(s) {}
    SmallerSet(FencedIn(s', r), FencedIn(s, r));
    SmallerSet(AllFenced(s'), AllFenced(s));
  }

  /** At rest every entry is a fence. */
  lemma QuietEntriesAreFenced(s: Pool, w: nat, key: Key, k: Key)
    requires Inv(s) && AttendedOk(s) && Quiet(s, w) && Stranded(s, w, key) && k in s.live
    ensures Fenced(s, k)
  {
    var p := s.live[k].server;
    assert EntryOk(k, s.live[k], s.processes) && ServerOk(s.processes, s.workers[w]);
    assert ProcessOk(s.tasks, s.processes[p]);
  }

  lemma QuietIsIdle(s: Pool, w: nat, key: Key, t: nat)
    requires Inv(s) && Quiet(s, w) && Stranded(s, w, key) && t < |s.tasks|
    ensures s.tasks[t].status != Running && s.tasks[t].status != Queued
  {
    if s.tasks[t].status == Running {
      assert false;
    }
  }

  /** Nothing runs or waits, and only fences are registered. */
  ghost predicate AtRest(tasks: seq<TaskRow>, live: map<Key, Turn>, r: Runtime) {
    && (forall t :: 0 <= t < |tasks| ==> tasks[t].status != Running && tasks[t].status != Queued)
    && |LiveIn(live, r)| < WORKERS_PER_RUNTIME && |live| < WORKER_COUNT
  }

  lemma QuietIsAtRest(s: Pool, w: nat, key: Key)
    requires Inv(s) && AttendedOk(s) && Quiet(s, w) && Stranded(s, w, key) && CanStillClaim(s, key.runtime)
    ensures AtRest(s.tasks, s.live, key.runtime)
  {
    forall k | k in s.live ensures Fenced(s, k) { QuietEntriesAreFenced(s, w, key, k); }
    forall t | 0 <= t < |s.tasks| ensures s.tasks[t].status != Running && s.tasks[t].status != Queued {
      QuietIsIdle(s, w, key, t);
    }
    assert LiveIn(s.live, key.runtime) == FencedIn(s, key.runtime) && s.live.Keys == AllFenced(s);
    assert |s.live| == |s.live.Keys|;
  }

  /** At rest, a new task of a free thread is the next to be claimed. */
  lemma NewTaskIsNext(tasks: seq<TaskRow>, live: map<Key, Turn>, key: Key)
    requires AtRest(tasks, live, key.runtime) && key !in live
    ensures NextClaim(tasks + [TaskRow(key, Queued)], live) == Some(|tasks|)
  {
    var all := tasks + [TaskRow(key, Queued)];
    assert AllRunning(all) == {} && RunningIn(all, key.runtime) == {};
    assert Claimable(all, live, |tasks|);
  }

  /** Workers other than `w` and `v` are idle, and operators have nothing in hand. */
  ghost predicate OnlyTwo(s: Pool, w: nat, v: nat) {
    && w < |s.workers| && v < |s.workers| && v != w
    && (forall u :: 0 <= u < |s.workers| && u != w && u != v ==> s.workers[u].Idle?)
    && s.closers.owned == multiset{} && s.closers.dropping == multiset{}
  }

  lemma NewTurnClaimed(s: Pool, v: nat, key: Key) returns (s': Pool)
    requires AtRest(s.tasks, s.live, key.runtime) && key !in s.live && v < |s.workers| && s.workers[v].Idle?
    ensures CanReach(s, s')
    ensures s' == s.(tasks := s.tasks + [TaskRow(key, Running)], workers := s.workers[v := Claimed(|s.tasks|)],
                     claims := s.claims + [|s.tasks|])
  {
    var u := |s.tasks|;
    var a := s.(tasks := s.tasks + [TaskRow(key, Queued)]);
    ReachStep(s, Submit(key));
    NewTaskIsNext(s.tasks, s.live, key);
    s' := s.(tasks := s.tasks + [TaskRow(key, Running)], workers := s.workers[v := Claimed(u)], claims := s.claims + [u]);
    assert WithStatus(a.tasks, u, Running) == s'.tasks;
    assert Step(a, Claim(v)) == s';
    ReachStep(a, Claim(v));
    ReachOn(s, a, s');
  }

  function WithTurn(s: Pool, v: nat, t: nat): Pool
    requires v < |s.workers| && t < |s.tasks|
  {
    var p, key := |s.processes|, s.tasks[t].key;
    s.(workers := s.workers[v := Ready(t, p)], processes := s.processes + [Process(key, t, Unstarted, 0)],
       live := s.live[key := Turn(p, t, false)])
  }

  lemma RegistersItsTurn(s: Pool, v: nat, t: nat) returns (s': Pool)
    requires v < |s.workers| && s.workers[v] == Claimed(t) && t < |s.tasks|
    ensures CanReach(s, s') && s' == WithTurn(s, v, t)
  {
    s' := WithTurn(s, v, t);
    assert Step(s, Register(v)) == s';
    ReachStep(s, Register(v));
  }

  /** A registered worker that may spawn its process gets to the spawn. */
  lemma GetsToTheSpawn(s: Pool, v: nat, t: nat, p: nat) returns (s': Pool)
    requires v < |s.workers| && s.workers[v] == Ready(t, p) && t < |s.tasks| && p < |s.processes|
    requires s.processes[p].key.runtime.Codex? || s.tasks[t].status == Running
    ensures CanReach(s, s')
    ensures s' == s.(workers := s.workers[v := if s.processes[p].key.runtime.Codex? then Ready(t, p) else Checked(t, p)])
  {
    if s.processes[p].key.runtime.Codex? {
      ReachSelf(s);
      s' := s;
    } else {
      s' := s.(workers := s.workers[v := Checked(t, p)]);
      assert Step(s, Recheck(v)) == s';
      ReachStep(s, Recheck(v));
    }
  }

  lemma Spawns(s: Pool, v: nat, t: nat, p: nat) returns (s': Pool)
    requires v < |s.workers| && t < |s.tasks| && p < |s.processes| && !RefusesSpawn(s.processes[p])
    requires s.workers[v] == if s.processes[p].key.runtime.Codex? then Ready(t, p) else Checked(t, p)
    ensures CanReach(s, s')
    ensures s' == s.(workers := s.workers[v := Started(t, p)], processes := WithState(s.processes, p, Up))
  {
    s' := s.(workers := s.workers[v := Started(t, p)], processes := WithState(s.processes, p, Up));
    assert Step(s, Start(v)) == s';
    ReachStep(s, Start(v));
  }

  /** A claimed worker registers its turn and spawns its process. */
  lemma RunsItsProcess(s: Pool, v: nat, t: nat) returns (s': Pool)
    requires v < |s.workers| && s.workers[v] == Claimed(t) && t < |s.tasks|
    requires s.tasks[t].key.runtime.Codex? || s.tasks[t].status == Running
    ensures CanReach(s, s')
    ensures var p, key := |s.processes|, s.tasks[t].key;
      s' == s.(workers := s.workers[v := Started(t, p)], processes := s.processes + [Process(key, t, Up, 0)],
               live := s.live[key := Turn(p, t, false)])
  {
    var p, key := |s.processes|, s.tasks[t].key;
    var a := RegistersItsTurn(s, v, t);
    var b := GetsToTheSpawn(a, v, t, p);
    ReachOn(s, a, b);
    s' := Spawns(b, v, t, p);
    ReachOn(s, b, s');
    assert s'.workers == s.workers[v := Started(t, p)];
    assert s'.processes == s.processes + [Process(key, t, Up, 0)];
  }

  /** A worker whose process is not the registered one fails, and leaves it up. */
  lemma LeavesItUp(s: Pool, v: nat, w: nat, t: nat, p: nat) returns (s': Pool)
    requires OnlyTwo(s, w, v) && s.workers[v] == Started(t, p) && t < |s.tasks| && p < |s.processes|
    requires s.processes[p].state.Up? && !Registered(s.live, s.processes[p].key, p) && !s.processes[p].key.runtime.Hermes?
    requires HasServer(s.workers[w]) ==> s.workers[w].server != p
    ensures CanReach(s, s') && Lost(s', p) && s'.processes == s.processes
  {
    var a := s.(workers := s.workers[v := Leaving(t, p, Wanting)], tasks := Finished(s.tasks, t, false));
    assert Step(s, Finish(v, false)) == a;
    ReachStep(s, Finish(v, false));
    s' := a.(workers := s.workers[v := Idle]);
    assert a.workers[v := Idle] == s'.workers;
    assert Step(a, WorkerTakes(v)) == s';
    ReachStep(a, WorkerTakes(v));
    ReachOn(s, a, s');
  }

  /** Two processes of the thread are up, and one of them is lost unless its worker holds it. */
  ghost predicate Doubled(s: Pool, key: Key) {
    exists p: nat, q: nat :: p != q && p < |s.processes| && q < |s.processes|
      && s.processes[p].key == key && s.processes[q].key == key
      && s.processes[p].state.Up? && s.processes[q].state.Up? && (key.runtime.Hermes? || Lost(s, p))
  }

  /** A Codex turn that was killed when it was claimed spawns over the next one. */
  lemma ClaimedDoubles(s: Pool, w: nat, v: nat, key: Key) returns (s': Pool)
    requires AtRest(s.tasks, s.live, key.runtime) && Quiet(s, w) && Stranded(s, w, key)
    requires v < |s.workers| && v != w && s.workers[w].Claimed? && key.runtime.Codex?
    ensures CanReach(s, s') && Doubled(s', key)
  {
    var t, q, p := s.workers[w].task, |s.processes|, |s.processes| + 1;
    var a := NewTurnClaimed(s, v, key);
    var b := RunsItsProcess(a, v, |s.tasks|);
    ReachOn(s, a, b);
    var c := RunsItsProcess(b, w, t);
    ReachOn(s, b, c);
    s' := LeavesItUp(c, v, w, |s.tasks|, q);
    ReachOn(s, c, s');
    assert s'.processes[p].state.Up? && Lost(s', q);
  }

  /** A turn at its spawn spawns beside the next one. */
  lemma SpawnsBeside(s: Pool, w: nat, v: nat, t: nat, p: nat, key: Key) returns (s': Pool)
    requires AtRest(s.tasks, s.live, key.runtime) && Quiet(s, w) && Stranded(s, w, key)
    requires v < |s.workers| && v != w && p < |s.processes| && s.processes[p].key == key && !key.runtime.Hermes?
    requires s.workers[w] == if key.runtime.Codex? then Ready(t, p) else Checked(t, p)
    ensures CanReach(s, s') && OnlyTwo(s', w, v) && |s'.processes| == |s.processes| + 1 && |s'.tasks| == |s.tasks| + 1
    ensures s'.workers[w] == Started(t, p) && s'.workers[v] == Started(|s.tasks|, |s.processes|)
    ensures s'.processes[p].key == key && s'.processes[p].state.Up?
    ensures s'.processes[|s.processes|] == Process(key, |s.tasks|, Up, 0) && Registered(s'.live, key, |s.processes|)
  {
    var a := NewTurnClaimed(s, v, key);
    var b := RunsItsProcess(a, v, |s.tasks|);
    ReachOn(s, a, b);
    s' := Spawns(b, w, t, p);
    ReachOn(s, b, s');
  }

  lemma SpawnDoubles(s: Pool, w: nat, v: nat, key: Key) returns (s': Pool)
    requires ProcessesOk(s.tasks, s.workers, s.processes)
    requires AtRest(s.tasks, s.live, key.runtime) && Quiet(s, w) && Stranded(s, w, key)
    requires v < |s.workers| && v != w && !s.workers[w].Claimed?
    ensures CanReach(s, s') && Doubled(s', key)
  {
    var t, p, q := s.workers[w].task, s.workers[w].server, |s.processes|;
    assert ServerOk(s.processes, s.workers[w]) && ProcessOk(s.tasks, s.processes[p]);
    var a := SpawnsBeside(s, w, v, t, p, key);
    s' := LeavesItUp(a, w, v, t, p);
    ReachOn(s, a, s');
    assert s'.processes[q].state.Up? && Lost(s', p);
  }

  /** A turn whose task has ended before the check takes the thread's entry with it: it registers, leaves and drops. */
  lemma AbandonsTheEntry(s: Pool, w: nat, t: nat) returns (s': Pool)
    requires w < |s.workers| && s.workers[w] == Claimed(t) && t < |s.tasks| && s.tasks[t].status != Running
    requires !s.tasks[t].key.runtime.Codex?
    ensures CanReach(s, s')
    ensures var key := s.tasks[t].key;
      s' == s.(workers := s.workers[w := Idle], processes := s.processes + [Process(key, t, Down, 1)], live := s.live - {key})
  {
    var p, key := |s.processes|, s.tasks[t].key;
    var a := RegistersItsTurn(s, w, t);
    var b := a.(workers := s.workers[w := Leaving(t, p, Wanting)]);
    assert Step(a, Recheck(w)).workers == b.workers;
    ReachStep(a, Recheck(w));
    ReachOn(s, a, b);
    s' := WorkerClosesItsTurn(b, w, t, p);
    ReachOn(s, b, s');
    assert s'.workers == s.workers[w := Idle] && s'.live == s.live - {key};
    assert s'.processes == s.processes + [Process(key, t, Down, 1)];
  }

  /** A worker on its way out takes, shuts and drops its turn. */
  lemma WorkerClosesItsTurn(s: Pool, w: nat, t: nat, p: nat) returns (s': Pool)
    requires w < |s.workers| && s.workers[w] == Leaving(t, p, Wanting) && t < |s.tasks| && p < |s.processes|
    requires Takeable(s.live, s.processes[p].key, p)
    ensures CanReach(s, s')
    ensures s' == s.(workers := s.workers[w := Idle], live := s.live - {s.processes[p].key},
                     processes := WithState(TakenOnce(s.processes, p), p, Down))
  {
    var key := s.processes[p].key;
    var a := s.(workers := s.workers[w := Leaving(t, p, Owning)], live := Take(s.live, key), processes := TakenOnce(s.processes, p));
    assert Step(s, WorkerTakes(w)) == a;
    ReachStep(s, WorkerTakes(w));
    var b := a.(workers := s.workers[w := Leaving(t, p, Dropping)], processes := WithState(a.processes, p, Down));
    assert a.workers[w := Leaving(t, p, Dropping)] == b.workers;
    assert Step(a, WorkerShuts(w, true)) == b;
    ReachStep(a, WorkerShuts(w, true));
    ReachOn(s, a, b);
    s' := b.(workers := s.workers[w := Idle], live := s.live - {key});
    assert b.workers[w := Idle] == s'.workers && b.live - {key} == s'.live;
    assert Step(b, WorkerDrops(w)) == s';
    ReachStep(b, WorkerDrops(w));
    ReachOn(s, b, s');
  }

  lemma KillsStarted(s: Pool, v: nat, t: nat, p: nat) returns (s': Pool)
    requires v < |s.workers| && t < |s.tasks| && s.tasks[t].status == Running && !IsClaimed(s.workers, t)
    ensures CanReach(s, s')
    ensures s' == s.(tasks := WithStatus(s.tasks, t, Cancelled), closers := s.closers.(lookups := s.closers.lookups + {t}))
  {
    s' := s.(tasks := WithStatus(s.tasks, t, Cancelled), closers := s.closers.(lookups := s.closers.lookups + {t}));
    assert Step(s, Kill(t)) == s';
    ReachStep(s, Kill(t));
  }

  /**
   * Another turn that was killed when it was claimed does not spawn, but it takes
   * the entry of the next turn with it. The kill of that one then finds nothing to
   * close, and a third turn spawns beside it.
   */
  lemma ThirdTurnSpawns(s: Pool, w: nat, v: nat, key: Key) returns (s': Pool)
    requires AtRest(s.tasks, s.live, key.runtime) && Quiet(s, w) && Stranded(s, w, key)
    requires v < |s.workers| && v != w && s.workers[w].Claimed? && !key.runtime.Codex?
    ensures CanReach(s, s') && OnlyTwo(s', w, v)
    ensures var u, q, r := |s.tasks|, |s.processes|, |s.processes| + 2;
      && |s'.processes| == r + 1 && |s'.tasks| == u + 2
      && s'.workers[v] == Started(u, q) && s'.workers[w] == Started(u + 1, r)
      && s'.processes[q] == Process(key, u, Up, 0) && s'.processes[r] == Process(key, u + 1, Up, 0)
      && Registered(s'.live, key, r)
  {
    var a := SecondTurnForgotten(s, w, v, key);
    var b := NewTurnClaimed(a, w, key);
    ReachOn(s, a, b);
    s' := RunsItsProcess(b, w, |s.tasks| + 1);
    ReachOn(s, b, s');
  }

  /** The entry of the second turn is gone, its task is killed, and its process is up. */
  lemma SecondTurnForgotten(s: Pool, w: nat, v: nat, key: Key) returns (s': Pool)
    requires AtRest(s.tasks, s.live, key.runtime) && Quiet(s, w) && Stranded(s, w, key)
    requires v < |s.workers| && v != w && s.workers[w].Claimed? && !key.runtime.Codex?
    ensures CanReach(s, s') && OnlyTwo(s', w, v) && s'.workers[w].Idle? && s'.live == s.live
    ensures AtRest(s'.tasks, s'.live, key.runtime)
    ensures var u, q := |s.tasks|, |s.processes|;
      && |s'.processes| == q + 2 && |s'.tasks| == u + 1
      && s'.workers[v] == Started(u, q) && s'.processes[q] == Process(key, u, Up, 0)
  {
    var t, u := s.workers[w].task, |s.tasks|;
    var a := NewTurnClaimed(s, v, key);
    var b := RunsItsProcess(a, v, u);
    ReachOn(s, a, b);
    var c := AbandonsTheEntry(b, w, t);
    ReachOn(s, b, c);
    assert !IsClaimed(c.workers, u);
    s' := KillsStarted(c, v, u, |s.processes|);
    ReachOn(s, c, s');
    assert s'.live == s.live;
  }

  lemma ThirdTurnDoubles(s: Pool, w: nat, v: nat, key: Key) returns (s': Pool)
    requires AtRest(s.tasks, s.live, key.runtime) && Quiet(s, w) && Stranded(s, w, key)
    requires v < |s.workers| && v != w && s.workers[w].Claimed? && !key.runtime.Codex?
    ensures CanReach(s, s') && Doubled(s', key)
  {
    var u, q, r := |s.tasks|, |s.processes|, |s.processes| + 2;
    var a := ThirdTurnSpawns(s, w, v, key);
    if key.runtime.Hermes? {
      s' := a;
      assert s'.processes[q].state.Up? && s'.processes[r].state.Up?;
    } else {
      s' := LeavesItUp(a, v, w, u, q);
      ReachOn(s, a, s');
      assert s'.processes[r].state.Up? && Lost(s', q);
    }
  }

  lemma StrandedDoubles(s: Pool, w: nat, key: Key) returns (s': Pool)
    requires Inv(s) && AttendedOk(s) && Stranded(s, w, key) && CanStillClaim(s, key.runtime)
    ensures CanReach(s, s') && Doubled(s', key)
  {
    var quiet := Drained(s, w);
    ReachKeeps(s, quiet);
    DrainsKeepsStranded(s, w, quiet, key);
    FencesShrink(s, quiet, key.runtime);
    QuietIsAtRest(quiet, w, key);
    s' := QuietDoubles(quiet, w, key);
    ReachOn(s, quiet, s');
  }

  lemma QuietDoubles(s: Pool, w: nat, key: Key) returns (s': Pool)
    requires |s.workers| == WORKER_COUNT && ProcessesOk(s.tasks, s.workers, s.processes)
    requires AtRest(s.tasks, s.live, key.runtime) && Quiet(s, w) && Stranded(s, w, key)
    ensures CanReach(s, s') && Doubled(s', key)
  {
    var v := if w == 0 then 1 else 0;
    if !s.workers[w].Claimed? {
      s' := SpawnDoubles(s, w, v, key);
    } else if key.runtime.Codex? {
      s' := ClaimedDoubles(s, w, v, key);
    } else {
      s' := ThirdTurnDoubles(s, w, v, key);
    }
  }

  // ---------------------------------------------------------------------------
  // What an early operator does

  /** The step ends the turn of worker `w` at its claim, or closes it while the worker will spawn it all the same. */
  predicate ReachesBoot(s: Pool, e: Event, w: nat) {
    && w < |s.workers| && !s.workers[w].Idle? && s.workers[w].task < |s.tasks|
    && match e
       case Kill(t) => s.workers[w] == Claimed(t)
       case StopRuntime(r) => s.workers[w].Claimed? && s.tasks[s.workers[w].task].key.runtime == r
       case OperatorTakes(p) => IsBooting(s, w, p)
       case _ => false
  }

  lemma EarlyReaches(s: Pool, e: Event)
    requires Inv(s) && Enabled(s, e)
    ensures !Timely(s, e) <==> exists w: nat :: ReachesBoot(s, e, w)
  {
    assert forall w :: 0 <= w < |s.workers| ==> PhaseOk(s.tasks, s.workers[w]);
    if EarlyKill(s, e) {
      if e.Kill? {
        var w :| 0 <= w < |s.workers| && s.workers[w] == Claimed(e.task);
        assert ReachesBoot(s, e, w);
      } else {
        var t :| 0 <= t < |s.tasks| && IsClaimed(s.workers, t) && s.tasks[t].key.runtime == e.runtime;
        var w :| 0 <= w < |s.workers| && s.workers[w] == Claimed(t);
        assert ReachesBoot(s, e, w);
      }
    } else if EarlyClose(s, e) {
      var w :| 0 <= w < |s.workers| && IsBooting(s, w, e.server);
      assert ReachesBoot(s, e, w);
    }
    if w: nat :| ReachesBoot(s, e, w) {
      if !e.OperatorTakes? {
        assert IsClaimed(s.workers, s.workers[w].task);
      }
    }
  }

  function KeyOf(s: Pool, w: nat): Key
    requires w < |s.workers| && !s.workers[w].Idle? && s.workers[w].task < |s.tasks|
  {
    s.tasks[s.workers[w].task].key
  }

  lemma EarlyKillStrands(s: Pool, e: Event, w: nat, s': Pool)
    requires SafeInv(s) && Enabled(s, e) && s' == Step(s, e) && ReachesBoot(s, e, w) && s.workers[w].Claimed?
    ensures Stranded(s', w, KeyOf(s, w))
    ensures s'.live == s.live && forall k :: Fenced(s', k) ==> Fenced(s, k)
  {
  }

  lemma EarlyCloseTakes(s: Pool, p: nat, w: nat, s': Pool)
    requires SafeInv(s) && Enabled(s, OperatorTakes(p)) && s' == Step(s, OperatorTakes(p))
    requires ReachesBoot(s, OperatorTakes(p), w)
    ensures p < |s.processes| && s'.workers == s.workers && s'.tasks == s.tasks && |s'.processes| == |s.processes|
    ensures s'.processes[p].key == s.processes[p].key && Takeable(s.live, s.processes[p].key, p)
    ensures s'.live == Take(s.live, s.processes[p].key) && s'.closers.owned == s.closers.owned + multiset{p}
    ensures s'.closers.dropping == s.closers.dropping
  {
    assert BootOk(s.workers[w], s.tasks, s.live, s.processes);
  }

  /** Worker `w` will spawn process `p`, whose entry an operator has just taken. */
  ghost predicate TakenBooting(s: Pool, w: nat, p: nat) {
    && IsBooting(s, w, p) && !IsClaimed(s.workers, s.workers[w].task) && s.tasks[s.workers[w].task].status != Queued
    && s.processes[p].key == s.tasks[s.workers[w].task].key
    && Registered(s.live, s.processes[p].key, p) && p in s.closers.owned
  }

  lemma EarlyCloseIsTaken(s: Pool, p: nat, w: nat, s': Pool)
    requires SafeInv(s) && Enabled(s, OperatorTakes(p)) && s' == Step(s, OperatorTakes(p))
    requires ReachesBoot(s, OperatorTakes(p), w)
    ensures TakenBooting(s', w, p) && s'.tasks == s.tasks && s'.workers == s.workers
    ensures s'.live.Keys == s.live.Keys
    ensures forall k :: k != s'.processes[p].key && Fenced(s', k) ==> Fenced(s, k)
  {
    EarlyCloseTakes(s, p, w, s');
    assert PhaseOk(s.tasks, s.workers[w]) && ServerOk(s.processes, s.workers[w]) && ProcessOk(s.tasks, s.processes[p]);
  }

  /** A Claude turn whose task still runs goes past its check. */
  lemma PastTheCheck(s: Pool, w: nat, p: nat) returns (s': Pool)
    requires TakenBooting(s, w, p)
    ensures CanReach(s, s') && TakenBooting(s', w, p) && AtSpawn(s'.workers[w], s'.processes[p].key.runtime)
    ensures s' == s.(workers := s.workers[w := s'.workers[w]]) && s'.workers[w].task == s.workers[w].task
  {
    if AtSpawn(s.workers[w], s.processes[p].key.runtime) {
      ReachSelf(s);
      s' := s;
      assert s.workers[w := s.workers[w]] == s.workers;
    } else {
      var t := s.workers[w].task;
      s' := s.(workers := s.workers[w := Checked(t, p)]);
      assert Step(s, Recheck(w)) == s';
      ReachStep(s, Recheck(w));
    }
  }

  lemma KilledWhileTaken(s: Pool, w: nat, p: nat) returns (s': Pool)
    requires TakenBooting(s, w, p) && AtSpawn(s.workers[w], s.processes[p].key.runtime)
    ensures CanReach(s, s') && TakenBooting(s', w, p) && |s'.tasks| == |s.tasks|
    ensures s'.tasks[s.workers[w].task].status != Running && s'.tasks[s.workers[w].task].key == s.tasks[s.workers[w].task].key
    ensures s'.live == s.live && s'.workers == s.workers && s'.processes == s.processes
    ensures s'.closers.owned == s.closers.owned && s'.closers.dropping == s.closers.dropping
  {
    var t := s.workers[w].task;
    s' := Step(s, Kill(t));
    ReachStep(s, Kill(t));
  }

  /** The operator shuts and drops what he took; nothing is fenced by that. */
  lemma ShutAndDropped(s: Pool, w: nat, p: nat) returns (s': Pool)
    requires TakenBooting(s, w, p) && s.tasks[s.workers[w].task].status != Running
    ensures CanReach(s, s') && s'.tasks == s.tasks && s'.workers == s.workers && |s'.processes| == |s.processes|
    ensures s'.live == s.live - {s.processes[p].key}
    ensures s'.closers.owned == s.closers.owned - multiset{p} && s'.closers.dropping == s.closers.dropping
  {
    var a := Step(s, OperatorShuts(p, true));
    ReachStep(s, OperatorShuts(p, true));
    assert a.closers.dropping == s.closers.dropping + multiset{p};
    assert a.processes[p].key == s.processes[p].key && a.live == s.live;
    s' := Step(a, OperatorDrops(p));
    ReachStep(a, OperatorDrops(p));
    ReachOn(s, a, s');
    assert s'.closers.dropping == s.closers.dropping;
  }

  ghost predicate SameCloses(a: seq<Phase>, b: seq<Phase>) {
    |a| == |b| && forall v, q :: 0 <= v < |a| && 0 <= q ==> (Closes(a[v], q) <==> Closes(b[v], q))
  }

  lemma FencesAfterDrop(s: Pool, s': Pool, p: nat, k: Key)
    requires LiveOk(s.live, s.processes) && p < |s.processes| && SameCloses(s.workers, s'.workers)
    requires s'.live == s.live - {s.processes[p].key} && s'.closers.dropping == s.closers.dropping
    requires s'.closers.owned == s.closers.owned - multiset{p} && Fenced(s', k)
    ensures Fenced(s, k) && k != s.processes[p].key
  {
    assert EntryOk(k, s.live[k], s.processes);
  }

  /** The operator finishes his close; the task, if it still runs, is killed. */
  lemma EarlyCloseStrands(s: Pool, p: nat, w: nat, s': Pool) returns (s'': Pool)
    requires SafeInv(s) && Enabled(s, OperatorTakes(p)) && s' == Step(s, OperatorTakes(p))
    requires ReachesBoot(s, OperatorTakes(p), w)
    ensures CanReach(s', s'') && Stranded(s'', w, KeyOf(s, w))
    ensures s''.live.Keys <= s.live.Keys && forall k :: Fenced(s'', k) ==> Fenced(s, k)
  {
    EarlyCloseIsTaken(s, p, w, s');
    StepKeepsInv(s, OperatorTakes(p));
    s'' := CloseRunsOut(s', w, p);
  }

  lemma CloseRunsOut(s: Pool, w: nat, p: nat) returns (s': Pool)
    requires TakenBooting(s, w, p) && LiveOk(s.live, s.processes)
    ensures CanReach(s, s') && Stranded(s', w, KeyOf(s, w))
    ensures s'.live.Keys <= s.live.Keys && forall k :: Fenced(s', k) ==> Fenced(s, k) && k != s.processes[p].key
  {
    var past := PastTheCheck(s, w, p);
    var killed := KilledWhileTaken(past, w, p);
    ReachOn(s, past, killed);
    s' := ShutAndDropped(killed, w, p);
    ReachOn(s, killed, s');
    assert SameCloses(s.workers, s'.workers);
    forall k | Fenced(s', k) ensures Fenced(s, k) && k != s.processes[p].key {
      FencesAfterDrop(s, s', p, k);
    }
  }

  lemma EarlyStepStrands(s: Pool, e: Event, w: nat, next: Pool) returns (s': Pool)
    requires SafeInv(s) && Enabled(s, e) && next == Step(s, e) && ReachesBoot(s, e, w)
    ensures CanReach(next, s') && Stranded(s', w, KeyOf(s, w))
    ensures s'.live.Keys <= s.live.Keys && forall k :: Fenced(s', k) ==> Fenced(s, k)
  {
    if e.OperatorTakes? {
      s' := EarlyCloseStrands(s, e.server, w, next);
    } else {
      ReachSelf(next);
      EarlyKillStrands(s, e, w, next);
      s' := next;
    }
  }

  lemma EarlyStepDoubles(s: Pool, e: Event, w: nat, next: Pool) returns (s': Pool)
    requires SafeInv(s) && AttendedOk(s) && Enabled(s, e) && next == Step(s, e) && ReachesBoot(s, e, w)
    requires CanStillClaim(s, KeyOf(s, w).runtime)
    ensures CanReach(next, s') && Doubled(s', KeyOf(s, w))
  {
    var stranded := EarlyStepStrands(s, e, w, next);
    StepKeepsInv(s, e);
    StepKeepsAttended(s, e, next);
    ReachKeeps(next, stranded);
    FencesShrink(s, stranded, KeyOf(s, w).runtime);
    s' := StrandedDoubles(stranded, w, KeyOf(s, w));
    ReachOn(next, stranded, s');
  }

  lemma {:induction false} LeadsKeepsSafe(s: Pool, es: seq<Event>, s': Pool)
    requires Leads(s, es, s') && SafeInv(s)
    ensures SafeInv(s')
    decreases |es|
  {
    if es != [] {
      StepKeepsSafeInv(s, es[0]);
      LeadsKeepsSafe(Step(s, es[0]), es[1..], s');
    }
  }

  // ---------------------------------------------------------------------------
  // The guard is needed

  /** Closes that raised have left the runtime of every turn that the step reaches too early a slot. */
  ghost predicate SlotsLeft(s: Pool, e: Event) {
    forall w: nat :: ReachesBoot(s, e, w) ==> CanStillClaim(s, KeyOf(s, w).runtime)
  }

  /** No thread has two processes that are up or still closing. */
  ghost predicate OneEach(s: Pool) {
    forall p: nat, q: nat :: p < q < |s.processes| && s.processes[p].state.Up? && s.processes[q].state.Up?
      ==> s.processes[p].key != s.processes[q].key
  }

  lemma TimelyStaysSafe(s: Pool, e: Event, next: Pool, s': Pool)
    requires SafeInv(s) && Enabled(s, e) && Timely(s, e) && next == Step(s, e) && CanReach(next, s')
    ensures OneEach(s')
  {
    StepKeepsSafeInv(s, e);
    var es :| Leads(next, es, s');
    LeadsKeepsSafe(next, es, s');
  }

  lemma EarlyIsUnsafe(s: Pool, e: Event, next: Pool)
    requires SafeInv(s) && AttendedOk(s) && Enabled(s, e) && !Timely(s, e) && next == Step(s, e)
    requires SlotsLeft(s, e)
    ensures exists s' :: CanReach(next, s') && !OneEach(s')
  {
    EarlyReaches(s, e);
    var w: nat :| ReachesBoot(s, e, w);
    var s' := EarlyStepDoubles(s, e, w, next);
    assert !OneEach(s');
  }

  lemma TimelyIsSafe(s: Pool, e: Event, next: Pool)
    requires SafeInv(s) && AttendedOk(s) && Enabled(s, e) && next == Step(s, e) && SlotsLeft(s, e)
    ensures Timely(s, e) <==> forall s' :: CanReach(next, s') ==> OneEach(s')
  {
    if Timely(s, e) {
      forall s' | CanReach(next, s') ensures OneEach(s') { TimelyStaysSafe(s, e, next, s'); }
    } else {
      EarlyIsUnsafe(s, e, next);
    }
  }

  lemma TimelyStates(states: seq<Pool>, events: seq<Event>)
    requires Execution(states, events) && TimelyRun(states, events, |events|)
    ensures SafeInv(states[|events|]) && AttendedOk(states[|events|])
  {
    ReachableSafeInv(states, events, |events|);
    ReachableAttended(states, events, |events|);
  }

  /**
   * Exactly when one process per thread is safe. At any moment of a timely run at
   * which closes that raised have left the reached runtime a slot: a step leaves
   * every timely continuation with one process for each thread if and only if it
   * neither ends a turn between its claim and its registration nor closes one that
   * spawns all the same: a Codex turn before its spawn, a Claude turn before its
   * spawn whose task still runs or whose check is past, and no Hermes turn at all.
   */
  lemma TimelyExactly(states: seq<Pool>, events: seq<Event>, e: Event, next: Pool)
    requires Execution(states, events) && TimelyRun(states, events, |events|)
    requires Enabled(states[|events|], e) && next == Step(states[|events|], e)
    requires SlotsLeft(states[|events|], e)
    ensures Timely(states[|events|], e) <==> forall s' :: CanReach(next, s') ==> OneEach(s')
  {
    TimelyStates(states, events);
    TimelyIsSafe(states[|events|], e, next);
  }

  lemma RunOn(states: seq<Pool>, events: seq<Event>, e: Event, next: Pool)
    requires Execution(states, events) && Enabled(states[|events|], e) && next == Step(states[|events|], e)
    ensures Execution(states + [next], events + [e])
  {
  }

  lemma {:induction false} LeadsRun(states: seq<Pool>, events: seq<Event>, es: seq<Event>, s': Pool) returns (all: seq<Pool>)
    requires Execution(states, events) && Leads(states[|events|], es, s')
    ensures Execution(all, events + es) && states <= all && all[|events| + |es|] == s'
    ensures forall i :: |events| <= i < |events| + |es| ==> Timely(all[i], (events + es)[i])
    decreases |es|
  {
    if es == [] {
      assert events + es == events;
      all := states;
    } else {
      var next := Step(states[|events|], es[0]);
      RunOn(states, events, es[0], next);
      all := LeadsRun(states + [next], events + [es[0]], es[1..], s');
      assert events + es == (events + [es[0]]) + es[1..];
      assert all[|events|] == states[|events|];
    }
  }

  lemma ReachRun(states: seq<Pool>, events: seq<Event>, s': Pool) returns (all: seq<Pool>, did: seq<Event>)
    requires Execution(states, events) && CanReach(states[|events|], s')
    ensures Execution(all, events + did) && states <= all && all[|events| + |did|] == s'
    ensures forall i :: |events| <= i < |events| + |did| ==> Timely(all[i], (events + did)[i])
  {
    did :| Leads(states[|events|], did, s');
    all := LeadsRun(states, events, did, s');
  }

  /**
   * And whichever turn an operator reaches too early: the run has a continuation,
   * without another early operator, in which two processes of its thread are up,
   * and but for Hermes one of them is lost.
   */
  lemma EarlyOperatorDoubles(states: seq<Pool>, events: seq<Event>, e: Event, w: nat, next: Pool)
    returns (all: seq<Pool>, did: seq<Event>)
    requires Execution(states, events) && TimelyRun(states, events, |events|)
    requires Enabled(states[|events|], e) && next == Step(states[|events|], e)
    requires ReachesBoot(states[|events|], e, w) && CanStillClaim(states[|events|], KeyOf(states[|events|], w).runtime)
    ensures Execution(all, events + [e] + did) && states + [next] <= all
    ensures forall i :: |events| < i < |events| + 1 + |did| ==> Timely(all[i], (events + [e] + did)[i])
    ensures Doubled(all[|events| + 1 + |did|], KeyOf(states[|events|], w))
  {
    TimelyStates(states, events);
    var last := EarlyStepDoubles(states[|events|], e, w, next);
    RunOn(states, events, e, next);
    all, did := ReachRun(states + [next], events + [e], last);
  }
}
