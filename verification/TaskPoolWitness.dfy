/** Runs that show where the claims of the orchestrator end: two leaks, and a bound that is reached. */
module TaskPoolWitness {
  import opened Prelude
  import opened TaskStatus
  import opened TaskPool
  import opened TaskPoolInvariant
  import opened TaskPoolSafety
  import opened TaskPoolHistory
  import opened TaskPoolLost

  const THREAD := Key(Codex, 0)

  /** A state in which only the first three workers are ever busy. */
  function At(tasks: seq<TaskRow>, a: Phase, b: Phase, c: Phase, live: map<Key, Turn>, processes: seq<Process>,
              closers: Closers, claims: seq<nat>): Pool
  {
    Pool(tasks, [a, b, c, Idle, Idle, Idle, Idle, Idle, Idle], live, processes, closers, claims)
  }

  lemma ExecutionAppend(states: seq<Pool>, events: seq<Event>, e: Event, next: Pool)
    requires Execution(states, events) && Enabled(states[|events|], e) && Step(states[|events|], e) == next
    ensures Execution(states + [next], events + [e])
  {
  }

  lemma Moved(a: Phase, b: Phase, c: Phase, x: Phase)
    ensures [a, b, c, Idle, Idle, Idle, Idle, Idle, Idle][0 := x] == [x, b, c, Idle, Idle, Idle, Idle, Idle, Idle]
    ensures [a, b, c, Idle, Idle, Idle, Idle, Idle, Idle][1 := x] == [a, x, c, Idle, Idle, Idle, Idle, Idle, Idle]
    ensures [a, b, c, Idle, Idle, Idle, Idle, Idle, Idle][2 := x] == [a, b, x, Idle, Idle, Idle, Idle, Idle, Idle]
  {
  }

  /** With nothing running and nothing live the first queued task is claimed. */
  lemma FirstQueuedIsClaimed(tasks: seq<TaskRow>, t: nat)
    requires t < |tasks| && tasks[t].status == Queued
    requires forall u :: 0 <= u < |tasks| ==> tasks[u].status != Running && (u < t ==> tasks[u].status != Queued)
    ensures NextClaim(tasks, map[]) == Some(t)
  {
    assert AllRunning(tasks) == {} && RunningIn(tasks, tasks[t].key.runtime) == {};
    assert LiveIn(map[], tasks[t].key.runtime) == {};
    assert Claimable(tasks, map[], t);
  }

  const QUEUED_TASK := TaskRow(THREAD, Queued)
  const RUNNING_TASK := TaskRow(THREAD, Running)
  const CANCELLED_TASK := TaskRow(THREAD, Cancelled)

  lemma TwoTasksFirstClaimed() returns (states: seq<Pool>, events: seq<Event>)
    ensures Execution(states, events) && |events| == 3 && TimelyRun(states, events, 3)
    ensures states[3] == At([RUNNING_TASK, QUEUED_TASK], Claimed(0), Idle, Idle, map[], [], NO_CLOSERS, [0])
  {
    var s1 := At([QUEUED_TASK], Idle, Idle, Idle, map[], [], NO_CLOSERS, []);
    assert [] + [QUEUED_TASK] == [QUEUED_TASK];
    ExecutionAppend([EMPTY_POOL], [], Submit(THREAD), s1);
    states, events := [EMPTY_POOL] + [s1], [] + [Submit(THREAD)];
    var s2 := At([QUEUED_TASK, QUEUED_TASK], Idle, Idle, Idle, map[], [], NO_CLOSERS, []);
    ExecutionAppend(states, events, Submit(THREAD), s2);
    states, events := states + [s2], events + [Submit(THREAD)];
    FirstQueuedIsClaimed(s2.tasks, 0);
    Moved(Idle, Idle, Idle, Claimed(0));
    var s3 := At([RUNNING_TASK, QUEUED_TASK], Claimed(0), Idle, Idle, map[], [], NO_CLOSERS, [0]);
    assert s2.tasks[0 := RUNNING_TASK] == s3.tasks && s2.claims + [0] == [0];
    ExecutionAppend(states, events, Claim(0), s3);
    states, events := states + [s3], events + [Claim(0)];
  }

  lemma KilledAtTheClaim() returns (states: seq<Pool>, events: seq<Event>)
    ensures Execution(states, events) && |events| == 4
    ensures forall i :: 0 <= i < 4 ==> !EarlyClose(states[i], events[i]) && (EarlyKill(states[i], events[i]) <==> i == 3)
    ensures states[4] ==
      At([CANCELLED_TASK, QUEUED_TASK], Claimed(0), Idle, Idle, map[], [], NO_CLOSERS.(lookups := {0}), [0])
  {
    states, events := TwoTasksFirstClaimed();
    var c := NO_CLOSERS.(lookups := {0});
    var s4 := At([CANCELLED_TASK, QUEUED_TASK], Claimed(0), Idle, Idle, map[], [], c, [0]);
    assert states[3].workers[0] == Claimed(0) && IsClaimed(states[3].workers, 0);
    assert states[3].tasks[0 := CANCELLED_TASK] == s4.tasks && {} + {0} == {0};
    ExecutionAppend(states, events, Kill(0), s4);
    states, events := states + [s4], events + [Kill(0)];
  }

  /** The second task is claimed although the worker of the first one is still on its way. */
  lemma KilledTooEarly() returns (states: seq<Pool>, events: seq<Event>)
    ensures Execution(states, events) && |events| == 5
    ensures forall i :: 0 <= i < 5 ==> !EarlyClose(states[i], events[i]) && (EarlyKill(states[i], events[i]) <==> i == 3)
    ensures states[5] ==
      At([CANCELLED_TASK, RUNNING_TASK], Claimed(0), Claimed(1), Idle, map[], [], NO_CLOSERS.(lookups := {0}), [0, 1])
  {
    states, events := KilledAtTheClaim();
    var s4 := states[4];
    var c := NO_CLOSERS.(lookups := {0});
    FirstQueuedIsClaimed(s4.tasks, 1);
    Moved(Claimed(0), Idle, Idle, Claimed(1));
    var s5 := At([CANCELLED_TASK, RUNNING_TASK], Claimed(0), Claimed(1), Idle, map[], [], c, [0, 1]);
    assert s4.tasks[1 := RUNNING_TASK] == s5.tasks && [0] + [1] == [0, 1];
    ExecutionAppend(states, events, Claim(1), s5);
    states, events := states + [s5], events + [Claim(1)];
  }

  lemma SecondTurnRuns() returns (states: seq<Pool>, events: seq<Event>)
    ensures Execution(states, events) && |events| == 7
    ensures forall i :: 0 <= i < 7 ==> !EarlyClose(states[i], events[i]) && (EarlyKill(states[i], events[i]) <==> i == 3)
    ensures states[7] == At([CANCELLED_TASK, RUNNING_TASK], Claimed(0), Started(1, 0), Idle,
      map[THREAD := Turn(0, 1, false)], [Process(THREAD, 1, Up, 0)], NO_CLOSERS.(lookups := {0}), [0, 1])
  {
    states, events := KilledTooEarly();
    var live := map[THREAD := Turn(0, 1, false)];
    var c := NO_CLOSERS.(lookups := {0});
    var s6 := At([CANCELLED_TASK, RUNNING_TASK], Claimed(0), Ready(1, 0), Idle, live, [Process(THREAD, 1, Unstarted, 0)], c, [0, 1]);
    Moved(Claimed(0), Claimed(1), Idle, Ready(1, 0));
    assert [] + [Process(THREAD, 1, Unstarted, 0)] == [Process(THREAD, 1, Unstarted, 0)];
    ExecutionAppend(states, events, Register(1), s6);
    states, events := states + [s6], events + [Register(1)];
    var s7 := At([CANCELLED_TASK, RUNNING_TASK], Claimed(0), Started(1, 0), Idle, live, [Process(THREAD, 1, Up, 0)], c, [0, 1]);
    Moved(Claimed(0), Ready(1, 0), Idle, Started(1, 0));
    assert s6.processes[0 := Process(THREAD, 1, Up, 0)] == s7.processes;
    ExecutionAppend(states, events, Start(1), s7);
    states, events := states + [s7], events + [Start(1)];
  }

  /** A kill before the registration is enough: two processes of one thread are up at once, */
  lemma TwoProcessesAfterEarlyKill() returns (states: seq<Pool>, events: seq<Event>)
    ensures Execution(states, events) && |events| == 9
    ensures forall i :: 0 <= i < 9 ==> !EarlyClose(states[i], events[i]) && (EarlyKill(states[i], events[i]) <==> i == 3)
    ensures states[9] == At([CANCELLED_TASK, RUNNING_TASK], Started(0, 1), Started(1, 0), Idle,
      map[THREAD := Turn(1, 0, false)], [Process(THREAD, 1, Up, 0), Process(THREAD, 0, Up, 0)],
      NO_CLOSERS.(lookups := {0}), [0, 1])
  {
    states, events := SecondTurnRuns();
    var live := map[THREAD := Turn(1, 0, false)];
    var c := NO_CLOSERS.(lookups := {0});
    var s8 := At([CANCELLED_TASK, RUNNING_TASK], Ready(0, 1), Started(1, 0), Idle, live,
      [Process(THREAD, 1, Up, 0), Process(THREAD, 0, Unstarted, 0)], c, [0, 1]);
    Moved(Claimed(0), Started(1, 0), Idle, Ready(0, 1));
    assert states[7].live[THREAD := Turn(1, 0, false)] == live;
    ExecutionAppend(states, events, Register(0), s8);
    states, events := states + [s8], events + [Register(0)];
    var s9 := At([CANCELLED_TASK, RUNNING_TASK], Started(0, 1), Started(1, 0), Idle, live,
      [Process(THREAD, 1, Up, 0), Process(THREAD, 0, Up, 0)], c, [0, 1]);
    Moved(Ready(0, 1), Started(1, 0), Idle, Started(0, 1));
    assert s8.processes[1 := Process(THREAD, 0, Up, 0)] == s9.processes;
    ExecutionAppend(states, events, Start(0), s9);
    states, events := states + [s9], events + [Start(0)];
  }

  /**
   * and the worker of the first one goes idle without closing it: in every
   * continuation of this run nobody has it in hand, and it is up until it exits.
   */
  lemma FirstProcessIsNeverClosed() returns (states: seq<Pool>, events: seq<Event>)
    ensures Execution(states, events) && |events| == 11
    ensures states[11] == At([CANCELLED_TASK, TaskRow(THREAD, Completed)], Started(0, 1), Idle, Idle,
      map[THREAD := Turn(1, 0, false)], [Process(THREAD, 1, Up, 0), Process(THREAD, 0, Up, 0)],
      NO_CLOSERS.(lookups := {0}), [0, 1])
    ensures forall all: seq<Pool>, did: seq<Event>, j: nat ::
      Execution(all, did) && states <= all && 11 <= j < |all| ==>
        Abandoned(all[j], 0) && ((forall k :: 11 <= k < j ==> did[k] != Exit(0)) ==> Lost(all[j], 0))
  {
    states, events := ProcessIsAbandoned();
    assert Lost(states[11], 0);
    forall all: seq<Pool>, did: seq<Event>, j: nat | Execution(all, did) && states <= all && 11 <= j < |all|
      ensures Abandoned(all[j], 0) && ((forall k :: 11 <= k < j ==> did[k] != Exit(0)) ==> Lost(all[j], 0))
    {
      LostForever(all, did, 11, j, 0);
    }
  }

  lemma ProcessIsAbandoned() returns (states: seq<Pool>, events: seq<Event>)
    ensures Execution(states, events) && |events| == 11
    ensures states[11] == At([CANCELLED_TASK, TaskRow(THREAD, Completed)], Started(0, 1), Idle, Idle,
      map[THREAD := Turn(1, 0, false)], [Process(THREAD, 1, Up, 0), Process(THREAD, 0, Up, 0)],
      NO_CLOSERS.(lookups := {0}), [0, 1])
  {
    states, events := TwoProcessesAfterEarlyKill();
    var s9 := states[9];
    var done := [CANCELLED_TASK, TaskRow(THREAD, Completed)];
    var s10 := At(done, Started(0, 1), Leaving(1, 0, Wanting), Idle, s9.live, s9.processes, s9.closers, s9.claims);
    Moved(Started(0, 1), Started(1, 0), Idle, Leaving(1, 0, Wanting));
    assert s9.tasks[1 := TaskRow(THREAD, Completed)] == done;
    ExecutionAppend(states, events, Finish(1, true), s10);
    states, events := states + [s10], events + [Finish(1, true)];
    var s11 := At(done, Started(0, 1), Idle, Idle, s9.live, s9.processes, s9.closers, s9.claims);
    Moved(Started(0, 1), Leaving(1, 0, Wanting), Idle, Idle);
    ExecutionAppend(states, events, WorkerTakes(1), s11);
    states, events := states + [s11], events + [WorkerTakes(1)];
  }

  // ---------------------------------------------------------------------------
  // A close that reaches a registered turn before its spawn

  const KILLED := [CANCELLED_TASK, QUEUED_TASK]

  lemma KilledWhileBooting() returns (states: seq<Pool>, events: seq<Event>)
    ensures Execution(states, events) && |events| == 6
    ensures forall i :: 0 <= i < 6 ==> Timely(states[i], events[i])
    ensures states[6] == At(KILLED, Ready(0, 0), Idle, Idle, map[THREAD := Turn(0, 0, false)],
      [Process(THREAD, 0, Unstarted, 0)], NO_CLOSERS.(wanted := multiset{0}), [0])
  {
    states, events := TwoTasksFirstClaimed();
    var live := map[THREAD := Turn(0, 0, false)];
    var processes := [Process(THREAD, 0, Unstarted, 0)];
    var s4 := At([RUNNING_TASK, QUEUED_TASK], Ready(0, 0), Idle, Idle, live, processes, NO_CLOSERS, [0]);
    Moved(Claimed(0), Idle, Idle, Ready(0, 0));
    assert [] + processes == processes;
    ExecutionAppend(states, events, Register(0), s4);
    states, events := states + [s4], events + [Register(0)];
    var s5 := At(KILLED, Ready(0, 0), Idle, Idle, live, processes, NO_CLOSERS.(lookups := {0}), [0]);
    assert s4.tasks[0 := CANCELLED_TASK] == KILLED && {} + {0} == {0};
    ExecutionAppend(states, events, Kill(0), s5);
    states, events := states + [s5], events + [Kill(0)];
    var s6 := At(KILLED, Ready(0, 0), Idle, Idle, live, processes, NO_CLOSERS.(wanted := multiset{0}), [0]);
    assert {0} - {0} == {} && multiset{} + multiset{0} == multiset{0};
    ExecutionAppend(states, events, LookUp(0), s6);
    states, events := states + [s6], events + [LookUp(0)];
  }

  lemma ClosedWhileBooting() returns (states: seq<Pool>, events: seq<Event>)
    ensures Execution(states, events) && |events| == 9
    ensures forall i :: 0 <= i < 9 ==> !EarlyKill(states[i], events[i])
    ensures states[9] == At(KILLED, Ready(0, 0), Idle, Idle, map[], [Process(THREAD, 0, Down, 1)], NO_CLOSERS, [0])
  {
    states, events := KilledWhileBooting();
    var closing := map[THREAD := Turn(0, 0, true)];
    var s7 := At(KILLED, Ready(0, 0), Idle, Idle, closing, [Process(THREAD, 0, Unstarted, 1)], NO_CLOSERS.(owned := multiset{0}), [0]);
    assert states[6].live[THREAD := Turn(0, 0, true)] == closing;
    assert multiset{0} - multiset{0} == multiset{} && multiset{} + multiset{0} == multiset{0};
    ExecutionAppend(states, events, OperatorTakes(0), s7);
    states, events := states + [s7], events + [OperatorTakes(0)];
    var s8 := At(KILLED, Ready(0, 0), Idle, Idle, closing, [Process(THREAD, 0, Down, 1)], NO_CLOSERS.(dropping := multiset{0}), [0]);
    assert s7.processes[0 := Process(THREAD, 0, Down, 1)] == s8.processes;
    ExecutionAppend(states, events, OperatorShuts(0, true), s8);
    states, events := states + [s8], events + [OperatorShuts(0, true)];
    var s9 := At(KILLED, Ready(0, 0), Idle, Idle, map[], [Process(THREAD, 0, Down, 1)], NO_CLOSERS, [0]);
    assert closing - {THREAD} == map[];
    ExecutionAppend(states, events, OperatorDrops(0), s9);
    states, events := states + [s9], events + [OperatorDrops(0)];
  }

  lemma SecondTurnAfterClose() returns (states: seq<Pool>, events: seq<Event>)
    ensures Execution(states, events) && |events| == 11
    ensures forall i :: 0 <= i < 11 ==> !EarlyKill(states[i], events[i])
    ensures states[11] == At([CANCELLED_TASK, RUNNING_TASK], Ready(0, 0), Ready(1, 1), Idle, map[THREAD := Turn(1, 1, false)],
      [Process(THREAD, 0, Down, 1), Process(THREAD, 1, Unstarted, 0)], NO_CLOSERS, [0, 1])
  {
    states, events := ClosedWhileBooting();
    var tasks := [CANCELLED_TASK, RUNNING_TASK];
    var s10 := At(tasks, Ready(0, 0), Claimed(1), Idle, map[], [Process(THREAD, 0, Down, 1)], NO_CLOSERS, [0, 1]);
    FirstQueuedIsClaimed(KILLED, 1);
    Moved(Ready(0, 0), Idle, Idle, Claimed(1));
    assert KILLED[1 := RUNNING_TASK] == tasks && [0] + [1] == [0, 1];
    ExecutionAppend(states, events, Claim(1), s10);
    states, events := states + [s10], events + [Claim(1)];
    var processes := [Process(THREAD, 0, Down, 1), Process(THREAD, 1, Unstarted, 0)];
    var s11 := At(tasks, Ready(0, 0), Ready(1, 1), Idle, map[THREAD := Turn(1, 1, false)], processes, NO_CLOSERS, [0, 1]);
    Moved(Ready(0, 0), Claimed(1), Idle, Ready(1, 1));
    assert s10.processes + [Process(THREAD, 1, Unstarted, 0)] == processes;
    ExecutionAppend(states, events, Register(1), s11);
    states, events := states + [s11], events + [Register(1)];
  }

  /** A close between the registration and the start is enough as well. */
  lemma TwoProcessesAfterEarlyClose() returns (states: seq<Pool>, events: seq<Event>)
    ensures Execution(states, events) && |events| == 13
    ensures forall i :: 0 <= i < 13 ==> !EarlyKill(states[i], events[i])
    ensures states[13].processes == [Process(THREAD, 0, Up, 1), Process(THREAD, 1, Up, 0)]
  {
    states, events := SecondTurnAfterClose();
    var s11 := states[11];
    var middle := [Process(THREAD, 0, Down, 1), Process(THREAD, 1, Up, 0)];
    var s12 := At(s11.tasks, Ready(0, 0), Started(1, 1), Idle, s11.live, middle, NO_CLOSERS, [0, 1]);
    Moved(Ready(0, 0), Ready(1, 1), Idle, Started(1, 1));
    assert s11.processes[1 := Process(THREAD, 1, Up, 0)] == middle;
    ExecutionAppend(states, events, Start(1), s12);
    states, events := states + [s12], events + [Start(1)];
    var last := [Process(THREAD, 0, Up, 1), Process(THREAD, 1, Up, 0)];
    var s13 := At(s11.tasks, Started(0, 0), Started(1, 1), Idle, s11.live, last, NO_CLOSERS, [0, 1]);
    Moved(Ready(0, 0), Started(1, 1), Idle, Started(0, 0));
    assert middle[0 := Process(THREAD, 0, Up, 1)] == last;
    ExecutionAppend(states, events, Start(0), s13);
    states, events := states + [s13], events + [Start(0)];
  }

  // ---------------------------------------------------------------------------
  // Twice the slots less one

  /** A task on the thread `n` of one runtime. */
  function OnThread(n: nat, status: Status): TaskRow {
    TaskRow(Key(Codex, n), status)
  }

  function Five(a: Status, b: Status, c: Status, d: Status, e: Status): seq<TaskRow> {
    [OnThread(0, a), OnThread(1, b), OnThread(2, c), OnThread(3, d), OnThread(4, e)]
  }

  /** A state in which only the first five workers are ever busy. */
  function Busy(tasks: seq<TaskRow>, workers: seq<Phase>, live: map<Key, Turn>, processes: seq<Process>, claims: seq<nat>): Pool {
    Pool(tasks, workers + [Idle, Idle, Idle, Idle], live, processes, NO_CLOSERS, claims)
  }

  lemma FirstFittingIsClaimed(tasks: seq<TaskRow>, live: map<Key, Turn>, running: set<nat>, t: nat)
    requires t < |tasks| && tasks[t].status == Queued && |running| <= 2 && |live| <= 2
    requires forall u :: 0 <= u < |tasks| && tasks[u].status == Running ==> u in running && tasks[u].key != tasks[t].key
    requires tasks[t].key !in live && forall u :: 0 <= u < t ==> tasks[u].status != Queued
    ensures NextClaim(tasks, live) == Some(t)
  {
    var r := tasks[t].key.runtime;
    assert AllRunning(tasks) <= running && RunningIn(tasks, r) <= running && LiveIn(live, r) <= live.Keys;
    SmallerSet(AllRunning(tasks), running);
    SmallerSet(RunningIn(tasks, r), running);
    SmallerSet(LiveIn(live, r), live.Keys);
    assert Claimable(tasks, live, t);
  }

  lemma TimelyAppend(states: seq<Pool>, events: seq<Event>, e: Event, next: Pool)
    requires Execution(states, events) && TimelyRun(states, events, |events|)
    requires Enabled(states[|events|], e) && Step(states[|events|], e) == next && Timely(states[|events|], e)
    ensures Execution(states + [next], events + [e]) && TimelyRun(states + [next], events + [e], |events| + 1)
  {
  }

  const FIVE_IDLE := [Idle, Idle, Idle, Idle, Idle]

  lemma {:induction false} Submitted(n: nat) returns (states: seq<Pool>, events: seq<Event>)
    requires n <= 5
    ensures Execution(states, events) && |events| == n && TimelyRun(states, events, n)
    ensures states[n] == Busy(Five(Queued, Queued, Queued, Queued, Queued)[..n], FIVE_IDLE, map[], [], [])
  {
    if n == 0 {
      return [EMPTY_POOL], [];
    }
    states, events := Submitted(n - 1);
    var all := Five(Queued, Queued, Queued, Queued, Queued);
    var next := Busy(all[..n], FIVE_IDLE, map[], [], []);
    assert all[..n - 1] + [OnThread(n - 1, Queued)] == all[..n];
    TimelyAppend(states, events, Submit(Key(Codex, n - 1)), next);
    states, events := states + [next], events + [Submit(Key(Codex, n - 1))];
  }

  /** Step by step: worker `w` goes from `a` to `b`. */
  lemma WorkerMoved(workers: seq<Phase>, w: nat, b: Phase)
    requires |workers| == 5 && w < 5
    ensures (workers + [Idle, Idle, Idle, Idle])[w := b] == workers[w := b] + [Idle, Idle, Idle, Idle]
  {
  }

  lemma OneMoreClaimed(before: seq<Pool>, did: seq<Event>, n: nat, tasks: seq<TaskRow>, workers: seq<Phase>,
                       live: map<Key, Turn>, processes: seq<Process>, claims: seq<nat>, w: nat)
    returns (states: seq<Pool>, events: seq<Event>)
    requires Execution(before, did) && |did| == n && TimelyRun(before, did, n)
    requires |workers| == 5 && w < 5 && workers[w].Idle? && w < |tasks| && NextClaim(tasks, live) == Some(w)
    requires before[n] == Busy(tasks, workers, live, processes, claims)
    ensures Execution(states, events) && |events| == n + 1 && TimelyRun(states, events, n + 1)
    ensures states[n + 1] ==
      Busy(WithStatus(tasks, w, Running), workers[w := Claimed(w)], live, processes, claims + [w])
  {
    var next := Busy(WithStatus(tasks, w, Running), workers[w := Claimed(w)], live, processes, claims + [w]);
    WorkerMoved(workers, w, Claimed(w));
    TimelyAppend(before, did, Claim(w), next);
    states, events := before + [next], did + [Claim(w)];
  }

  lemma TwoTurnsFinished() returns (states: seq<Pool>, events: seq<Event>)
    ensures Execution(states, events) && |events| == 13 && TimelyRun(states, events, 13)
    ensures states[13] == Busy(Five(Completed, Completed, Queued, Queued, Queued),
      [Leaving(0, 0, Wanting), Leaving(1, 1, Wanting), Idle, Idle, Idle],
      map[Key(Codex, 0) := Turn(0, 0, false), Key(Codex, 1) := Turn(1, 1, false)],
      [Process(Key(Codex, 0), 0, Up, 0), Process(Key(Codex, 1), 1, Up, 0)], [0, 1])
  {
    states, events := FirstTurnFinished();
    var s9 := states[9];
    var k1 := Key(Codex, 1);
    var p0 := Process(Key(Codex, 0), 0, Up, 0);
    var l1 := map[Key(Codex, 0) := Turn(0, 0, false), k1 := Turn(1, 1, false)];
    var w0 := Leaving(0, 0, Wanting);
    var running := Five(Completed, Running, Queued, Queued, Queued);
    FirstFittingIsClaimed(s9.tasks, s9.live, {}, 1);
    var s10 := Busy(running, [w0, Claimed(1), Idle, Idle, Idle], s9.live, [p0], [0, 1]);
    assert s9.tasks[1 := OnThread(1, Running)] == running && [0] + [1] == [0, 1];
    assert [w0, Idle, Idle, Idle, Idle][1 := Claimed(1)] == [w0, Claimed(1), Idle, Idle, Idle];
    TimelyAppend(states, events, Claim(1), s10);
    states, events := states + [s10], events + [Claim(1)];
    states, events := SecondTurnRan(states, events);
  }

  lemma SecondTurnRan(before: seq<Pool>, did: seq<Event>) returns (states: seq<Pool>, events: seq<Event>)
    requires Execution(before, did) && |did| == 10 && TimelyRun(before, did, 10)
    requires before[10] == Busy(Five(Completed, Running, Queued, Queued, Queued),
      [Leaving(0, 0, Wanting), Claimed(1), Idle, Idle, Idle], map[Key(Codex, 0) := Turn(0, 0, false)],
      [Process(Key(Codex, 0), 0, Up, 0)], [0, 1])
    ensures Execution(states, events) && |events| == 13 && TimelyRun(states, events, 13)
    ensures states[13] == Busy(Five(Completed, Completed, Queued, Queued, Queued),
      [Leaving(0, 0, Wanting), Leaving(1, 1, Wanting), Idle, Idle, Idle],
      map[Key(Codex, 0) := Turn(0, 0, false), Key(Codex, 1) := Turn(1, 1, false)],
      [Process(Key(Codex, 0), 0, Up, 0), Process(Key(Codex, 1), 1, Up, 0)], [0, 1])
  {
    states, events := before, did;
    var w0, k1, p0 := Leaving(0, 0, Wanting), Key(Codex, 1), Process(Key(Codex, 0), 0, Up, 0);
    var running := before[10].tasks;
    var live := map[Key(Codex, 0) := Turn(0, 0, false), k1 := Turn(1, 1, false)];
    var s11 := Busy(running, [w0, Ready(1, 1), Idle, Idle, Idle], live, [p0, Process(k1, 1, Unstarted, 0)], [0, 1]);
    WorkerMoved([w0, Claimed(1), Idle, Idle, Idle], 1, Ready(1, 1));
    assert before[10].live[k1 := Turn(1, 1, false)] == live;
    assert before[10].processes + [Process(k1, 1, Unstarted, 0)] == s11.processes;
    TimelyAppend(states, events, Register(1), s11);
    states, events := states + [s11], events + [Register(1)];
    var s12 := Busy(running, [w0, Started(1, 1), Idle, Idle, Idle], live, [p0, Process(k1, 1, Up, 0)], [0, 1]);
    WorkerMoved([w0, Ready(1, 1), Idle, Idle, Idle], 1, Started(1, 1));
    assert s11.processes[1 := Process(k1, 1, Up, 0)] == s12.processes;
    TimelyAppend(states, events, Start(1), s12);
    states, events := states + [s12], events + [Start(1)];
    var done := Five(Completed, Completed, Queued, Queued, Queued);
    var s13 := Busy(done, [w0, Leaving(1, 1, Wanting), Idle, Idle, Idle], live, s12.processes, [0, 1]);
    WorkerMoved([w0, Started(1, 1), Idle, Idle, Idle], 1, Leaving(1, 1, Wanting));
    assert running[1 := OnThread(1, Completed)] == done;
    TimelyAppend(states, events, Finish(1, true), s13);
    states, events := states + [s13], events + [Finish(1, true)];
  }

  lemma FirstTurnClaimed() returns (states: seq<Pool>, events: seq<Event>)
    ensures Execution(states, events) && |events| == 6 && TimelyRun(states, events, 6)
    ensures states[6] ==
      Busy(Five(Running, Queued, Queued, Queued, Queued), [Claimed(0), Idle, Idle, Idle, Idle], map[], [], [0])
  {
    states, events := Submitted(5);
    var queued := Five(Queued, Queued, Queued, Queued, Queued);
    assert queued[..5] == queued;
    FirstFittingIsClaimed(queued, map[], {}, 0);
    states, events := OneMoreClaimed(states, events, 5, queued, FIVE_IDLE, map[], [], [], 0);
    assert WithStatus(queued, 0, Running) == Five(Running, Queued, Queued, Queued, Queued) && [] + [0] == [0];
    assert FIVE_IDLE[0 := Claimed(0)] == [Claimed(0), Idle, Idle, Idle, Idle];
  }

  lemma FirstTurnStarted() returns (states: seq<Pool>, events: seq<Event>)
    ensures Execution(states, events) && |events| == 7 && TimelyRun(states, events, 7)
    ensures states[7] == Busy(Five(Running, Queued, Queued, Queued, Queued), [Ready(0, 0), Idle, Idle, Idle, Idle],
      map[Key(Codex, 0) := Turn(0, 0, false)], [Process(Key(Codex, 0), 0, Unstarted, 0)], [0])
  {
    states, events := FirstTurnClaimed();
    var k0, running := Key(Codex, 0), states[6].tasks;
    var s7 := Busy(running, [Ready(0, 0), Idle, Idle, Idle, Idle], map[k0 := Turn(0, 0, false)], [Process(k0, 0, Unstarted, 0)], [0]);
    WorkerMoved([Claimed(0), Idle, Idle, Idle, Idle], 0, Ready(0, 0));
    assert [] + [Process(k0, 0, Unstarted, 0)] == [Process(k0, 0, Unstarted, 0)];
    TimelyAppend(states, events, Register(0), s7);
    states, events := states + [s7], events + [Register(0)];
  }

  lemma FirstTurnFinished() returns (states: seq<Pool>, events: seq<Event>)
    ensures Execution(states, events) && |events| == 9 && TimelyRun(states, events, 9)
    ensures states[9] == Busy(Five(Completed, Queued, Queued, Queued, Queued), [Leaving(0, 0, Wanting), Idle, Idle, Idle, Idle],
      map[Key(Codex, 0) := Turn(0, 0, false)], [Process(Key(Codex, 0), 0, Up, 0)], [0])
  {
    states, events := FirstTurnStarted();
    var s7 := states[7];
    var s8 := Busy(s7.tasks, [Started(0, 0), Idle, Idle, Idle, Idle], s7.live, [Process(Key(Codex, 0), 0, Up, 0)], [0]);
    WorkerMoved([Ready(0, 0), Idle, Idle, Idle, Idle], 0, Started(0, 0));
    assert s7.processes[0 := Process(Key(Codex, 0), 0, Up, 0)] == s8.processes;
    TimelyAppend(states, events, Start(0), s8);
    states, events := states + [s8], events + [Start(0)];
    var done := Five(Completed, Queued, Queued, Queued, Queued);
    var s9 := Busy(done, [Leaving(0, 0, Wanting), Idle, Idle, Idle, Idle], s7.live, s8.processes, [0]);
    WorkerMoved([Started(0, 0), Idle, Idle, Idle, Idle], 0, Leaving(0, 0, Wanting));
    assert s7.tasks[0 := OnThread(0, Completed)] == done;
    TimelyAppend(states, events, Finish(0, true), s9);
    states, events := states + [s9], events + [Finish(0, true)];
  }

  const FIRST_TWO := [Leaving(0, 0, Wanting), Leaving(1, 1, Wanting)]
  const STILL_LIVE := map[Key(Codex, 0) := Turn(0, 0, false), Key(Codex, 1) := Turn(1, 1, false)]

  lemma ThreeMoreClaimed() returns (states: seq<Pool>, events: seq<Event>, processes: seq<Process>, claims: seq<nat>)
    ensures Execution(states, events) && |events| == 16 && TimelyRun(states, events, 16)
    ensures states[16] == Busy(Five(Completed, Completed, Running, Running, Running),
      FIRST_TWO + [Claimed(2), Claimed(3), Claimed(4)], STILL_LIVE, processes, claims)
  {
    states, events := TwoTurnsFinished();
    processes, claims := states[13].processes, states[13].claims;
    var t13, w13 := Five(Completed, Completed, Queued, Queued, Queued), FIRST_TWO + [Idle, Idle, Idle];
    FirstFittingIsClaimed(t13, STILL_LIVE, {}, 2);
    states, events := OneMoreClaimed(states, events, 13, t13, w13, STILL_LIVE, processes, claims, 2);
    var t14, w14 := Five(Completed, Completed, Running, Queued, Queued), FIRST_TWO + [Claimed(2), Idle, Idle];
    assert WithStatus(t13, 2, Running) == t14 && w13[2 := Claimed(2)] == w14;
    FirstFittingIsClaimed(t14, STILL_LIVE, {2}, 3);
    states, events := OneMoreClaimed(states, events, 14, t14, w14, STILL_LIVE, processes, claims + [2], 3);
    states, events, claims := LastOneClaimed(states, events, processes, claims + [2] + [3]);
  }

  lemma LastOneClaimed(before: seq<Pool>, did: seq<Event>, processes: seq<Process>, claims: seq<nat>)
    returns (states: seq<Pool>, events: seq<Event>, all: seq<nat>)
    requires Execution(before, did) && |did| == 15 && TimelyRun(before, did, 15)
    requires before[15] == Busy(WithStatus(Five(Completed, Completed, Running, Queued, Queued), 3, Running),
      (FIRST_TWO + [Claimed(2), Idle, Idle])[3 := Claimed(3)], STILL_LIVE, processes, claims)
    ensures Execution(states, events) && |events| == 16 && TimelyRun(states, events, 16)
    ensures states[16] == Busy(Five(Completed, Completed, Running, Running, Running),
      FIRST_TWO + [Claimed(2), Claimed(3), Claimed(4)], STILL_LIVE, processes, all)
  {
    var t15, w15 := Five(Completed, Completed, Running, Running, Queued), FIRST_TWO + [Claimed(2), Claimed(3), Idle];
    assert WithStatus(Five(Completed, Completed, Running, Queued, Queued), 3, Running) == t15;
    assert (FIRST_TWO + [Claimed(2), Idle, Idle])[3 := Claimed(3)] == w15;
    FirstFittingIsClaimed(t15, STILL_LIVE, {2, 3}, 4);
    states, events := OneMoreClaimed(before, did, 15, t15, w15, STILL_LIVE, processes, claims, 4);
    all := claims + [4];
    assert WithStatus(t15, 4, Running) == Five(Completed, Completed, Running, Running, Running);
    assert w15[4 := Claimed(4)] == FIRST_TWO + [Claimed(2), Claimed(3), Claimed(4)];
  }

  /** The bound is reached: two turns that are still closing and three that have been claimed. */
  lemma CapacityIsReached() returns (states: seq<Pool>, events: seq<Event>)
    ensures Execution(states, events) && |events| == 16 && TimelyRun(states, events, 16)
    ensures |LiveIn(states[16].live, Codex)| + |UnregisteredIn(states[16], Codex)| == 2 * WORKERS_PER_RUNTIME - 1
  {
    var processes, claims;
    states, events, processes, claims := ThreeMoreClaimed();
    var s := states[16];
    assert LiveIn(s.live, Codex) == {Key(Codex, 0), Key(Codex, 1)};
    assert s.workers[2] == Claimed(2) && s.workers[3] == Claimed(3) && s.workers[4] == Claimed(4);
    assert {2, 3, 4} <= UnregisteredIn(s, Codex);
    SmallerSet({2, 3, 4}, UnregisteredIn(s, Codex));
    CapacityHolds(states, events, 16, Codex);
  }
}
