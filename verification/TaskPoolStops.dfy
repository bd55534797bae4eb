/** What a kill and a stop reach: how tasks end, and that no registered process of theirs is left alone. */
module TaskPoolStops {
  import opened TaskStatus
  import opened TaskPool
  import opened TaskPoolInvariant
  import opened TaskPoolSafety
  import opened TaskPoolHistory

  // ---------------------------------------------------------------------------
  // How a task ends

  /** The worker of running task `t` reports this end: a turn that failed, gave up or could not start has failed. */
  predicate WorkerEnds(s: Pool, e: Event, t: nat, status: Status)
    requires Enabled(s, e)
  {
    match e
    case GiveUp(w) => s.workers[w].task == t && status == Failed
    case FailToStart(w) => s.workers[w].task == t && status == Failed
    case Start(w) =>
      var p := s.processes[s.workers[w].server];
      s.workers[w].task == t && p.key.runtime.Hermes? && p.state.Down? && status == Failed
    case Finish(w, ok) => s.workers[w].task == t && status == (if ok then Completed else Failed)
    case _ => false
  }

  /** An operator ends task `t`: a queued one by a cancellation, a running one by a kill or a stop. */
  predicate OperatorEnds(s: Pool, e: Event, t: nat, status: Status)
    requires t < |s.tasks|
  {
    match e
    case Cancel(u) => u == t && s.tasks[t].status == Queued && status == Cancelled
    case Kill(u) => u == t && s.tasks[t].status == Running && status == Cancelled
    case StopRuntime(r) => r == s.tasks[t].key.runtime && s.tasks[t].status == Running && status == Failed
    case _ => false
  }

  /** A task ends exactly by its running worker's report or by an operator, and with exactly that status. */
  lemma HowATaskEnds(s: Pool, e: Event, s': Pool, t: nat, status: Status)
    requires Enabled(s, e) && s' == Step(s, e) && t < |s.tasks| && !Terminal(s.tasks[t].status) && Terminal(status)
    ensures t < |s'.tasks| && s'.tasks[t].key == s.tasks[t].key
    ensures s'.tasks[t].status == status <==>
      OperatorEnds(s, e, t, status) || (s.tasks[t].status == Running && WorkerEnds(s, e, t, status))
  {
  }

  // ---------------------------------------------------------------------------
  // One look-up

  /** Once more for each process that has an entry of this runtime, and as often as before for every other one. */
  ghost predicate WantedOnceMore(s: Pool, r: Runtime, s': Pool) {
    forall p: nat :: s'.closers.wanted[p] == s.closers.wanted[p] + if HasEntryOn(s, r, p) then 1 else 0
  }

  predicate HasEntryOn(s: Pool, r: Runtime, p: nat) {
    exists k :: k in s.live && k.runtime == r && s.live[k].server == p
  }

  /** The second half of a stop: each process registered for the runtime is wanted by one more closer, and no other. */
  lemma StopFindsItsProcesses(s: Pool, r: Runtime, s': Pool)
    requires Enabled(s, Collect(r)) && s' == Step(s, Collect(r))
    ensures WantedOnceMore(s, r, s')
    ensures s'.closers.stops == s.closers.stops - multiset{r}
    ensures s' == s.(closers := s.closers.(stops := s'.closers.stops, wanted := s'.closers.wanted))
  {
    forall p: nat
      ensures s'.closers.wanted[p] == s.closers.wanted[p] + if HasEntryOn(s, r, p) then 1 else 0
    {
      assert p in ServersOf(s.live, r) <==> HasEntryOn(s, r, p);
    }
  }

  predicate HasEntryOf(s: Pool, t: nat, p: nat) {
    exists k :: k in s.live && s.live[k].task == t && s.live[k].server == p
  }

  /** The second half of a kill: the process that is registered for the task is wanted, and no other. */
  lemma KillFindsItsProcess(s: Pool, t: nat, s': Pool)
    requires Inv(s) && Enabled(s, LookUp(t)) && s' == Step(s, LookUp(t))
    ensures forall p: nat :: s'.closers.wanted[p] == s.closers.wanted[p] + if HasEntryOf(s, t, p) then 1 else 0
    ensures t !in s'.closers.lookups
  {
    forall k | k in s.live && s.live[k].task == t
      ensures k == s.tasks[t].key
    {
      assert EntryOk(k, s.live[k], s.processes);
      assert ProcessOk(s.tasks, s.processes[s.live[k].server]);
    }
  }

  // ---------------------------------------------------------------------------
  // Over whole runs

  predicate IsLeavingWith(p: Phase, server: nat) {
    p.Leaving? && p.server == server
  }

  predicate IsOperatorsCloser(c: Closers, p: nat) {
    p in c.wanted || p in c.owned || p in c.dropping
  }

  /** Somebody still has to close process `p`, or does. */
  predicate HasCloser(s: Pool, p: nat) {
    || IsOperatorsCloser(s.closers, p)
    || exists w :: 0 <= w < |s.workers| && IsLeavingWith(s.workers[w], p)
  }

  /** A kill or a stop that has ended its task still has to look the process up. */
  predicate IsSought(s: Pool, p: nat) {
    p < |s.processes| && (s.processes[p].key.runtime in s.closers.stops || s.processes[p].task in s.closers.lookups)
  }

  /** The process has left the registry, or a close of it raised and fenced its thread. */
  predicate IsSettled(s: Pool, p: nat) {
    p < |s.processes|
    && (!Registered(s.live, s.processes[p].key, p) || Fenced(s, s.processes[p].key))
  }

  predicate Reached(s: Pool, p: nat) {
    p < |s.processes| && (IsSought(s, p) || HasCloser(s, p) || IsSettled(s, p))
  }

  /** An entry that somebody has taken is being closed, or its thread is fenced. */
  lemma TakenIsInHand(s: Pool, p: nat)
    requires p < |s.processes| && Registered(s.live, s.processes[p].key, p) && s.live[s.processes[p].key].closing
    ensures HasCloser(s, p) || IsSettled(s, p)
  {
    if IsClosing(s, p) {
      if p !in s.closers.owned && p !in s.closers.dropping {
        var w :| 0 <= w < |s.workers| && Closes(s.workers[w], p);
        assert IsLeavingWith(s.workers[w], p);
      }
    }
  }

  /** Whoever takes or holds a process has its entry marked. */
  lemma CloserHasTaken(s: Pool, p: nat)
    requires Inv(s) && p < |s.processes| && Registered(s.live, s.processes[p].key, p)
    requires p in s.closers.owned || p in s.closers.dropping || WorkerCloses(s.workers, p)
    ensures s.live[s.processes[p].key].closing
  {
    assert EntryOk(s.processes[p].key, s.live[s.processes[p].key], s.processes);
  }

  lemma ProcessKeeps(s: Pool, e: Event, s': Pool, p: nat)
    requires Enabled(s, e) && s' == Step(s, e) && p < |s.processes|
    ensures p < |s'.processes| && s'.processes[p].key == s.processes[p].key && s'.processes[p].task == s.processes[p].task
  {
  }

  /** A process never comes back into the registry, and its mark stays. */
  lemma EntryKeeps(s: Pool, e: Event, s': Pool, k: Key, p: nat)
    requires Enabled(s, e) && s' == Step(s, e) && p < |s.processes| && Registered(s'.live, k, p)
    ensures Registered(s.live, k, p) && (s.live[k].closing ==> s'.live[k].closing)
  {
  }

  lemma UnregisteredStays(s: Pool, e: Event, s': Pool, p: nat)
    requires Enabled(s, e) && s' == Step(s, e) && p < |s.processes|
    ensures p < |s'.processes| && s'.processes[p].key == s.processes[p].key && s'.processes[p].task == s.processes[p].task
    ensures Registered(s'.live, s.processes[p].key, p) ==> Registered(s.live, s.processes[p].key, p)
    ensures Registered(s'.live, s.processes[p].key, p) && s.live[s.processes[p].key].closing ==>
      s'.live[s.processes[p].key].closing
  {
    ProcessKeeps(s, e, s', p);
    if Registered(s'.live, s.processes[p].key, p) {
      EntryKeeps(s, e, s', s.processes[p].key, p);
    }
  }

  lemma SoughtStays(s: Pool, e: Event, s': Pool, r: Runtime, t: nat)
    requires Enabled(s, e) && s' == Step(s, e)
    ensures r in s.closers.stops && e != Collect(r) ==> r in s'.closers.stops
    ensures t in s.closers.lookups && e != LookUp(t) ==> t in s'.closers.lookups
  {
  }

  /** A look-up wants the process if it is still registered. */
  lemma SoughtIsReached(s: Pool, e: Event, s': Pool, p: nat)
    requires Inv(s) && Enabled(s, e) && s' == Step(s, e) && IsSought(s, p)
    ensures Reached(s', p)
  {
    var k, t := s.processes[p].key, s.processes[p].task;
    UnregisteredStays(s, e, s', p);
    SoughtStays(s, e, s', k.runtime, t);
    if Registered(s'.live, k, p) {
      if e == Collect(k.runtime) {
        CollectFinds(s, e.runtime, s', p);
      } else if e == LookUp(t) {
        LookUpFinds(s, s', p);
      }
    }
  }

  lemma LookUpFinds(s: Pool, s': Pool, p: nat)
    requires Inv(s) && p < |s.processes| && Registered(s.live, s.processes[p].key, p)
    requires Enabled(s, LookUp(s.processes[p].task)) && s' == Step(s, LookUp(s.processes[p].task))
    ensures Reached(s', p)
  {
    assert EntryOk(s.processes[p].key, s.live[s.processes[p].key], s.processes);
    assert ProcessOk(s.tasks, s.processes[p]);
    assert p in s'.closers.wanted;
  }

  lemma CollectFinds(s: Pool, r: Runtime, s': Pool, p: nat)
    requires Enabled(s, Collect(r)) && s' == Step(s, Collect(r)) && p < |s.processes|
    requires Registered(s.live, s.processes[p].key, p) && IsSought(s, p)
    ensures Reached(s', p)
  {
    if s.processes[p].key.runtime == r {
      StopFindsItsProcesses(s, r, s');
      assert s.live[s.processes[p].key].server == p;
      assert HasEntryOn(s, r, p);
    }
  }

  predicate IsLeavingStep(e: Event) {
    e.WorkerTakes? || e.WorkerShuts? || e.WorkerDrops?
  }

  lemma LeavingWorkerStays(s: Pool, e: Event, s': Pool, w: nat)
    requires Enabled(s, e) && s' == Step(s, e) && w < |s.workers| && s.workers[w].Leaving?
    requires !IsLeavingStep(e) || e.worker != w
    ensures w < |s'.workers| && s'.workers[w] == s.workers[w]
  {
  }

  lemma LeavingWorkerMoves(s: Pool, e: Event, s': Pool, p: nat)
    requires Inv(s) && Enabled(s, e) && s' == Step(s, e) && IsLeavingStep(e) && p == s.workers[e.worker].server
    ensures IsLeavingWith(s'.workers[e.worker], p) || !Registered(s'.live, s.processes[p].key, p) || s'.live[s.processes[p].key].closing
  {
    if e.WorkerShuts? {
      assert Closes(s.workers[e.worker], p);
      WorkerHasTaken(s, e.worker, p);
    }
  }

  lemma WorkerCloserStays(s: Pool, e: Event, s': Pool, p: nat, w: nat)
    requires Inv(s) && Enabled(s, e) && s' == Step(s, e) && p < |s.processes|
    requires w < |s.workers| && IsLeavingWith(s.workers[w], p)
    ensures HasCloser(s', p) || !Registered(s'.live, s.processes[p].key, p) || s'.live[s.processes[p].key].closing
  {
    if IsLeavingStep(e) && e.worker == w {
      SameWorkers(s, e, s');
      LeavingWorkerMoves(s, e, s', p);
    } else {
      LeavingWorkerStays(s, e, s', w);
    }
  }

  lemma WorkerHasTaken(s: Pool, w: nat, p: nat)
    requires Inv(s) && p < |s.processes| && w < |s.workers| && Closes(s.workers[w], p)
    ensures Registered(s.live, s.processes[p].key, p) ==> s.live[s.processes[p].key].closing
  {
    if Registered(s.live, s.processes[p].key, p) {
      CloserHasTaken(s, p);
    }
  }

  predicate IsOperatorsCall(e: Event) {
    e.OperatorTakes? || e.OperatorShuts? || e.OperatorDrops?
  }

  /** Only the closers' own steps take a process from them. */
  lemma ClosersStay(s: Pool, e: Event, s': Pool, p: nat)
    requires Enabled(s, e) && s' == Step(s, e) && p < |s.processes| && IsOperatorsCloser(s.closers, p)
    requires !IsOperatorsCall(e) || e.server != p
    ensures IsOperatorsCloser(s'.closers, p)
  {
  }

  lemma OperatorCloserStays(s: Pool, e: Event, s': Pool, p: nat)
    requires Inv(s) && Enabled(s, e) && s' == Step(s, e) && p < |s.processes| && IsOperatorsCloser(s.closers, p)
    ensures HasCloser(s', p) || !Registered(s'.live, s.processes[p].key, p) || s'.live[s.processes[p].key].closing
  {
    if IsOperatorsCall(e) && e.server == p {
      OwnCallMovesOn(s, e, s', p);
    } else {
      ClosersStay(s, e, s', p);
    }
  }

  lemma OwnCallMovesOn(s: Pool, e: Event, s': Pool, p: nat)
    requires Inv(s) && Enabled(s, e) && s' == Step(s, e) && p < |s.processes| && IsOperatorsCall(e) && e.server == p
    ensures IsOperatorsCloser(s'.closers, p) || !Registered(s'.live, s.processes[p].key, p) || s'.live[s.processes[p].key].closing
  {
    if e.OperatorShuts? && Registered(s.live, s.processes[p].key, p) {
      CloserHasTaken(s, p);
    }
  }

  lemma CloserStays(s: Pool, e: Event, s': Pool, p: nat)
    requires Inv(s) && Enabled(s, e) && s' == Step(s, e) && p < |s.processes| && HasCloser(s, p)
    ensures Reached(s', p)
  {
    UnregisteredStays(s, e, s', p);
    if IsOperatorsCloser(s.closers, p) {
      OperatorCloserStays(s, e, s', p);
    } else {
      var w :| 0 <= w < |s.workers| && IsLeavingWith(s.workers[w], p);
      WorkerCloserStays(s, e, s', p, w);
    }
    if Registered(s'.live, s'.processes[p].key, p) && s'.live[s'.processes[p].key].closing {
      TakenIsInHand(s', p);
    }
  }

  lemma SettledStays(s: Pool, e: Event, s': Pool, p: nat)
    requires Inv(s) && Enabled(s, e) && s' == Step(s, e) && IsSettled(s, p)
    ensures Reached(s', p)
  {
    UnregisteredStays(s, e, s', p);
    if Registered(s'.live, s'.processes[p].key, p) {
      TakenIsInHand(s', p);
    }
  }

  lemma StepKeepsReached(s: Pool, e: Event, s': Pool, p: nat)
    requires Inv(s) && Enabled(s, e) && s' == Step(s, e) && Reached(s, p)
    ensures Reached(s', p)
  {
    if IsSought(s, p) {
      SoughtIsReached(s, e, s', p);
    } else if HasCloser(s, p) {
      CloserStays(s, e, s', p);
    } else {
      SettledStays(s, e, s', p);
    }
  }

  lemma NextReached(states: seq<Pool>, events: seq<Event>, i: nat, p: nat)
    requires Execution(states, events) && i < |events| && Reached(states[i], p)
    ensures Reached(states[i + 1], p)
  {
    ReachableInv(states, events, i);
    StepKeepsReached(states[i], events[i], states[i + 1], p);
  }

  lemma {:induction false} ReachedAlong(states: seq<Pool>, events: seq<Event>, i: nat, j: nat, p: nat)
    requires Execution(states, events) && i <= j < |states| && Reached(states[i], p)
    ensures Reached(states[j], p)
    decreases j
  {
    if i < j {
      ReachedAlong(states, events, i, j - 1, p);
      NextReached(states, events, j - 1, p);
    }
  }

  /** The step stops the runtime of process `p` or kills its running task. */
  predicate StopsOrKills(s: Pool, e: Event, p: nat) {
    && p < |s.processes| && s.processes[p].task < |s.tasks|
    && match e
       case StopRuntime(r) => s.processes[p].key.runtime == r
       case Kill(t) => s.processes[p].task == t && s.tasks[t].status == Running
       case _ => false
  }

  lemma StopSeeks(s: Pool, e: Event, s': Pool, p: nat)
    requires Enabled(s, e) && s' == Step(s, e) && StopsOrKills(s, e, p)
    ensures Reached(s', p)
  {
  }

  lemma NextSought(states: seq<Pool>, events: seq<Event>, i: nat, p: nat)
    requires Execution(states, events) && i < |events| && StopsOrKills(states[i], events[i], p)
    ensures Reached(states[i + 1], p)
  {
    StopSeeks(states[i], events[i], states[i + 1], p);
  }

  /**
   * A stop of a runtime, or a kill of a running task, reaches the processes that
   * exist at that moment, in every run. Whenever afterwards nobody still has to
   * look such a process up, to close it or to leave with it, it has left the
   * registry or its thread is fenced by a close that raised; and in a timely run
   * it is then not up any more, or fenced.
   */
  lemma StopReachesEveryProcess(states: seq<Pool>, events: seq<Event>, i: nat, j: nat, p: nat)
    requires Execution(states, events) && i < j < |states| && StopsOrKills(states[i], events[i], p)
    ensures p < |states[j].processes|
    ensures IsSought(states[j], p) || HasCloser(states[j], p) || IsSettled(states[j], p)
    ensures TimelyRun(states, events, j) && !IsSought(states[j], p) && !HasCloser(states[j], p) ==>
      !states[j].processes[p].state.Up? || Fenced(states[j], states[j].processes[p].key)
  {
    NextSought(states, events, i, p);
    ReachedAlong(states, events, i + 1, j, p);
    if TimelyRun(states, events, j) {
      ClosedByOneCaller(states, events, j, p);
    }
  }
}
