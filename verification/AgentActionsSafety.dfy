/** What holds of agent actions over whole runs: budget, caps, and authority that ends with its thread. */
module AgentActionsSafety {
  import opened Prelude
  import opened RunQueue
  import opened RunQueueInvariant
  import opened RunQueueHistory
  import opened AgentTables
  import opened AgentActions

  // ---------------------------------------------------------------------------
  // Queue steps, seen from the agent's side

  lemma FireKeepsTasks(q: Queue, due: seq<Name>, now: Clock)
    requires forall i :: 0 <= i < |due| ==> due[i] in q.schedules && q.schedules[due[i]].next.Some?
    requires forall i, j :: 0 <= i < j < |due| ==> due[i] != due[j]
    ensures var q' := FireAll(q, due, now);
      && q.runs <= q'.runs && (forall i :: |q.runs| <= i < |q'.runs| ==> q'.runs[i].task.None?)
      && q'.host == q.host && q'.worker == q.worker
    decreases |due|
  {
    if due != [] {
      FireKeepsTasks(FireOne(q, due[0], now), due[1..], now);
    }
  }

  /** Only a claim gives a run its task. */
  lemma TasksOnlyByClaim(q: Queue, e: Event)
    requires Enabled(q, e) && !e.EClaim?
    ensures var q' := Step(q, e);
      && |q.runs| <= |q'.runs|
      && (forall i :: 0 <= i < |q.runs| ==> q'.runs[i].task == q.runs[i].task)
      && (forall i :: |q.runs| <= i < |q'.runs| ==> q'.runs[i].task.None?)
  {
    if e.EFire? && IsActive(q) {
      FireKeepsTasks(q, e.due, e.at);
    }
  }

  lemma NextTaskOnlyByPost(q: Queue, e: Event)
    requires Enabled(q, e) && !e.EPost? && !e.EClaim?
    ensures Step(q, e).host.nextTask == q.host.nextTask
    ensures Step(q, e).worker.Posted? ==> Step(q, e).worker == q.worker
  {
    if e.EFire? && IsActive(q) {
      FireKeepsTasks(q, e.due, e.at);
    }
  }

  lemma PostAndClaimKeepTasks(q: Queue, e: Event)
    requires TasksOk(q) && Enabled(q, e) && (e.EPost? || e.EClaim?)
    ensures TasksOk(Step(q, e))
  {
  }

  lemma StepKeepsTasksOk(q: Queue, e: Event)
    requires TasksOk(q) && Enabled(q, e)
    ensures TasksOk(Step(q, e))
  {
    if e.EPost? || e.EClaim? {
      PostAndClaimKeepTasks(q, e);
    } else {
      TasksOnlyByClaim(q, e);
      NextTaskOnlyByPost(q, e);
    }
  }

  lemma KnownStaysKnown(q: Queue, q': Queue, t: nat)
    requires Evolves(q, q') && IsKnown(q.runs, t)
    ensures IsKnown(q'.runs, t)
  {
    var i :| 0 <= i < |q.runs| && q.runs[i].task == Some(t);
    assert RunEvolves(q.runs[i], q'.runs[i]);
  }

  lemma LiveWasLive(q: Queue, e: Event, t: nat, i: nat)
    requires RowsOk(q.runs) && Enabled(q, e) && !e.EClaim? && Evolves(q, Step(q, e))
    requires i < |Step(q, e).runs| && Runs(Step(q, e).runs[i], t)
    ensures IsLive(q.runs, t)
  {
    TasksOnlyByClaim(q, e);
    assert RunEvolves(q.runs[i], Step(q, e).runs[i]);
    assert Runs(q.runs[i], t);
  }

  lemma ClaimedIsNew(q: Queue, t: nat, i: nat)
    requires RowsOk(q.runs) && TasksOk(q) && Enabled(q, EClaim)
    requires i < |ClaimRun(q).runs| && Runs(ClaimRun(q).runs[i], t)
    ensures IsLive(q.runs, t) || !IsKnown(q.runs, t)
  {
    if i != q.worker.run || !q.runs[i].phase.Pending? {
      assert Runs(q.runs[i], t);
    }
  }

  /** A step makes a task live only if nobody knew it before, and forgets no task. */
  lemma StepKeepsLiveness(q: Queue, e: Event, t: nat)
    requires Inv(q) && TasksOk(q) && Enabled(q, e)
    ensures IsKnown(q.runs, t) ==> IsKnown(Step(q, e).runs, t)
    ensures IsLive(Step(q, e).runs, t) ==> IsLive(q.runs, t) || !IsKnown(q.runs, t)
  {
    StepEvolves(q, e);
    if IsKnown(q.runs, t) {
      KnownStaysKnown(q, Step(q, e), t);
    }
    if IsLive(Step(q, e).runs, t) {
      var i :| 0 <= i < |Step(q, e).runs| && Runs(Step(q, e).runs[i], t);
      if e.EClaim? {
        ClaimedIsNew(q, t, i);
      } else {
        LiveWasLive(q, e, t, i);
      }
    }
  }

  /** What a task's rows and calls are covered by survives when it is known longer and lives no longer. */
  lemma TaskOkUnderRuns(runs: seq<Run>, runs': seq<Run>, a: Agent, base: nat, t: nat)
    requires TaskOk(runs, a, base, t)
    requires IsKnown(runs, t) ==> IsKnown(runs', t)
    requires IsLive(runs', t) ==> IsLive(runs, t) || !IsKnown(runs, t)
    ensures TaskOk(runs', a, base, t)
  {
  }

  lemma QueueStepKeepsTask(q: Queue, e: Event, a: Agent, base: nat, t: nat)
    requires Inv(q) && TasksOk(q) && Enabled(q, e) && TaskOk(q.runs, a, base, t)
    ensures TaskOk(Step(q, e).runs, a, base, t)
  {
    StepKeepsLiveness(q, e, t);
    TaskOkUnderRuns(q.runs, Step(q, e).runs, a, base, t);
  }

  // ---------------------------------------------------------------------------
  // Caps under queue steps

  lemma FireStaysWithinCaps(q: Queue, due: seq<Name>, now: Clock)
    requires forall i :: 0 <= i < |due| ==> due[i] in q.schedules && q.schedules[due[i]].next.Some?
    requires forall i, j :: 0 <= i < j < |due| ==> due[i] != due[j]
    requires SchedulesWithinCaps(q.schedules)
    ensures SchedulesWithinCaps(FireAll(q, due, now).schedules)
    decreases |due|
  {
    if due != [] {
      var q' := FireOne(q, due[0], now);
      PutSchedule(q.schedules, due[0], q'.schedules[due[0]]);
      assert q'.schedules == q.schedules[due[0] := q'.schedules[due[0]]];
      FireStaysWithinCaps(q', due[1..], now);
    }
  }

  lemma OperatorEditStaysWithinCaps(q: Queue, op: ScheduleOp, now: Clock)
    requires SchedulesWithinCaps(q.schedules) && EditSchedule(q, op, now).Ok?
    requires op.SetEnabled? || op.Delete?
    ensures SchedulesWithinCaps(EditSchedule(q, op, now).value.schedules)
  {
    if op.Delete? {
      DropSchedule(q.schedules, op.name);
    } else {
      SwitchedWithinCaps(q.schedules, op.name, op.on, now);
    }
  }

  lemma DeactivateStaysWithinCaps(q: Queue)
    requires SchedulesWithinCaps(q.schedules)
    ensures SchedulesWithinCaps(Deactivate(q).schedules)
  {
    assert Deactivate(q).schedules.Keys == q.schedules.Keys;
    assert |Deactivate(q).schedules.Keys| == |q.schedules.Keys|;
  }

  lemma QueueStepStaysWithinCaps(q: Queue, e: Event)
    requires SchedulesWithinCaps(q.schedules) && Enabled(q, e)
    requires e.EEdit? ==> e.op.SetEnabled? || e.op.Delete?
    ensures SchedulesWithinCaps(Step(q, e).schedules)
  {
    if e.EFire? {
      if IsActive(q) {
        FireStaysWithinCaps(q, e.due, e.at);
      }
    } else if e.EEdit? {
      if EditSchedule(q, e.op, e.now).Ok? {
        OperatorEditStaysWithinCaps(q, e.op, e.now);
      }
    } else if e.EDeactivate? {
      DeactivateStaysWithinCaps(q);
    } else {
      OthersKeepSchedules(q, e);
    }
  }

  // ---------------------------------------------------------------------------
  // Every step

  /** A write changes the queue only through its schedule rows. */
  lemma WriteActionEffect(s: Engine, task: nat, a: Action, now: Clock)
    ensures var s' := WriteAction(s, task, a, now);
      if WellShaped(a) && ApplyAction(TablesOf(s), IsActive(s.queue), a, now).Ok? then
        && TablesOf(s') == ApplyAction(TablesOf(s), IsActive(s.queue), a, now).value
        && (a.Scheduling? ==> EditSchedule(s.queue, StrippedOp(a.op), now) == Ok(s'.queue))
        && (!a.Scheduling? ==> s'.queue == s.queue)
      else TablesOf(s') == TablesOf(s) && s'.queue == s.queue
  {
    if WellShaped(a) && ApplyAction(TablesOf(s), IsActive(s.queue), a, now).Ok? && !a.Scheduling? {
      OtherTablesKept(TablesOf(s), IsActive(s.queue), a, now);
    }
  }

  lemma EditKeepsTasksOk(q: Queue, op: ScheduleOp, now: Clock)
    requires TasksOk(q) && EditSchedule(q, op, now).Ok?
    ensures TasksOk(EditSchedule(q, op, now).value)
  {
  }

  lemma WriteActionKeepsQueue(s: Engine, task: nat, a: Action, now: Clock)
    requires Inv(s.queue) && TasksOk(s.queue) && WithinCaps(TablesOf(s))
    ensures var s' := WriteAction(s, task, a, now);
      Inv(s'.queue) && TasksOk(s'.queue) && WithinCaps(TablesOf(s'))
  {
    WriteActionEffect(s, task, a, now);
    if WellShaped(a) && ApplyAction(TablesOf(s), IsActive(s.queue), a, now).Ok? {
      ActionStaysWithinCaps(TablesOf(s), IsActive(s.queue), a, now);
      if a.Scheduling? {
        KeepsEdit(s.queue, StrippedOp(a.op), now);
        EditKeepsTasksOk(s.queue, StrippedOp(a.op), now);
      }
    }
  }

  lemma WriteKeepsQueue(s: Engine, e: EngineEvent)
    requires Inv(s.queue) && TasksOk(s.queue) && WithinCaps(TablesOf(s)) && EngineEnabled(s, e) && e.Write?
    ensures var s' := EngineStep(s, e);
      Inv(s'.queue) && TasksOk(s'.queue) && WithinCaps(TablesOf(s'))
  {
    var flown := WithCalls(s, s.agent.calls - multiset{Counted(e.task)});
    assert TablesOf(flown) == TablesOf(s);
    WriteActionKeepsQueue(flown, e.task, e.action, e.now);
  }

  lemma AgentStepKeepsTask(s: Engine, e: EngineEvent, base: nat, t: nat)
    requires TaskOk(s.queue.runs, s.agent, base, t) && EngineEnabled(s, e) && !e.OnQueue? && !e.Write?
    ensures TaskOk(EngineStep(s, e).queue.runs, EngineStep(s, e).agent, base, t)
  {
    match e
    case Route(thread, task) => AuthorityMeansLive(s.queue, task);
    case Count(task) => CountKeepsTask(s, task, base, t);
    case WriteSentinel(task, commits) =>
      if commits { SentinelWritten(s.queue.runs, s.agent, task, base, t); } else { SentinelFailed(s.queue.runs, s.agent, task, base, t); }
    case TakeBack(task) => SentinelTakenBack(s.queue.runs, s.agent, task, base, t);
    case ForgetBudget(task) =>
    case Operate(edit) => OperateKeepsTask(s, edit, base, t);
  }

  lemma RestartKeepsTask(s: Engine, base: nat, t: nat)
    requires TaskOk(s.queue.runs, s.agent, base, t)
    ensures TaskOk(s.queue.runs, EngineStep(s, OnQueue(ERestart)).agent, base, t)
  {
  }

  lemma StepKeepsTask(s: Engine, e: EngineEvent, base: nat, t: nat)
    requires Inv(s.queue) && TasksOk(s.queue) && EngineEnabled(s, e) && TaskOk(s.queue.runs, s.agent, base, t)
    ensures TaskOk(EngineStep(s, e).queue.runs, EngineStep(s, e).agent, base, t)
  {
    if e.OnQueue? {
      QueueStepKeepsTask(s.queue, e.e, s.agent, base, t);
      if e.e.ERestart? {
        RestartKeepsTask(s, base, t);
      }
    } else if e.Write? {
      WriteKeepsTask(s, e, base, t);
    } else {
      AgentStepKeepsTask(s, e, base, t);
    }
  }

  lemma OperateEffect(s: Engine, edit: UiEdit)
    ensures OperateOn(s, edit).queue == s.queue
    ensures OperateOn(s, edit).agent.feed == s.agent.feed || OperateOn(s, edit).agent.feed == s.agent.feed + [Edited(edit)]
  {
  }

  lemma OperateKeepsQueue(s: Engine, edit: UiEdit)
    requires WithinCaps(TablesOf(s))
    ensures var s' := OperateOn(s, edit); WithinCaps(TablesOf(s')) && s'.queue == s.queue
  {
    if ApplyEdit(TablesOf(s), edit).Ok? {
      EditOfRowsStaysWithinCaps(TablesOf(s), edit);
      assert TablesOf(OperateOn(s, edit)) == ApplyEdit(TablesOf(s), edit).value;
    }
  }

  /** Routing, counting and sentinels touch neither the queue nor a table. */
  lemma CallKeepsTables(s: Engine, e: EngineEvent)
    requires EngineEnabled(s, e) && !e.OnQueue? && !e.Write? && !e.Operate?
    ensures EngineStep(s, e).queue == s.queue && TablesOf(EngineStep(s, e)) == TablesOf(s)
    ensures EngineStep(s, e).agent.feed == s.agent.feed
         || (e.WriteSentinel? && EngineStep(s, e).agent.feed == s.agent.feed + [Exhausted(e.task)])
  {
  }

  /** A step of the queue leaves all the other tables and the feed. */
  lemma QueueKeepsTables(s: Engine, e: Event)
    requires EngineEnabled(s, OnQueue(e))
    ensures var s' := EngineStep(s, OnQueue(e));
      && s'.queue == Step(s.queue, e) && s'.agent.feed == s.agent.feed
      && TablesOf(s') == TablesOf(s).(schedules := s'.queue.schedules)
  {
  }

  lemma QueueStepKeepsQueue(s: Engine, e: Event)
    requires Inv(s.queue) && TasksOk(s.queue) && WithinCaps(TablesOf(s)) && EngineEnabled(s, OnQueue(e))
    ensures var s' := EngineStep(s, OnQueue(e));
      Inv(s'.queue) && TasksOk(s'.queue) && WithinCaps(TablesOf(s'))
  {
    QueueKeepsTables(s, e);
    StepKeepsInv(s.queue, e);
    StepKeepsTasksOk(s.queue, e);
    QueueStepStaysWithinCaps(s.queue, e);
  }

  lemma StepKeepsQueue(s: Engine, e: EngineEvent)
    requires Inv(s.queue) && TasksOk(s.queue) && WithinCaps(TablesOf(s)) && EngineEnabled(s, e)
    ensures var s' := EngineStep(s, e);
      Inv(s'.queue) && TasksOk(s'.queue) && WithinCaps(TablesOf(s'))
  {
    if e.OnQueue? {
      QueueStepKeepsQueue(s, e.e);
    } else if e.Write? {
      WriteKeepsQueue(s, e);
    } else if e.Operate? {
      OperateKeepsQueue(s, e.edit);
    } else {
      CallKeepsTables(s, e);
    }
  }

  /** Every step of the engine, its agents and the host keeps the invariant. */
  lemma EngineStepKeepsInv(s: Engine, e: EngineEvent)
    requires EngineInv(s) && EngineEnabled(s, e)
    ensures EngineInv(EngineStep(s, e))
  {
    StepKeepsQueue(s, e);
    forall t ensures TaskOk(EngineStep(s, e).queue.runs, EngineStep(s, e).agent, 0, t) {
      StepKeepsTask(s, e, 0, t);
    }
  }

  // ---------------------------------------------------------------------------
  // Whole runs

  ghost predicate EngineExecution(states: seq<Engine>, events: seq<EngineEvent>) {
    && |states| == |events| + 1
    && states[0] == EMPTY_ENGINE
    && forall i :: 0 <= i < |events| ==>
         EngineEnabled(states[i], events[i]) && states[i + 1] == EngineStep(states[i], events[i])
  }

  lemma EmptyTaskOk(task: nat)
    ensures TaskOk([], EMPTY_ENGINE.agent, 0, task)
  {
    assert multiset(EMPTY_ENGINE.agent.feed) == multiset{};
  }

  lemma EmptyEngineInv()
    ensures EngineInv(EMPTY_ENGINE)
  {
    EmptyQueueInv();
    assert WithinCaps(TablesOf(EMPTY_ENGINE));
    forall task ensures TaskOk(EMPTY_ENGINE.queue.runs, EMPTY_ENGINE.agent, 0, task) {
      EmptyTaskOk(task);
    }
  }

  lemma NextEngineInv(states: seq<Engine>, events: seq<EngineEvent>, i: nat)
    requires EngineExecution(states, events) && i < |events| && EngineInv(states[i])
    ensures EngineInv(states[i + 1])
  {
    EngineStepKeepsInv(states[i], events[i]);
  }

  lemma {:induction false} ReachableEngineInv(states: seq<Engine>, events: seq<EngineEvent>, i: nat)
    requires EngineExecution(states, events) && i < |states|
    ensures EngineInv(states[i])
  {
    if i == 0 {
      EmptyEngineInv();
    } else {
      ReachableEngineInv(states, events, i - 1);
      NextEngineInv(states, events, i - 1);
    }
  }

  lemma NextKeepsTask(states: seq<Engine>, events: seq<EngineEvent>, i: nat, base: nat, task: nat)
    requires EngineExecution(states, events) && i < |events|
    requires TaskOk(states[i].queue.runs, states[i].agent, base, task)
    ensures TaskOk(states[i + 1].queue.runs, states[i + 1].agent, base, task)
  {
    ReachableEngineInv(states, events, i);
    StepKeepsTask(states[i], events[i], base, task);
  }

  lemma {:induction false} TaskOkSince(states: seq<Engine>, events: seq<EngineEvent>, i: nat, j: nat, task: nat)
    requires EngineExecution(states, events) && i <= j < |states| && !IsKnown(states[i].queue.runs, task)
    ensures TaskOk(states[j].queue.runs, states[j].agent, states[i].agent.restarts, task)
    decreases j
  {
    if i == j {
      ReachableEngineInv(states, events, i);
      assert TaskOk(states[i].queue.runs, states[i].agent, 0, task);
    } else {
      TaskOkSince(states, events, i, j - 1, task);
      NextKeepsTask(states, events, j - 1, states[i].agent.restarts, task);
    }
  }

  /**
   * The per-turn budget, under any interleaving of calls and failed sentinel
   * writes. From any moment at which no run carries the task yet: 16 applied or
   * journaled actions, and while the run is active one exhaustion row, for each
   * life of the process since then. Without a restart in between that is 16 and 1.
   */
  lemma TurnBudgetHolds(states: seq<Engine>, events: seq<EngineEvent>, i: nat, j: nat, task: nat)
    requires EngineExecution(states, events) && i <= j < |states| && !IsKnown(states[i].queue.runs, task)
    ensures states[i].agent.restarts <= states[j].agent.restarts
    ensures Journaled(states[j].agent.feed, task)
         <= MAX_ACTIONS_PER_TURN * (states[j].agent.restarts - states[i].agent.restarts + 1)
    ensures IsLive(states[j].queue.runs, task) ==>
      Sentinels(states[j].agent.feed, task) <= states[j].agent.restarts - states[i].agent.restarts + 1
  {
    TaskOkSince(states, events, i, j, task);
  }

  /** `restarts` counts exactly the restarts. */
  lemma {:induction false} RestartsAreCounted(states: seq<Engine>, events: seq<EngineEvent>, i: nat, j: nat)
    requires EngineExecution(states, events) && i <= j < |states|
    requires forall k :: i <= k < j ==> events[k] != OnQueue(ERestart)
    ensures states[j].agent.restarts == states[i].agent.restarts
    decreases j
  {
    if i < j {
      RestartsAreCounted(states, events, i, j - 1);
      assert states[j - 1 + 1] == EngineStep(states[j - 1], events[j - 1]);
      RestartsOnlyByRestart(states[j - 1], events[j - 1]);
    }
  }

  lemma RestartsOnlyByRestart(s: Engine, e: EngineEvent)
    requires EngineEnabled(s, e) && e != OnQueue(ERestart)
    ensures EngineStep(s, e).agent.restarts == s.agent.restarts
  {
  }

  /** So a turn that lives in one life of the process journals at most 16 actions and one exhaustion. */
  lemma TurnBudgetInOneLife(states: seq<Engine>, events: seq<EngineEvent>, i: nat, j: nat, task: nat)
    requires EngineExecution(states, events) && i <= j < |states| && !IsKnown(states[i].queue.runs, task)
    requires forall k :: i <= k < j ==> events[k] != OnQueue(ERestart)
    ensures Journaled(states[j].agent.feed, task) <= MAX_ACTIONS_PER_TURN
    ensures IsLive(states[j].queue.runs, task) ==> Sentinels(states[j].agent.feed, task) <= 1
  {
    TurnBudgetHolds(states, events, i, j, task);
    RestartsAreCounted(states, events, i, j);
  }

  /** The caps on counts and texts hold in every reachable state. */
  lemma CapsHold(states: seq<Engine>, events: seq<EngineEvent>, i: nat)
    requires EngineExecution(states, events) && i < |states|
    ensures WithinCaps(TablesOf(states[i]))
  {
    ReachableEngineInv(states, events, i);
  }

  // ---------------------------------------------------------------------------
  // Authority ends with the thread

  /** `task` belongs to a run on a thread that the workspace has left. */
  ghost predicate Revoked(q: Queue, task: nat) {
    exists i :: 0 <= i < |q.runs| && q.runs[i].task == Some(task) && q.runs[i].thread.Some?
      && q.runs[i].thread.value < ThreadSeq(q)
  }

  lemma RevokedHasNoAuthority(q: Queue, task: nat)
    requires TasksOk(q) && Revoked(q, task)
    ensures !HasAuthority(q, task)
  {
  }

  /** Deactivating and changing the settings leave the thread of every task behind. */
  lemma RotationRevokes(q: Queue, e: Event, task: nat)
    requires Inv(q) && Enabled(q, e) && IsKnown(q.runs, task)
    requires e.EDeactivate? || e.ESettings?
    requires ThreadSeq(Step(q, e)) != ThreadSeq(q)
    ensures Revoked(Step(q, e), task)
  {
    var i :| 0 <= i < |q.runs| && q.runs[i].task == Some(task);
    assert Step(q, e).runs[i].task == Some(task);
    assert Step(q, e).runs[i].thread == q.runs[i].thread;
  }

  lemma RevokedUnderQueue(q: Queue, q': Queue, task: nat)
    requires Evolves(q, q') && Revoked(q, task)
    ensures Revoked(q', task)
  {
    var i :| 0 <= i < |q.runs| && q.runs[i].task == Some(task) && q.runs[i].thread.Some?
      && q.runs[i].thread.value < ThreadSeq(q);
    assert RunEvolves(q.runs[i], q'.runs[i]);
  }

  lemma RevokedUnderWrite(s: Engine, e: EngineEvent, task: nat)
    requires TasksOk(s.queue) && EngineEnabled(s, e) && e.Write? && Revoked(s.queue, task)
    ensures Revoked(EngineStep(s, e).queue, task)
    ensures Journaled(EngineStep(s, e).agent.feed, task) == Journaled(s.agent.feed, task)
  {
    RevokedHasNoAuthority(s.queue, task);
    WriteEffect(s, e);
    WriteActionEffect(WithCalls(s, s.agent.calls - multiset{Counted(e.task)}), e.task, e.action, e.now);
    AppendRow(s.agent.feed, Applied(e.task, e.action, e.now), task);
    AppendRow(s.agent.feed, Rejected(e.task, e.action, e.now), task);
  }

  lemma RevokedUnderEdit(s: Engine, edit: UiEdit, task: nat)
    requires Revoked(s.queue, task)
    ensures Revoked(OperateOn(s, edit).queue, task)
    ensures Journaled(OperateOn(s, edit).agent.feed, task) == Journaled(s.agent.feed, task)
  {
    OperateEffect(s, edit);
    AppendRow(s.agent.feed, Edited(edit), task);
  }

  lemma RevokedStays(s: Engine, e: EngineEvent, task: nat)
    requires EngineInv(s) && EngineEnabled(s, e) && Revoked(s.queue, task)
    ensures Revoked(EngineStep(s, e).queue, task)
    ensures Journaled(EngineStep(s, e).agent.feed, task) == Journaled(s.agent.feed, task)
  {
    if e.OnQueue? {
      StepEvolves(s.queue, e.e);
      QueueKeepsTables(s, e.e);
      RevokedUnderQueue(s.queue, Step(s.queue, e.e), task);
    } else if e.Write? {
      RevokedUnderWrite(s, e, task);
    } else if e.Operate? {
      RevokedUnderEdit(s, e.edit, task);
    } else {
      CallKeepsTables(s, e);
      if e.WriteSentinel? {
        AppendRow(s.agent.feed, Exhausted(e.task), task);
      }
    }
  }

  /** From `s` to `s'`, a revoked task stays revoked and writes no row. */
  ghost predicate SilentStep(s: Engine, s': Engine, task: nat) {
    Revoked(s.queue, task) ==>
      Revoked(s'.queue, task) && Journaled(s'.agent.feed, task) == Journaled(s.agent.feed, task)
  }

  lemma NextIsSilent(states: seq<Engine>, events: seq<EngineEvent>, i: nat, task: nat)
    requires EngineExecution(states, events) && i < |events|
    ensures SilentStep(states[i], states[i + 1], task)
  {
    ReachableEngineInv(states, events, i);
    if Revoked(states[i].queue, task) {
      RevokedStays(states[i], events[i], task);
    }
  }

  lemma {:induction false} SilentChain(states: seq<Engine>, i: nat, j: nat, task: nat)
    requires i <= j < |states|
    requires forall k {:trigger states[k]} :: i <= k < j ==> SilentStep(states[k], states[k + 1], task)
    ensures SilentStep(states[i], states[j], task)
    decreases j
  {
    if i < j {
      SilentChain(states, i, j - 1, task);
      assert SilentStep(states[j - 1], states[j], task);
    }
  }

  /**
   * Once the thread of a task has been left behind, no action of that task is
   * applied or even journaled in any continuation, reactivation included.
   */
  lemma RevokedNeverActsAgain(states: seq<Engine>, events: seq<EngineEvent>, i: nat, j: nat, task: nat)
    requires EngineExecution(states, events) && i <= j < |states| && Revoked(states[i].queue, task)
    ensures Revoked(states[j].queue, task)
    ensures Journaled(states[j].agent.feed, task) == Journaled(states[i].agent.feed, task)
  {
    forall k {:trigger states[k]} | i <= k < j ensures SilentStep(states[k], states[k + 1], task) {
      NextIsSilent(states, events, k, task);
    }
    SilentChain(states, i, j, task);
  }

  /** And its writes leave every table as it is. */
  lemma RevokedChangesNoTable(s: Engine, e: EngineEvent)
    requires EngineInv(s) && EngineEnabled(s, e) && e.Write? && Revoked(s.queue, e.task)
    ensures TablesOf(EngineStep(s, e)) == TablesOf(s) && EngineStep(s, e).agent.feed == s.agent.feed
  {
    RevokedHasNoAuthority(s.queue, e.task);
    UnauthorizedWritesNothing(s, e);
  }
}
