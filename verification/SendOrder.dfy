/**
 * What an operator must not do for messages to arrive in send order: discard a
 * message while its steer is in flight to a turn that still runs on the host.
 * Nothing else can break the order, and this always can.
 */
module SendOrder {
  import opened Prelude
  import opened TaskStatus
  import opened RunQueue
  import opened RunQueueInvariant
  import opened RunQueueHistory
  import opened AgentActions
  import opened AgentActionsSafety

  // ---------------------------------------------------------------------------
  // What the engine has seen of the host is never ahead of the host

  /** The host has moved the task on from its queue, or has forgotten it. */
  predicate Begun(h: Host, task: nat) {
    task in h.tasks ==> h.tasks[task] != Queued
  }

  predicate Over(h: Host, task: nat) {
    task in h.tasks ==> Terminal(h.tasks[task])
  }

  predicate ObservationOk(h: Host, task: nat, answer: Answer, phase: Phase) {
    match answer
    case Is(s) =>
      if s == Queued then phase != Active(Running)
      else if s == Running then Begun(h, task)
      else Over(h, task)
    case Missing => Over(h, task)
    case TooLarge => Over(h, task)
  }

  ghost predicate SeenOk(q: Queue) {
    && (forall i :: 0 <= i < |q.runs| && q.runs[i].phase == Active(Running) && q.runs[i].task.Some? ==>
          Begun(q.host, q.runs[i].task.value))
    && (q.worker.Observed? && q.worker.run < |q.runs| && q.runs[q.worker.run].task.Some? ==>
          ObservationOk(q.host, q.runs[q.worker.run].task.value, q.worker.answer, q.runs[q.worker.run].phase))
  }

  /** The active run whose turn the engine saw running. */
  ghost predicate TurnRuns(runs: seq<Run>, task: nat) {
    exists i :: 0 <= i < |runs| && runs[i].phase == Active(Running) && runs[i].task == Some(task)
  }

  /** A steer goes to a task that has begun; while the host still runs it, the engine has its turn active. */
  ghost predicate SteerTasksOk(q: Queue) {
    forall r :: r in q.steers ==>
      var t := q.steers[r].task;
      t < q.host.nextTask && Begun(q.host, t) && (HostRunning(q, t) ==> TurnRuns(q.runs, t))
  }

  ghost predicate HostInv(q: Queue) {
    Inv(q) && TasksOk(q) && SeenOk(q) && SteerTasksOk(q)
  }

  lemma EmptyHostInv()
    ensures HostInv(EMPTY_QUEUE)
  {
    EmptyQueueInv();
  }

  lemma FireKeepsRest(q: Queue, due: seq<Name>, now: Clock)
    requires forall i :: 0 <= i < |due| ==> due[i] in q.schedules && q.schedules[due[i]].next.Some?
    requires forall i, j :: 0 <= i < j < |due| ==> due[i] != due[j]
    ensures FireAll(q, due, now).steers == q.steers && FireAll(q, due, now).workspace == q.workspace
    decreases |due|
  {
    if due != [] {
      FireKeepsRest(FireOne(q, due[0], now), due[1..], now);
    }
  }

  /** Known tasks only move on; new numbers are new. */
  lemma HostMovesOn(q: Queue, e: Event, q': Queue, t: nat)
    requires Enabled(q, e) && q' == Step(q, e) && t < q.host.nextTask
    ensures t < q'.host.nextTask && (t in q'.host.tasks ==> t in q.host.tasks)
    ensures t in q'.host.tasks ==>
      q'.host.tasks[t] == q.host.tasks[t] || q'.host.tasks[t] in Transitions(q.host.tasks[t])
  {
    if e.EFire? && IsActive(q) {
      FireKeepsTasks(q, e.due, e.at);
    }
  }

  lemma BegunStaysBegun(q: Queue, e: Event, q': Queue, t: nat)
    requires Enabled(q, e) && q' == Step(q, e) && t < q.host.nextTask
    ensures Begun(q.host, t) ==> Begun(q'.host, t)
    ensures Over(q.host, t) ==> Over(q'.host, t)
    ensures Begun(q.host, t) && HostRunning(q', t) ==> HostRunning(q, t)
  {
    HostMovesOn(q, e, q', t);
  }

  /** An active run changes only when it is reaped. */
  lemma ActiveStays(q: Queue, e: Event, q': Queue, i: nat)
    requires QWorkerOk(q) && Enabled(q, e) && q' == Step(q, e) && !e.EReap?
    requires i < |q.runs| && q.runs[i].phase.Active?
    ensures i < |q'.runs| && q'.runs[i] == q.runs[i]
  {
    if e.EFire? && IsActive(q) {
      FireKeepsRow(q, e.due, e.at, i);
    }
  }

  lemma CallsKeepRunning(q: Queue, e: Event, q': Queue, i: nat)
    requires Enabled(q, e) && q' == Step(q, e)
    requires e.EReplySteer? || e.EFinishSteer? || e.EObserve? || e.ESelect? || e.EEdit? || IsHostStep(e)
    requires i < |q'.runs| && q'.runs[i].phase == Active(Running)
    ensures i < |q.runs| && q.runs[i] == q'.runs[i]
  {
  }

  lemma DispatchKeepsRunning(q: Queue, e: Event, q': Queue, i: nat)
    requires Enabled(q, e) && q' == Step(q, e) && (e.ECompose? || e.EPost? || e.EClaim?)
    requires i < |q'.runs| && q'.runs[i].phase == Active(Running)
    ensures i < |q.runs| && q.runs[i] == q'.runs[i]
  {
  }

  lemma OperatorKeepsRunning(q: Queue, e: Event, q': Queue, i: nat)
    requires Enabled(q, e) && q' == Step(q, e)
    requires e.ESend? || e.EInteract? || e.EActivate? || e.EDeactivate? || e.ESettings? || e.EDiscard?
    requires i < |q'.runs| && q'.runs[i].phase == Active(Running)
    ensures i < |q.runs| && q.runs[i] == q'.runs[i]
  {
  }

  lemma RunningIsOld(q: Queue, e: Event, q': Queue, i: nat)
    requires Enabled(q, e) && q' == Step(q, e) && !e.EReap? && RowsOk(q'.runs)
    requires i < |q'.runs| && q'.runs[i].phase == Active(Running)
    ensures i < |q.runs| && q.runs[i] == q'.runs[i]
  {
    if e.EFire? {
      FireKeepsActive(q, e, q', i);
    } else if e.ECompose? || e.EPost? || e.EClaim? {
      DispatchKeepsRunning(q, e, q', i);
    } else if e.ESend? || e.EInteract? || e.EActivate? || e.EDeactivate? || e.ESettings? || e.EDiscard? {
      OperatorKeepsRunning(q, e, q', i);
    } else {
      CallsKeepRunning(q, e, q', i);
    }
  }

  lemma FireKeepsActive(q: Queue, e: Event, q': Queue, i: nat)
    requires Enabled(q, e) && q' == Step(q, e) && e.EFire? && RowsOk(q'.runs)
    requires i < |q'.runs| && q'.runs[i].phase.Active?
    ensures i < |q.runs| && q.runs[i] == q'.runs[i]
  {
    if IsActive(q) {
      FireKeepsTasks(q, e.due, e.at);
    }
  }

  lemma ReapedRow(q: Queue, q': Queue)
    requires SeenOk(q) && Enabled(q, EReap) && q' == Step(q, EReap) && q.runs[q.worker.run].task.Some?
    ensures var t := q.runs[q.worker.run].task.value;
      && (q'.runs[q.worker.run].phase == Active(Running) ==> Begun(q'.host, t))
      && (q.runs[q.worker.run].phase == Active(Running) && HostRunning(q', t) ==>
            q'.runs[q.worker.run] == q.runs[q.worker.run])
  {
  }

  lemma StepKeepsSeenRows(q: Queue, e: Event, q': Queue, i: nat)
    requires HostInv(q) && Enabled(q, e) && q' == Step(q, e) && RowsOk(q'.runs)
    requires i < |q'.runs| && q'.runs[i].phase == Active(Running) && q'.runs[i].task.Some?
    ensures Begun(q'.host, q'.runs[i].task.value)
  {
    if e.EReap? && i == q.worker.run {
      ReapedRow(q, q');
    } else {
      if !e.EReap? {
        RunningIsOld(q, e, q', i);
      }
      BegunStaysBegun(q, e, q', q.runs[i].task.value);
    }
  }

  lemma ObservedIsOld(q: Queue, e: Event, q': Queue)
    requires Enabled(q, e) && q' == Step(q, e) && q'.worker.Observed?
    ensures (e.EObserve? && q'.worker == Observed(e.observed, e.answer)) || (q'.worker == q.worker && !e.EReap? && !e.EObserve?)
  {
    if e.EFire? && IsActive(q) {
      FireKeepsTasks(q, e.due, e.at);
    }
  }

  lemma ObservationStays(q: Queue, e: Event, q': Queue, t: nat, answer: Answer, phase: Phase)
    requires Enabled(q, e) && q' == Step(q, e) && t < q.host.nextTask && ObservationOk(q.host, t, answer, phase)
    ensures ObservationOk(q'.host, t, answer, phase)
  {
    BegunStaysBegun(q, e, q', t);
  }

  lemma StepKeepsObservation(q: Queue, e: Event, q': Queue)
    requires HostInv(q) && Enabled(q, e) && q' == Step(q, e) && q'.worker.Observed?
    requires q'.worker.run < |q'.runs| && q'.runs[q'.worker.run].task.Some?
    ensures ObservationOk(q'.host, q'.runs[q'.worker.run].task.value, q'.worker.answer, q'.runs[q'.worker.run].phase)
  {
    ObservedIsOld(q, e, q');
    if !e.EObserve? {
      ActiveStays(q, e, q', q.worker.run);
      ObservationStays(q, e, q', q.runs[q.worker.run].task.value, q.worker.answer, q.runs[q.worker.run].phase);
    }
  }

  lemma TargetRuns(runs: seq<Run>, from: nat)
    requires from <= |runs| && RunningTask(runs, from).Some?
    ensures TurnRuns(runs, RunningTask(runs, from).value)
    decreases |runs| - from
  {
    if runs[from].phase != Active(Running) {
      TargetRuns(runs, from + 1);
    }
  }

  /** A steer is as old as before, or belongs to a message that was just sent to the running turn. */
  lemma SteerFate(q: Queue, e: Event, q': Queue, r: nat)
    requires Enabled(q, e) && q' == Step(q, e) && r in q'.steers
    ensures (r in q.steers && q'.steers[r].task == q.steers[r].task && (q'.steers[r].Calling? ==> q.steers[r].Calling?))
         || (r == |q.runs| && (e.ESend? || e.EInteract?) && SteerTarget(q.runs) == Some(q'.steers[r].task)
             && q'.host == q.host && q'.runs == q.runs + [Run(Chat, Pending, None, None)])
  {
    if e.EFire? && IsActive(q) {
      FireKeepsRest(q, e.due, e.at);
    }
  }

  lemma TurnStays(q: Queue, e: Event, q': Queue, t: nat)
    requires HostInv(q) && Enabled(q, e) && q' == Step(q, e) && TurnRuns(q.runs, t) && HostRunning(q', t)
    ensures TurnRuns(q'.runs, t)
  {
    var i :| 0 <= i < |q.runs| && q.runs[i].phase == Active(Running) && q.runs[i].task == Some(t);
    if e.EReap? {
      ReapedRow(q, q');
    } else {
      ActiveStays(q, e, q', i);
    }
    assert q'.runs[i] == q.runs[i];
  }

  lemma StepKeepsSteerTask(q: Queue, e: Event, q': Queue, r: nat)
    requires HostInv(q) && Enabled(q, e) && q' == Step(q, e) && r in q'.steers
    ensures var t := q'.steers[r].task;
      t < q'.host.nextTask && Begun(q'.host, t) && (HostRunning(q', t) ==> TurnRuns(q'.runs, t))
  {
    var t := q'.steers[r].task;
    SteerFate(q, e, q', r);
    if r in q.steers && q.steers[r].task == t {
      BegunStaysBegun(q, e, q', t);
      HostMovesOn(q, e, q', t);
      if HostRunning(q', t) {
        TurnStays(q, e, q', t);
      }
    } else {
      TargetRuns(q.runs, 0);
      var i :| 0 <= i < |q.runs| && q.runs[i].phase == Active(Running) && q.runs[i].task == Some(t);
      assert q'.runs[i] == q.runs[i];
    }
  }

  lemma StepKeepsHostInv(q: Queue, e: Event, q': Queue)
    requires HostInv(q) && Enabled(q, e) && q' == Step(q, e)
    ensures HostInv(q')
  {
    StepKeepsInv(q, e);
    StepKeepsTasksOk(q, e);
    forall i | 0 <= i < |q'.runs| && q'.runs[i].phase == Active(Running) && q'.runs[i].task.Some?
      ensures Begun(q'.host, q'.runs[i].task.value)
    {
      StepKeepsSeenRows(q, e, q', i);
    }
    if q'.worker.Observed? && q'.worker.run < |q'.runs| && q'.runs[q'.worker.run].task.Some? {
      StepKeepsObservation(q, e, q');
    }
    forall r | r in q'.steers
      ensures var t := q'.steers[r].task;
        t < q'.host.nextTask && Begun(q'.host, t) && (HostRunning(q', t) ==> TurnRuns(q'.runs, t))
    {
      StepKeepsSteerTask(q, e, q', r);
    }
  }

  // ---------------------------------------------------------------------------
  // Nothing else breaks the order

  /** The operator discards a message while its steer is in flight to a turn that the host still runs. */
  predicate DiscardsInFlight(q: Queue, e: Event) {
    && e.EDiscard? && e.run in q.steers && e.run !in q.deliveries
    && e.run < |q.runs| && PendingChat(q.runs[e.run]) && HostRunning(q, q.steers[e.run].task)
  }

  /** The workspace is stopped, and no message newer than `r` was delivered or can be. */
  ghost predicate Stopped(q: Queue, r: nat) {
    && !IsActive(q) && (forall d :: d in q.deliveries ==> d <= r) && (forall x :: x in q.steers ==> x <= r)
  }

  /** A steer that the host may still accept is that of a waiting message, or of the last one before a deactivation. */
  ghost predicate SteerSafe(q: Queue, r: nat)
    requires r in q.steers
  {
    r in q.deliveries || !HostRunning(q, q.steers[r].task) || (r < |q.runs| && PendingChat(q.runs[r])) || Stopped(q, r)
  }

  ghost predicate SteersSafe(q: Queue) {
    forall r :: r in q.steers ==> SteerSafe(q, r)
  }

  lemma DeliveriesOnlyGrow(q: Queue, e: Event, q': Queue, r: nat)
    requires Enabled(q, e) && q' == Step(q, e) && r in q.deliveries
    ensures r in q'.deliveries
  {
    DeliveriesGrow(q, e);
  }

  /** While the turn runs, a stopped workspace stays stopped. */
  lemma StaysInactive(q: Queue, e: Event, q': Queue, t: nat)
    requires Enabled(q, e) && q' == Step(q, e) && !IsActive(q) && TurnRuns(q.runs, t)
    ensures !IsActive(q')
  {
    assert AnyActive(q.runs);
  }

  /** Nothing is dispatched while a turn is active. */
  lemma NoDispatchNow(q: Queue, e: Event, t: nat)
    requires QWorkerOk(q) && Enabled(q, e) && TurnRuns(q.runs, t)
    ensures !e.EPost?
  {
  }

  lemma StoppedDeliveries(q: Queue, e: Event, q': Queue, r: nat, t: nat)
    requires QWorkerOk(q) && Enabled(q, e) && q' == Step(q, e) && Stopped(q, r) && TurnRuns(q.runs, t)
    ensures forall d :: d in q'.deliveries ==> d <= r
  {
    NoDispatchNow(q, e, t);
    DeliveriesGrow(q, e);
  }

  lemma StoppedSteers(q: Queue, e: Event, q': Queue, r: nat, x: nat)
    requires Enabled(q, e) && q' == Step(q, e) && Stopped(q, r) && !IsActive(q') && x in q'.steers
    ensures x <= r
  {
    SteerFate(q, e, q', x);
    if x !in q.steers {
      NewSteerMeansActive(q, e, q', x);
    }
  }

  lemma StoppedStays(q: Queue, e: Event, q': Queue, r: nat)
    requires HostInv(q) && Enabled(q, e) && q' == Step(q, e) && r in q.steers && r in q'.steers && Stopped(q, r)
    requires TurnRuns(q.runs, q.steers[r].task)
    ensures Stopped(q', r)
  {
    StaysInactive(q, e, q', q.steers[r].task);
    StoppedDeliveries(q, e, q', r, q.steers[r].task);
    forall x | x in q'.steers ensures x <= r {
      StoppedSteers(q, e, q', r, x);
    }
  }

  lemma NewSteerMeansActive(q: Queue, e: Event, q': Queue, x: nat)
    requires Enabled(q, e) && q' == Step(q, e) && (e.ESend? || e.EInteract?) && x in q'.steers && x !in q.steers
    ensures IsActive(q')
  {
  }

  /** A deactivation withdraws messages when nothing newer than a steered one is about. */
  lemma DeactivatedInTime(q: Queue, q': Queue, r: nat)
    requires HostInv(q) && q' == Deactivate(q) && r in q.steers && r < |q.runs| && PendingChat(q.runs[r])
    ensures Stopped(q', r)
  {
    assert IsActive(q);
    assert q'.steers == q.steers && q'.deliveries == q.deliveries;
  }

  lemma PendingSteerStays(q: Queue, e: Event, q': Queue, r: nat)
    requires HostInv(q) && Enabled(q, e) && q' == Step(q, e) && !DiscardsInFlight(q, e)
    requires r in q.steers && r in q'.steers && r !in q'.deliveries && HostRunning(q, q.steers[r].task)
    requires r < |q.runs| && PendingChat(q.runs[r])
    ensures (r < |q'.runs| && PendingChat(q'.runs[r])) || Stopped(q', r)
  {
    WaysOutOfTheQueue(q, e, r);
    if r in q.deliveries {
      DeliveriesOnlyGrow(q, e, q', r);
    }
    if e.EDeactivate? {
      DeactivatedInTime(q, q', r);
    } else {
      StepEvolves(q, e);
      assert RunEvolves(q.runs[r], q'.runs[r]);
    }
  }

  lemma OldSteerStaysSafe(q: Queue, e: Event, q': Queue, r: nat)
    requires HostInv(q) && SteersSafe(q) && Enabled(q, e) && q' == Step(q, e) && !DiscardsInFlight(q, e)
    requires r in q.steers && r in q'.steers && q'.steers[r].task == q.steers[r].task
    ensures SteerSafe(q', r)
  {
    var t := q.steers[r].task;
    assert SteerSafe(q, r);
    BegunStaysBegun(q, e, q', t);
    if r in q.deliveries {
      DeliveriesOnlyGrow(q, e, q', r);
    } else if HostRunning(q', t) && r !in q'.deliveries {
      if r < |q.runs| && PendingChat(q.runs[r]) {
        PendingSteerStays(q, e, q', r);
      } else {
        StoppedStays(q, e, q', r);
      }
    }
  }

  lemma StepKeepsSteersSafe(q: Queue, e: Event, q': Queue)
    requires HostInv(q) && SteersSafe(q) && Enabled(q, e) && q' == Step(q, e) && !DiscardsInFlight(q, e)
    ensures SteersSafe(q')
  {
    forall r | r in q'.steers ensures SteerSafe(q', r) {
      SteerFate(q, e, q', r);
      if r in q.steers && q'.steers[r].task == q.steers[r].task {
        OldSteerStaysSafe(q, e, q', r);
      }
    }
  }

  lemma SafeSteersAreInTime(q: Queue, e: Event)
    requires SteersSafe(q) && Enabled(q, e)
    ensures !LateSteerOfWithdrawn(q, e)
  {
    if e.EReplySteer? {
      assert SteerSafe(q, e.steered);
    }
  }

  /** What holds while no message was discarded in flight. */
  ghost predicate OrderInv(q: Queue) {
    HostInv(q) && SteersSafe(q) && InOrder(q.deliveries)
  }

  lemma StepKeepsOrder(q: Queue, e: Event, q': Queue)
    requires OrderInv(q) && Enabled(q, e) && q' == Step(q, e) && !DiscardsInFlight(q, e)
    ensures OrderInv(q')
  {
    StepKeepsHostInv(q, e, q');
    StepKeepsSteersSafe(q, e, q');
    SafeSteersAreInTime(q, e);
    OrderStep(q, e);
  }

  lemma {:induction false} ReachableHostInv(states: seq<Queue>, events: seq<Event>, i: nat)
    requires Execution(states, events) && i < |states|
    ensures HostInv(states[i])
  {
    if i == 0 {
      EmptyHostInv();
    } else {
      ReachableHostInv(states, events, i - 1);
      StepKeepsHostInv(states[i - 1], events[i - 1], states[i - 1 + 1]);
    }
  }

  /** In the first `n` steps nobody discards a message while its steer is in flight. */
  ghost predicate CarefulRun(states: seq<Queue>, events: seq<Event>, n: nat)
    requires Execution(states, events) && n <= |events|
  {
    forall i :: 0 <= i < n ==> !DiscardsInFlight(states[i], events[i])
  }

  lemma NextOrder(states: seq<Queue>, events: seq<Event>, i: nat)
    requires Execution(states, events) && i < |events| && CarefulRun(states, events, i + 1) && OrderInv(states[i])
    ensures OrderInv(states[i + 1])
  {
    StepKeepsOrder(states[i], events[i], states[i + 1]);
  }

  lemma {:induction false} CarefulOrder(states: seq<Queue>, events: seq<Event>, i: nat)
    requires Execution(states, events) && i < |states| && CarefulRun(states, events, i)
    ensures OrderInv(states[i])
  {
    if i == 0 {
      EmptyHostInv();
    } else {
      CarefulOrder(states, events, i - 1);
      NextOrder(states, events, i - 1);
    }
  }

  /** First deliveries are in send order in every run in which nobody discards a message whose steer is in flight. */
  lemma CarefulRunsDeliverInOrder(states: seq<Queue>, events: seq<Event>, i: nat)
    requires Execution(states, events) && i < |states| && CarefulRun(states, events, i)
    ensures InOrder(states[i].deliveries)
  {
    CarefulOrder(states, events, i);
  }

  // ---------------------------------------------------------------------------
  // Such a discard always can

  /** The steps `es` lead from `q` to `q'`, and none of them discards a message in flight. */
  ghost predicate Leads(q: Queue, es: seq<Event>, q': Queue)
    decreases |es|
  {
    if es == [] then q' == q
    else Enabled(q, es[0]) && !DiscardsInFlight(q, es[0]) && Leads(Step(q, es[0]), es[1..], q')
  }

  ghost predicate CanReach(q: Queue, q': Queue) {
    exists es :: Leads(q, es, q')
  }

  lemma {:induction false} LeadsOn(q: Queue, es: seq<Event>, a: Queue, fs: seq<Event>, b: Queue)
    requires Leads(q, es, a) && Leads(a, fs, b)
    ensures Leads(q, es + fs, b)
    decreases |es|
  {
    if es == [] {
      assert es + fs == fs;
    } else {
      LeadsOn(Step(q, es[0]), es[1..], a, fs, b);
      assert (es + fs)[1..] == es[1..] + fs;
    }
  }

  lemma ReachOn(q: Queue, a: Queue, b: Queue)
    requires CanReach(q, a) && CanReach(a, b)
    ensures CanReach(q, b)
  {
    var es :| Leads(q, es, a);
    var fs :| Leads(a, fs, b);
    LeadsOn(q, es, a, fs, b);
  }

  lemma ReachStep(q: Queue, e: Event, q': Queue)
    requires Enabled(q, e) && !DiscardsInFlight(q, e) && q' == Step(q, e)
    ensures CanReach(q, q')
  {
    assert [e][1..] == [];
    assert Leads(q', [], q');
    assert Leads(q, [e], q');
  }

  lemma ReachSelf(q: Queue)
    ensures CanReach(q, q)
  {
    assert Leads(q, [], q);
  }

  /** The steer of `r` is in flight to the running turn, and no other waiting message has one. */
  ghost predicate InFlight(q: Queue, r: nat) {
    && r in q.steers && q.steers[r].Calling? && r !in q.deliveries && r < |q.runs|
    && HostRunning(q, q.steers[r].task) && TurnRuns(q.runs, q.steers[r].task) && OneActive(q.runs) && IsActive(q)
    && forall x :: x in q.steers && x < |q.runs| ==> !PendingChat(q.runs[x])
  }

  lemma DiscardLeavesInFlight(q: Queue, e: Event, q': Queue)
    requires HostInv(q) && Enabled(q, e) && q' == Step(q, e) && DiscardsInFlight(q, e)
    ensures InFlight(q', e.run)
  {
    TurnStays(q, e, q', q.steers[e.run].task);
    StepKeepsInv(q, e);
  }

  predicate NoPendingChat(runs: seq<Run>, n: nat) {
    forall i :: 0 <= i < n && i < |runs| ==> !PendingChat(runs[i])
  }

  lemma OneDiscarded(q: Queue, r: nat, i: nat) returns (q': Queue)
    requires InFlight(q, r) && NoPendingChat(q.runs, i) && i < |q.runs|
    ensures CanReach(q, q') && InFlight(q', r) && NoPendingChat(q'.runs, i + 1) && |q'.runs| == |q.runs|
  {
    if PendingChat(q.runs[i]) {
      q' := SetPhase(q, i, Done(Discarded));
      ReachStep(q, EDiscard(i), q');
      var t := q.steers[r].task;
      var k :| 0 <= k < |q.runs| && q.runs[k].phase == Active(Running) && q.runs[k].task == Some(t);
      assert q'.runs[k] == q.runs[k];
    } else {
      ReachSelf(q);
      q' := q;
    }
  }

  lemma {:induction false} AllDiscarded(q: Queue, r: nat, n: nat) returns (q': Queue)
    requires InFlight(q, r) && n <= |q.runs|
    ensures CanReach(q, q') && InFlight(q', r) && NoPendingChat(q'.runs, n) && |q'.runs| == |q.runs|
    decreases n
  {
    if n == 0 {
      ReachSelf(q);
      q' := q;
    } else {
      var a := AllDiscarded(q, r, n - 1);
      q' := OneDiscarded(a, r, n - 1);
      ReachOn(q, a, q');
    }
  }

  /** With one active run and no waiting message there is one unfinished message at most. */
  lemma {:induction false} FewUnfinished(runs: seq<Run>)
    requires OneActive(runs) && NoPendingChat(runs, |runs|)
    ensures UnfinishedChats(runs) <= if AnyActive(runs) then 1 else 0
    decreases |runs|
  {
    if runs != [] {
      var n := |runs| - 1;
      FewUnfinished(runs[..n]);
      assert AnyActive(runs[..n]) ==> AnyActive(runs) && !runs[n].phase.Active? by {
        if AnyActive(runs[..n]) {
          var i :| 0 <= i < n && runs[..n][i].phase.Active?;
          assert runs[i].phase.Active?;
        }
      }
    }
  }

  lemma TheTurnIsTheTarget(runs: seq<Run>, t: nat, from: nat, i: nat)
    requires OneActive(runs) && from <= i < |runs| && runs[i].phase == Active(Running) && runs[i].task == Some(t)
    ensures RunningTask(runs, from) == Some(t)
    decreases |runs| - from
  {
    if from < i {
      TheTurnIsTheTarget(runs, t, from + 1, i);
    }
  }

  lemma NewerIsSteered(q: Queue, r: nat) returns (q': Queue)
    requires InFlight(q, r) && NoPendingChat(q.runs, |q.runs|)
    ensures CanReach(q, q')
    ensures var m := |q.runs|;
      q' == q.(runs := q.runs + [Run(Chat, Pending, None, None)], steers := q.steers[m := Calling(q.steers[r].task)])
  {
    var t := q.steers[r].task;
    var i :| 0 <= i < |q.runs| && q.runs[i].phase == Active(Running) && q.runs[i].task == Some(t);
    TheTurnIsTheTarget(q.runs, t, 0, i);
    FewUnfinished(q.runs);
    assert !AnyPendingChat(q.runs) && SteerTarget(q.runs) == Some(t);
    q' := q.(runs := q.runs + [Run(Chat, Pending, None, None)], steers := q.steers[|q.runs| := Calling(t)]);
    assert Step(q, ESend(None)) == q';
    ReachStep(q, ESend(None), q');
  }

  /** The newer message is accepted first, and the discarded one after it. */
  lemma OvertakenInFlight(q: Queue, r: nat) returns (q': Queue)
    requires InFlight(q, r)
    ensures CanReach(q, q') && !InOrder(q'.deliveries)
  {
    var a := AllDiscarded(q, r, |q.runs|);
    var b := NewerIsSteered(a, r);
    ReachOn(q, a, b);
    var m := |a.runs|;
    var c := ReplyToSteer(b, m, SteerAccepted);
    ReachStep(b, EReplySteer(m, SteerAccepted), c);
    ReachOn(q, b, c);
    assert c.deliveries == a.deliveries + [m];
    q' := ReplyToSteer(c, r, SteerAccepted);
    ReachStep(c, EReplySteer(r, SteerAccepted), q');
    ReachOn(q, c, q');
    InOrderAppend(c.deliveries, r);
    assert m in c.deliveries;
  }

  lemma {:induction false} LeadsKeepsOrder(q: Queue, es: seq<Event>, q': Queue)
    requires Leads(q, es, q') && OrderInv(q)
    ensures OrderInv(q')
    decreases |es|
  {
    if es != [] {
      StepKeepsOrder(q, es[0], Step(q, es[0]));
      LeadsKeepsOrder(Step(q, es[0]), es[1..], q');
    }
  }

  lemma CarefulIsSafe(q: Queue, e: Event, next: Queue)
    requires OrderInv(q) && Enabled(q, e) && next == Step(q, e)
    ensures !DiscardsInFlight(q, e) <==> forall q' :: CanReach(next, q') ==> InOrder(q'.deliveries)
  {
    if DiscardsInFlight(q, e) {
      DiscardLeavesInFlight(q, e, next);
      var q' := OvertakenInFlight(next, e.run);
    } else {
      StepKeepsOrder(q, e, next);
      forall q' | CanReach(next, q') ensures InOrder(q'.deliveries) {
        var es :| Leads(next, es, q');
        LeadsKeepsOrder(next, es, q');
      }
    }
  }

  /**
   * The guard is exact. At any moment of a run in which nobody has discarded a
   * message in flight: a step leaves every such continuation in send order if and
   * only if it does not discard a message whose steer is in flight to a turn that
   * the host still runs. A deactivation always keeps the order.
   */
  lemma SendOrderGuard(states: seq<Queue>, events: seq<Event>, e: Event, next: Queue)
    requires Execution(states, events) && CarefulRun(states, events, |events|)
    requires Enabled(states[|events|], e) && next == Step(states[|events|], e)
    ensures !DiscardsInFlight(states[|events|], e) <==> forall q' :: CanReach(next, q') ==> InOrder(q'.deliveries)
  {
    CarefulOrder(states, events, |events|);
    CarefulIsSafe(states[|events|], e, next);
  }

  /** And from every reachable state, careful so far or not, such a discard has a continuation that breaks the order. */
  lemma DiscardInFlightOvertaken(states: seq<Queue>, events: seq<Event>, e: Event, next: Queue) returns (q': Queue)
    requires Execution(states, events) && Enabled(states[|events|], e) && next == Step(states[|events|], e)
    requires DiscardsInFlight(states[|events|], e)
    ensures CanReach(next, q') && !InOrder(q'.deliveries)
  {
    ReachableHostInv(states, events, |events|);
    DiscardLeavesInFlight(states[|events|], e, next);
    q' := OvertakenInFlight(next, e.run);
  }
}
