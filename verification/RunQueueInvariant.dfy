/** What every step of the run queue keeps. */
module RunQueueInvariant {
  import opened Prelude
  import opened ScheduleTiming
  import opened TaskStatus
  import opened RunQueue

  // ---------------------------------------------------------------------------
  // The invariant, one predicate per concern

  /** Pending runs carry no task, active runs do, and a task always comes with its thread. */
  ghost predicate RowsOk(runs: seq<Run>) {
    forall i :: 0 <= i < |runs| ==>
      && (runs[i].phase.Pending? ==> runs[i].task.None?)
      && (runs[i].phase.Active? ==> runs[i].task.Some?)
      && (runs[i].task.Some? <==> runs[i].thread.Some?)
  }

  ghost predicate OneActive(runs: seq<Run>) {
    forall i, j :: 0 <= i < j < |runs| && runs[i].phase.Active? ==> !runs[j].phase.Active?
  }

  /** Every run that ever became active is older than every pending run. */
  ghost predicate StartedFirst(runs: seq<Run>) {
    forall i, j :: 0 <= i < |runs| && 0 <= j < |runs| && runs[i].task.Some? && runs[j].phase.Pending? ==> i < j
  }

  ghost predicate OneUnfinishedPerSchedule(runs: seq<Run>) {
    forall i, j :: 0 <= i < j < |runs| && runs[i].kind.Scheduled? && runs[i].kind == runs[j].kind
      ==> runs[i].phase.Done? || runs[j].phase.Done?
  }

  ghost predicate RunsOk(runs: seq<Run>) {
    && RowsOk(runs) && OneActive(runs) && StartedFirst(runs) && OneUnfinishedPerSchedule(runs)
    && UnfinishedChats(runs) <= MAX_QUEUED_CHAT_TURNS
  }

  /** `starts` lists, in increasing order, exactly the runs that became active. */
  ghost predicate StartsOk(runs: seq<Run>, starts: seq<nat>) {
    && (forall k :: 0 <= k < |starts| ==> starts[k] < |runs| && runs[starts[k]].task.Some?)
    && (forall k, l :: 0 <= k < l < |starts| ==> starts[k] < starts[l])
    && (forall i :: 0 <= i < |runs| && runs[i].task.Some? ==> i in starts)
  }

  /** Run `r` is held for dispatch: nothing is active, and nothing newer went out. */
  ghost predicate Holds(runs: seq<Run>, deliveries: seq<nat>, steers: map<nat, SteerCall>, r: nat) {
    && r < |runs|
    && (forall i :: 0 <= i < |runs| ==> !runs[i].phase.Active?)
    && (forall i :: 0 <= i < |runs| && runs[i].phase.Pending? ==> r <= i)
    && (forall i :: 0 <= i < |runs| && runs[i].task.Some? ==> i < r)
    && (runs[r].kind.Chat? ==>
          (forall d :: d in deliveries ==> d <= r) && (forall s :: s in steers ==> s <= r))
  }

  ghost predicate WorkerOk(worker: Worker, runs: seq<Run>, deliveries: seq<nat>, steers: map<nat, SteerCall>) {
    match worker
    case Idle => true
    case Observed(r, _) => r < |runs| && runs[r].phase.Active?
    case Selected(r) => Holds(runs, deliveries, steers, r)
    case Composed(r, _, _, _) => Holds(runs, deliveries, steers, r)
    case Posted(r, _, _) => Holds(runs, deliveries, steers, r) && (runs[r].kind.Chat? ==> r in deliveries)
  }

  /** Threads never run ahead of the workspace, and unfinished dispatches are on the current one. */
  ghost predicate ThreadsOk(workspace: Option<Workspace>, runs: seq<Run>, worker: Worker) {
    && (workspace.None? ==> runs == [])
    && (workspace.None? || workspace.value.settings.None? ==>
          forall i :: 0 <= i < |runs| ==> !runs[i].phase.Pending?)
    && (forall i :: 0 <= i < |runs| && runs[i].thread.Some? ==> runs[i].thread.value <= SeqOf(workspace))
    && match worker
       case Composed(r, n, _, _) =>
         r < |runs| && n <= SeqOf(workspace) && (runs[r].phase.Pending? ==> n == SeqOf(workspace))
       case Posted(r, n, _) =>
         r < |runs| && n <= SeqOf(workspace) && (runs[r].phase.Pending? ==> n == SeqOf(workspace))
       case _ => true
  }

  /** All requests of one thread that carry settings carry the same ones. */
  ghost predicate RequestsOk(workspace: Option<Workspace>, requests: seq<Request>, worker: Worker) {
    && (workspace.None? ==> requests == [])
    && (forall k :: 0 <= k < |requests| ==> requests[k].thread <= SeqOf(workspace))
    && (forall k :: 0 <= k < |requests| && requests[k].settings.Some? && requests[k].thread == SeqOf(workspace)
          ==> SettingsOf(workspace) == requests[k].settings)
    && (forall k, l :: 0 <= k < |requests| && 0 <= l < |requests|
          && requests[k].settings.Some? && requests[l].settings.Some? && requests[k].thread == requests[l].thread
          ==> requests[k].settings == requests[l].settings)
    && (worker.Composed? ==>
          && (worker.thread == SeqOf(workspace) ==> SettingsOf(workspace) == Some(worker.settings))
          && (forall k :: 0 <= k < |requests| && requests[k].settings.Some? && requests[k].thread == worker.thread
                ==> requests[k].settings == Some(worker.settings)))
  }

  /** A chat message that is neither waiting nor withdrawn was delivered, and no message overtakes a waiting one. */
  ghost predicate DeliveriesOk(runs: seq<Run>, deliveries: seq<nat>, steers: map<nat, SteerCall>) {
    && (forall d :: d in deliveries ==> d < |runs| && runs[d].kind.Chat?)
    && (forall i :: 0 <= i < |runs| && runs[i].kind.Chat? && !runs[i].phase.Pending? && !Withdrawn(runs[i])
          ==> i in deliveries)
    && (forall i, d :: 0 <= i < |runs| && PendingChat(runs[i]) && d in deliveries ==> d <= i)
    && (forall s :: s in steers ==>
          && s < |runs| && runs[s].kind.Chat?
          && (steers[s].Accepted? ==> s in deliveries)
          && (forall i :: 0 <= i < s ==> !PendingChat(runs[i])))
  }

  /** A recurring schedule sits on the grid of its anchor, and an enabled schedule has a next time. */
  ghost predicate ScheduleOk(s: Schedule) {
    && (s.next.Some? ==> s.next.value > 0)
    && (s.enabled ==> s.next.Some?)
    && (s.everyMinutes.Some? ==> s.next.Some? && OnGrid(s.anchor, s.everyMinutes.value, s.next.value))
  }

  ghost predicate SchedulesOk(schedules: map<Name, Schedule>) {
    && |schedules| <= MAX_SCHEDULES
    && forall n :: n in schedules ==> ScheduleOk(schedules[n])
  }

  ghost predicate QWorkerOk(q: Queue) {
    WorkerOk(q.worker, q.runs, q.deliveries, q.steers)
  }

  ghost predicate QThreadsOk(q: Queue) {
    ThreadsOk(q.workspace, q.runs, q.worker)
  }

  ghost predicate QRequestsOk(q: Queue) {
    RequestsOk(q.workspace, q.requests, q.worker)
  }

  ghost predicate QDeliveriesOk(q: Queue) {
    DeliveriesOk(q.runs, q.deliveries, q.steers)
  }

  ghost predicate Inv(q: Queue) {
    && RunsOk(q.runs) && StartsOk(q.runs, q.starts) && SchedulesOk(q.schedules)
    && QWorkerOk(q) && QThreadsOk(q) && QRequestsOk(q) && QDeliveriesOk(q)
  }

  lemma EmptyQueueInv()
    ensures Inv(EMPTY_QUEUE)
  {
  }

  // ---------------------------------------------------------------------------
  // Counting unfinished chats

  lemma {:induction false} CountNeverGrows(a: seq<Run>, b: seq<Run>)
    requires |a| == |b|
    requires forall i :: 0 <= i < |a| ==> a[i].kind == b[i].kind && (a[i].phase.Done? ==> b[i].phase.Done?)
    ensures UnfinishedChats(b) <= UnfinishedChats(a)
  {
    if a != [] {
      CountNeverGrows(a[..|a| - 1], b[..|b| - 1]);
    }
  }

  lemma CountAppend(runs: seq<Run>, r: Run)
    ensures UnfinishedChats(runs + [r]) == UnfinishedChats(runs) + if r.kind.Chat? && !r.phase.Done? then 1 else 0
  {
    assert (runs + [r])[..|runs|] == runs;
  }

  // ---------------------------------------------------------------------------
  // The three ways in which the table of runs changes

  /** Run `r` ends, or an active run stays active. */
  lemma PhaseChange(runs: seq<Run>, r: nat, phase: Phase, starts: seq<nat>)
    requires RunsOk(runs) && StartsOk(runs, starts) && r < |runs|
    requires phase.Done? || (phase.Active? && runs[r].phase.Active?)
    ensures var runs' := runs[r := runs[r].(phase := phase)]; RunsOk(runs') && StartsOk(runs', starts)
  {
    CountNeverGrows(runs, runs[r := runs[r].(phase := phase)]);
  }

  lemma AppendKeepsOrder(runs: seq<Run>, kind: Kind, starts: seq<nat>)
    requires RowsOk(runs) && OneActive(runs) && StartedFirst(runs) && StartsOk(runs, starts)
    ensures var runs' := runs + [Run(kind, Pending, None, None)];
      RowsOk(runs') && OneActive(runs') && StartedFirst(runs') && StartsOk(runs', starts)
  {
  }

  lemma AppendKeepsSchedules(runs: seq<Run>, kind: Kind)
    requires OneUnfinishedPerSchedule(runs) && (kind.Scheduled? ==> !AnyUnfinishedOf(runs, kind.schedule))
    ensures OneUnfinishedPerSchedule(runs + [Run(kind, Pending, None, None)])
  {
    forall i | 0 <= i < |runs| && runs[i].kind.Scheduled? && runs[i].kind == kind
      ensures runs[i].phase.Done?
    {
      assert !UnfinishedOf(runs[i], kind.schedule);
    }
  }

  lemma Append(runs: seq<Run>, kind: Kind, starts: seq<nat>)
    requires RunsOk(runs) && StartsOk(runs, starts)
    requires kind.Chat? ==> UnfinishedChats(runs) < MAX_QUEUED_CHAT_TURNS
    requires kind.Scheduled? ==> !AnyUnfinishedOf(runs, kind.schedule)
    ensures var runs' := runs + [Run(kind, Pending, None, None)]; RunsOk(runs') && StartsOk(runs', starts)
  {
    CountAppend(runs, Run(kind, Pending, None, None));
    AppendKeepsOrder(runs, kind, starts);
    AppendKeepsSchedules(runs, kind);
  }

  // ---------------------------------------------------------------------------
  // A new run at the end of the table, steered or not

  function Enqueued(q: Queue, kind: Kind, target: Option<nat>): Queue {
    q.(runs := q.runs + [Run(kind, Pending, None, None)],
       steers := if target.Some? then q.steers[|q.runs| := Calling(target.value)] else q.steers)
  }

  lemma EnqueueKeepsWorker(q: Queue, kind: Kind, target: Option<nat>)
    requires QWorkerOk(q) && (target.Some? ==> AnyActive(q.runs))
    ensures QWorkerOk(Enqueued(q, kind, target))
  {
  }

  lemma EnqueueKeepsThreads(q: Queue, kind: Kind, target: Option<nat>)
    requires QThreadsOk(q) && QRequestsOk(q) && IsActive(q)
    ensures QThreadsOk(Enqueued(q, kind, target)) && QRequestsOk(Enqueued(q, kind, target))
  {
  }

  lemma EnqueueKeepsDeliveries(q: Queue, kind: Kind, target: Option<nat>)
    requires QDeliveriesOk(q) && (target.Some? ==> kind.Chat? && !AnyPendingChat(q.runs))
    ensures QDeliveriesOk(Enqueued(q, kind, target))
  {
    var q' := Enqueued(q, kind, target);
    if target.Some? {
      assert forall i :: 0 <= i < |q.runs| ==> q'.runs[i] == q.runs[i] && !PendingChat(q.runs[i]);
    }
  }

  lemma KeepsQueueHumanInput(q: Queue)
    requires Inv(q) && IsActive(q) && QueueHumanInput(q).Ok?
    ensures Inv(QueueHumanInput(q).value)
  {
    var target := SteerTarget(q.runs);
    assert QueueHumanInput(q).value == Enqueued(q, Chat, target);
    Append(q.runs, Chat, q.starts);
    EnqueueKeepsWorker(q, Chat, target);
    EnqueueKeepsThreads(q, Chat, target);
    EnqueueKeepsDeliveries(q, Chat, target);
  }

  // ---------------------------------------------------------------------------
  // Operator steps

  lemma KeepsEnsureWorkspace(q: Queue, s: Settings)
    requires Inv(q) && !IsActive(q)
    ensures Inv(EnsureWorkspace(q, s))
  {
    var q' := EnsureWorkspace(q, s);
    assert ThreadSeq(q') == ThreadSeq(q);
    assert QThreadsOk(q');
    assert QRequestsOk(q');
  }

  lemma DeactivateKeepsRuns(q: Queue)
    requires RunsOk(q.runs) && StartsOk(q.runs, q.starts)
    ensures RunsOk(DeactivatedRuns(q.runs)) && StartsOk(DeactivatedRuns(q.runs), q.starts)
  {
    CountNeverGrows(q.runs, DeactivatedRuns(q.runs));
  }

  lemma DeactivateKeepsThreads(q: Queue)
    requires QThreadsOk(q) && QRequestsOk(q)
    ensures QThreadsOk(Deactivate(q)) && QRequestsOk(Deactivate(q))
  {
    if IsActive(q) {
      assert ThreadSeq(Deactivate(q)) == ThreadSeq(q) + 1;
    }
  }

  lemma KeepsDeactivate(q: Queue)
    requires Inv(q)
    ensures Inv(Deactivate(q))
  {
    if q.workspace.Some? {
      var q' := Deactivate(q);
      DeactivateKeepsRuns(q);
      DeactivateKeepsThreads(q);
      DeactivateKeepsWorker(q);
      DeactivateKeepsDeliveries(q);
      assert q'.schedules.Keys == q.schedules.Keys;
      assert |q'.schedules.Keys| == |q.schedules.Keys|;
    }
  }

  lemma DeactivateKeepsWorker(q: Queue)
    requires QWorkerOk(q)
    ensures QWorkerOk(Deactivate(q))
  {
  }

  lemma DeactivateKeepsDeliveries(q: Queue)
    requires QDeliveriesOk(q)
    ensures QDeliveriesOk(Deactivate(q))
  {
  }

  function Rotated(q: Queue, s: Option<Settings>): Queue {
    q.(workspace := Some(Workspace(ThreadSeq(q) + 1, s)))
  }

  /** Moving to the next thread is safe once no run waits for the old one. */
  lemma RotateKeepsThreads(q: Queue, s: Settings)
    requires QThreadsOk(q) && QRequestsOk(q) && !AnyUnfinished(q.runs)
    ensures QThreadsOk(Rotated(q, Some(s))) && QRequestsOk(Rotated(q, Some(s)))
  {
    assert forall i :: 0 <= i < |q.runs| ==> q.runs[i].phase.Done?;
  }

  lemma KeepsSettings(q: Queue, s: Settings)
    requires Inv(q) && UpdateAgentSettings(q, s).Ok?
    ensures Inv(UpdateAgentSettings(q, s).value)
  {
    if CurrentSettings(q) != Some(s) {
      RotateKeepsThreads(q, s);
    }
  }

  // ---------------------------------------------------------------------------
  // An unfinished run ends, or an active run is seen in another status

  function Changed(q: Queue, r: nat, phase: Phase, release: bool): Queue
    requires r < |q.runs|
  {
    SetPhase(q, r, phase).(worker := if release then Idle else q.worker)
  }

  lemma ChangeKeepsWorker(q: Queue, r: nat, phase: Phase, release: bool)
    requires r < |q.runs| && QWorkerOk(q)
    requires release || (phase.Done? && q.runs[r].phase.Pending?)
    ensures QWorkerOk(Changed(q, r, phase, release))
  {
  }

  lemma ChangeKeepsThreads(q: Queue, r: nat, phase: Phase, release: bool)
    requires r < |q.runs| && QThreadsOk(q) && QRequestsOk(q) && !phase.Pending?
    ensures QThreadsOk(Changed(q, r, phase, release)) && QRequestsOk(Changed(q, r, phase, release))
  {
  }

  lemma ChangeKeepsDeliveries(q: Queue, r: nat, phase: Phase, release: bool)
    requires r < |q.runs| && QDeliveriesOk(q) && !phase.Pending?
    requires q.runs[r].kind.Chat? && r !in q.deliveries ==> phase.Done? && phase.outcome in {Discarded, Deactivated}
    ensures QDeliveriesOk(Changed(q, r, phase, release))
  {
  }

  lemma KeepsChange(q: Queue, r: nat, phase: Phase, release: bool)
    requires Inv(q) && r < |q.runs|
    requires phase.Done? || (phase.Active? && q.runs[r].phase.Active?)
    requires release || (phase.Done? && q.runs[r].phase.Pending?)
    requires q.runs[r].kind.Chat? && r !in q.deliveries ==> phase.Done? && phase.outcome in {Discarded, Deactivated}
    ensures Inv(Changed(q, r, phase, release))
  {
    PhaseChange(q.runs, r, phase, q.starts);
    ChangeKeepsWorker(q, r, phase, release);
    ChangeKeepsThreads(q, r, phase, release);
    ChangeKeepsDeliveries(q, r, phase, release);
  }

  lemma KeepsDiscard(q: Queue, r: nat)
    requires Inv(q) && DiscardPendingRun(q, r).Ok?
    ensures Inv(DiscardPendingRun(q, r).value)
  {
    KeepsChange(q, r, Done(Discarded), false);
  }

  lemma KeepsReap(q: Queue)
    requires Inv(q) && Enabled(q, EReap)
    ensures Inv(Reap(q))
  {
    var r := q.worker.run;
    assert q.runs[r].phase.Active?;
    var phase := Reap(q).runs[r].phase;
    assert Reap(q) == Changed(q, r, phase, true);
    KeepsChange(q, r, phase, true);
  }

  // ---------------------------------------------------------------------------
  // Steers

  lemma ReplyKeepsDeliveries(q: Queue, r: nat, reply: SteerReply)
    requires QDeliveriesOk(q) && CanReplyToSteer(q, r, reply)
    ensures QDeliveriesOk(ReplyToSteer(q, r, reply))
  {
    var q' := ReplyToSteer(q, r, reply);
    assert forall d :: d in q'.deliveries <==> d in q.deliveries || (d == r && reply != SteerRefused);
    assert forall s :: s in q'.steers ==> s in q.steers;
  }

  lemma ReplyKeepsWorker(q: Queue, r: nat, reply: SteerReply)
    requires QWorkerOk(q) && CanReplyToSteer(q, r, reply)
    ensures QWorkerOk(ReplyToSteer(q, r, reply))
  {
    var q' := ReplyToSteer(q, r, reply);
    assert forall d :: d in q'.deliveries <==> d in q.deliveries || (d == r && reply != SteerRefused);
    assert forall s :: s in q'.steers ==> s in q.steers;
  }

  lemma KeepsReplyToSteer(q: Queue, r: nat, reply: SteerReply)
    requires Inv(q) && CanReplyToSteer(q, r, reply)
    ensures Inv(ReplyToSteer(q, r, reply))
  {
    ReplyKeepsDeliveries(q, r, reply);
    ReplyKeepsWorker(q, r, reply);
  }

  lemma KeepsFinishSteer(q: Queue, r: nat)
    requires Inv(q) && Enabled(q, EFinishSteer(r))
    ensures Inv(FinishSteer(q, r))
  {
    var closed := q.(steers := q.steers - {r});
    assert Inv(closed);
    if q.runs[r].phase.Pending? {
      KeepsChange(closed, r, Done(Steered), false);
    }
  }

  // ---------------------------------------------------------------------------
  // Schedules

  lemma KeepsEdit(q: Queue, op: ScheduleOp, now: Clock)
    requires Inv(q) && EditSchedule(q, op, now).Ok?
    ensures Inv(EditSchedule(q, op, now).value)
  {
    EditKeepsSchedules(q.schedules, IsActive(q), op, now);
  }

  lemma EditKeepsSchedules(schedules: map<Name, Schedule>, active: bool, op: ScheduleOp, now: Clock)
    requires SchedulesOk(schedules) && EditedSchedules(schedules, active, op, now).Ok?
    ensures SchedulesOk(EditedSchedules(schedules, active, op, now).value)
  {
    match op
    case Create(n, title, prompt, cadence) =>
      StartOfCadence(cadence, now);
      var s := EditedSchedules(schedules, active, op, now).value[n];
      assert ScheduleOk(s);
    case Update(n, title, prompt, cadence, enabled) =>
      UpdateKeepsScheduleOk(schedules[n], title, prompt, cadence, enabled, now);
      ReplaceKeepsSchedules(schedules, n, UpdatedSchedule(schedules[n], title, prompt, cadence, enabled, now));
    case Delete(n) =>
      assert (schedules - {n}).Keys == schedules.Keys - {n};
      assert |(schedules - {n}).Keys| == |schedules.Keys| - 1;
    case SetEnabled(n, on) =>
      if on && schedules[n].everyMinutes.Some? {
        StartOfCadence(Every(schedules[n].everyMinutes.value), now);
      }
      ReplaceKeepsSchedules(schedules, n, SwitchedSchedule(schedules[n], on, now));
  }

  lemma StartOfCadence(c: Cadence, now: Clock)
    ensures InitialNextRun(c, now) > 0
    ensures c.Every? ==> OnGrid(InitialNextRun(c, now), c.minutes, InitialNextRun(c, now))
  {
    if c.Every? {
      RemainderIs(0, Period(c.minutes), 0, 0);
    }
  }

  lemma UpdateKeepsScheduleOk(s: Schedule, title: Option<string>, prompt: Option<string>,
                              cadence: Option<Cadence>, enabled: Option<bool>, now: Clock)
    requires ScheduleOk(s)
    ensures var s' := UpdatedSchedule(s, title, prompt, cadence, enabled, now);
      ScheduleOk(s') || (s'.enabled && s'.everyMinutes.None? && s'.next.None?)
  {
    if cadence.Some? {
      StartOfCadence(cadence.value, now);
    }
  }

  lemma ReplaceKeepsSchedules(schedules: map<Name, Schedule>, n: Name, s: Schedule)
    requires SchedulesOk(schedules) && n in schedules && ScheduleOk(s)
    ensures SchedulesOk(schedules[n := s])
  {
    assert schedules[n := s].Keys == schedules.Keys;
    assert |schedules[n := s].Keys| == |schedules.Keys|;
  }

  lemma FireKeepsSchedules(q: Queue, n: Name, now: Clock)
    requires SchedulesOk(q.schedules) && n in q.schedules && q.schedules[n].next.Some?
    ensures SchedulesOk(FireOne(q, n, now).schedules)
  {
    var s := q.schedules[n];
    assert ScheduleOk(s);
    if s.everyMinutes.Some? {
      StoredNextRunIsDriftFree(s.anchor, s.next.value, s.everyMinutes.value, now);
    }
    var s' := FireOne(q, n, now).schedules[n];
    ReplaceKeepsSchedules(q.schedules, n, s');
    assert FireOne(q, n, now).schedules == q.schedules[n := s'];
  }

  lemma KeepsFireOne(q: Queue, n: Name, now: Clock)
    requires Inv(q) && IsActive(q) && q.worker.Idle? && n in q.schedules && q.schedules[n].next.Some?
    ensures Inv(FireOne(q, n, now)) && IsActive(FireOne(q, n, now)) && FireOne(q, n, now).worker.Idle?
  {
    var q' := FireOne(q, n, now);
    FireKeepsSchedules(q, n, now);
    if !AnyUnfinishedOf(q.runs, n) {
      var queued := Enqueued(q, Scheduled(n), None);
      Append(q.runs, Scheduled(n), q.starts);
      EnqueueKeepsThreads(q, Scheduled(n), None);
      EnqueueKeepsDeliveries(q, Scheduled(n), None);
      assert q' == queued.(schedules := q'.schedules);
    } else {
      assert q' == q.(schedules := q'.schedules);
    }
  }

  lemma {:induction false} KeepsFireAll(q: Queue, due: seq<Name>, now: Clock)
    requires Inv(q) && IsActive(q) && q.worker.Idle?
    requires forall i :: 0 <= i < |due| ==> due[i] in q.schedules && q.schedules[due[i]].next.Some?
    requires forall i, j :: 0 <= i < j < |due| ==> due[i] != due[j]
    ensures Inv(FireAll(q, due, now))
    decreases |due|
  {
    if due != [] {
      KeepsFireOne(q, due[0], now);
      KeepsFireAll(FireOne(q, due[0], now), due[1..], now);
    }
  }

  // ---------------------------------------------------------------------------
  // Dispatch

  lemma KeepsSelect(q: Queue)
    requires Inv(q) && q.worker.Idle?
    ensures Inv(SelectRun(q))
  {
    var r := OldestPending(q.runs);
    if !AnyActive(q.runs) && r < |q.runs| {
      assert forall i :: 0 <= i < |q.runs| && q.runs[i].phase.Pending? ==> r <= i;
      if q.runs[r].kind.Chat? {
        NothingNewerWentOut(q, r);
      }
      assert Holds(q.runs, q.deliveries, q.steers, r);
    }
  }

  /** While a message waits, no newer message was delivered or is being steered. */
  lemma NothingNewerWentOut(q: Queue, r: nat)
    requires r < |q.runs|
    requires QDeliveriesOk(q) && PendingChat(q.runs[r])
    ensures forall d :: d in q.deliveries ==> d <= r
    ensures forall s :: s in q.steers ==> s <= r
  {
  }

  lemma KeepsCompose(q: Queue)
    requires Inv(q) && Enabled(q, ECompose)
    ensures Inv(ComposeRun(q))
  {
    var r := q.worker.run;
    var q' := ComposeRun(q);
    if IsActive(q) && q.runs[r].kind.Scheduled? && q.runs[r].kind.schedule !in q.schedules {
      assert q' == Changed(q, r, Done(Orphaned), true);
      KeepsChange(q, r, Done(Orphaned), true);
    } else if IsActive(q) {
      assert q.runs[r].thread.None?;
      ComposeKeepsThreads(q);
    }
  }

  lemma ComposeKeepsThreads(q: Queue)
    requires QThreadsOk(q) && QRequestsOk(q) && QWorkerOk(q) && Enabled(q, ECompose) && IsActive(q)
    requires q.runs[q.worker.run].thread.None? && ComposeRun(q).worker.Composed?
    ensures QThreadsOk(ComposeRun(q)) && QRequestsOk(ComposeRun(q))
  {
    assert CurrentSettings(ComposeRun(q)) == CurrentSettings(q);
  }

  lemma PostKeepsThreads(q: Queue, reply: PostReply)
    requires QThreadsOk(q) && QRequestsOk(q) && QWorkerOk(q) && Enabled(q, EPost(reply))
    ensures QThreadsOk(PostRun(q, reply)) && QRequestsOk(PostRun(q, reply))
  {
    var q' := PostRun(q, reply);
    assert CurrentSettings(q') == CurrentSettings(q) && ThreadSeq(q') == ThreadSeq(q);
    if !reply.PostRefused? {
      assert q'.requests[..|q.requests|] == q.requests;
      assert q'.requests[|q.requests|].thread == q.worker.thread;
      assert q'.requests[|q.requests|].settings.Some? ==> q'.requests[|q.requests|].settings.value == q.worker.settings;
    }
  }

  lemma PostKeepsDeliveries(q: Queue, reply: PostReply)
    requires QDeliveriesOk(q) && QWorkerOk(q) && Enabled(q, EPost(reply))
    ensures QDeliveriesOk(PostRun(q, reply)) && QWorkerOk(PostRun(q, reply))
  {
    var r := q.worker.run;
    var q' := PostRun(q, reply);
    assert forall d :: d in q'.deliveries ==> d in q.deliveries || (d == r && q.runs[r].kind.Chat?);
    assert forall d :: d in q.deliveries ==> d in q'.deliveries;
  }

  lemma KeepsPost(q: Queue, reply: PostReply)
    requires Inv(q) && Enabled(q, EPost(reply))
    ensures Inv(PostRun(q, reply))
  {
    PostKeepsThreads(q, reply);
    PostKeepsDeliveries(q, reply);
  }

  lemma ClaimKeepsOrder(runs: seq<Run>, r: nat, task: nat, thread: nat, starts: seq<nat>)
    requires RowsOk(runs) && StartedFirst(runs) && StartsOk(runs, starts)
    requires Holds(runs, [], map[], r) && runs[r].phase.Pending?
    ensures var runs' := runs[r := Run(runs[r].kind, Active(Queued), Some(task), Some(thread))];
      RowsOk(runs') && OneActive(runs') && StartedFirst(runs') && StartsOk(runs', starts + [r])
  {
    assert forall k :: 0 <= k < |starts| ==> (starts + [r])[k] == starts[k] && starts[k] < r;
  }

  lemma ClaimKeepsRuns(q: Queue)
    requires RunsOk(q.runs) && StartsOk(q.runs, q.starts) && QWorkerOk(q) && Enabled(q, EClaim)
    ensures RunsOk(ClaimRun(q).runs) && StartsOk(ClaimRun(q).runs, ClaimRun(q).starts)
  {
    var w := q.worker;
    CountNeverGrows(q.runs, ClaimRun(q).runs);
    if q.runs[w.run].phase.Pending? {
      ClaimKeepsOrder(q.runs, w.run, w.task, w.thread, q.starts);
    }
  }

  lemma ClaimKeepsThreads(q: Queue)
    requires QThreadsOk(q) && QRequestsOk(q) && Enabled(q, EClaim)
    ensures QThreadsOk(ClaimRun(q)) && QRequestsOk(ClaimRun(q))
  {
  }

  lemma ClaimKeepsDeliveries(q: Queue)
    requires QDeliveriesOk(q) && QWorkerOk(q) && Enabled(q, EClaim)
    ensures QDeliveriesOk(ClaimRun(q))
  {
  }

  lemma KeepsClaim(q: Queue)
    requires Inv(q) && Enabled(q, EClaim)
    ensures Inv(ClaimRun(q))
  {
    ClaimKeepsRuns(q);
    ClaimKeepsThreads(q);
    ClaimKeepsDeliveries(q);
  }

  // ---------------------------------------------------------------------------
  // Every step

  predicate IsWorkerStep(e: Event) {
    e.EObserve? || e.EReap? || e.EFire? || e.ESelect? || e.ECompose? || e.EPost? || e.EClaim?
  }

  predicate IsHostStep(e: Event) {
    e.EHostMove? || e.EHostForget? || e.ERestart?
  }

  lemma WorkerKeepsInv(q: Queue, e: Event)
    requires Inv(q) && Enabled(q, e) && IsWorkerStep(e)
    ensures Inv(Step(q, e))
  {
    match e
    case EObserve(r, answer) => KeepsObserve(q, r, answer);
    case EReap => KeepsReap(q);
    case EFire(due, now, stamp) => if IsActive(q) { KeepsFireAll(q, due, now); }
    case ESelect => KeepsSelect(q);
    case ECompose => KeepsCompose(q);
    case EPost(reply) => KeepsPost(q, reply);
    case EClaim => KeepsClaim(q);
  }

  lemma HostKeepsInv(q: Queue, e: Event)
    requires Inv(q) && Enabled(q, e) && IsHostStep(e)
    ensures Inv(Step(q, e))
  {
    match e
    case EHostMove(t, to) => KeepsHost(q, q.host.(tasks := q.host.tasks[t := to]));
    case EHostForget(t) => KeepsHost(q, q.host.(tasks := q.host.tasks - {t}));
    case ERestart => KeepsRestart(q);
  }

  lemma OperatorKeepsInv(q: Queue, e: Event)
    requires Inv(q) && Enabled(q, e) && !IsWorkerStep(e) && !IsHostStep(e)
    ensures Inv(Step(q, e))
  {
    match e
    case ESend(supplied) => KeepsSend(q, supplied);
    case EInteract => if SubmitInteraction(q).Ok? { KeepsQueueHumanInput(q); }
    case EActivate(s) => if Activate(q, s).Ok? { KeepsEnsureWorkspace(q, s); }
    case EDeactivate => KeepsDeactivate(q);
    case ESettings(s) => if UpdateAgentSettings(q, s).Ok? { KeepsSettings(q, s); }
    case EDiscard(r) => if DiscardPendingRun(q, r).Ok? { KeepsDiscard(q, r); }
    case EReplySteer(r, reply) => KeepsReplyToSteer(q, r, reply);
    case EFinishSteer(r) => KeepsFinishSteer(q, r);
    case EEdit(op, now) => if EditSchedule(q, op, now).Ok? { KeepsEdit(q, op, now); }
  }

  /** Every step of the engine, of the host and of the operator keeps the invariant. */
  lemma StepKeepsInv(q: Queue, e: Event)
    requires Inv(q) && Enabled(q, e)
    ensures Inv(Step(q, e))
  {
    if IsWorkerStep(e) {
      WorkerKeepsInv(q, e);
    } else if IsHostStep(e) {
      HostKeepsInv(q, e);
    } else {
      OperatorKeepsInv(q, e);
    }
  }

  lemma KeepsObserve(q: Queue, r: nat, answer: Answer)
    requires Inv(q) && CanObserve(q, r, answer)
    ensures Inv(Observe(q, r, answer))
  {
  }

  lemma KeepsHost(q: Queue, host: Host)
    requires Inv(q)
    ensures Inv(q.(host := host))
  {
  }

  lemma KeepsRestart(q: Queue)
    requires Inv(q)
    ensures Inv(Step(q, ERestart))
  {
  }

  lemma KeepsSend(q: Queue, supplied: Option<Settings>)
    requires Inv(q)
    ensures Inv(OrUnchanged(SendMessage(q, supplied), q))
  {
    if SendMessage(q, supplied).Ok? {
      if IsActive(q) {
        KeepsQueueHumanInput(q);
      } else {
        KeepsEnsureWorkspace(q, supplied.value);
        KeepsQueueHumanInput(EnsureWorkspace(q, supplied.value));
      }
    }
  }
}
