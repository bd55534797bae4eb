/**
 * The engine's transactions as methods over its tables. Every method is one
 * transaction (or one host call) and is proved against the step function of
 * `RunQueue`; a refusal rolls everything back.
 */
module RunEngine {
  import opened Prelude
  import opened ScheduleTiming
  import opened TaskStatus
  import opened RunQueue
  import opened RunQueueInvariant

  lemma FireNext(q: Queue, due: seq<Name>, k: nat, now: Clock)
    requires k < |due| && CanFire(q, due[k..])
    ensures due[k] in q.schedules && q.schedules[due[k]].next.Some?
    ensures CanFire(FireOne(q, due[k], now), due[k + 1..])
    ensures FireAll(q, due[k..], now) == FireAll(FireOne(q, due[k], now), due[k + 1..], now)
  {
    assert due[k..][0] == due[k] && due[k..][1..] == due[k + 1..];
    assert forall i :: 0 <= i < |due[k..]| ==> due[k..][i] == due[k + i];
  }

  class Engine {
    // The tables.
    var workspace: Option<Workspace>
    var runs: seq<Run>
    var schedules: map<Name, Schedule>

    // Calls in flight: the worker's and the steering request threads'.
    ghost var worker: Worker
    ghost var steers: map<nat, SteerCall>

    // The host, and the history of what was sent to it.
    ghost var host: Host
    ghost var requests: seq<Request>
    ghost var deliveries: seq<nat>
    ghost var starts: seq<nat>

    ghost function View(): Queue
      reads this
    {
      Queue(workspace, runs, schedules, worker, steers, host, requests, deliveries, starts)
    }

    constructor ()
      ensures View() == EMPTY_QUEUE && Inv(View())
    {
      workspace, runs, schedules := None, [], map[];
      worker, steers, host := Idle, map[], Host(1, map[]);
      requests, deliveries, starts := [], [], [];
    }

    /** One database snapshot of the settings columns. */
    predicate HasSettings()
      reads this
    {
      workspace.Some? && workspace.value.settings.Some?
    }

    method ActivateWorkspace(settings: Settings) returns (r: Result<(), Refusal>)
      modifies this
      ensures match Activate(old(View()), settings)
              case Ok(q) => r == Ok(()) && View() == q
              case Error(e) => r == Error(e) && View() == old(View())
    {
      if !ValidSettings(settings) {
        return Error(BadSettings);
      }
      if HasSettings() {
        return Error(AlreadyActive);
      }
      if AnyActive(runs) {
        return Error(StillStopping);
      }
      workspace := Some(Workspace(if workspace.Some? then workspace.value.threadSeq else FIRST_THREAD_SEQ, Some(settings)));
      return Ok(());
    }

    /** The shared tail of both kinds of human input: returns the new run and the task to steer. */
    method QueueInput() returns (r: Result<(nat, Option<nat>), Refusal>)
      modifies this`runs, this`steers
      ensures match QueueHumanInput(old(View()))
              case Ok(q) => r == Ok((|old(runs)|, SteerTarget(old(runs)))) && View() == q
              case Error(e) => r == Error(e) && View() == old(View())
    {
      var queued := CountUnfinishedChats();
      if queued >= MAX_QUEUED_CHAT_TURNS {
        return Error(QueueFull);
      }
      var target := SteerTarget(runs);
      var id := |runs|;
      runs := runs + [Run(Chat, Pending, None, None)];
      if target.Some? {
        steers := steers[id := Calling(target.value)];
      }
      return Ok((id, target));
    }

    method CountUnfinishedChats() returns (n: nat)
      ensures n == UnfinishedChats(runs)
    {
      n := 0;
      for i := 0 to |runs|
        invariant n == UnfinishedChats(runs[..i])
      {
        CountAppend(runs[..i], runs[i]);
        assert runs[..i + 1] == runs[..i] + [runs[i]];
        if runs[i].kind.Chat? && !runs[i].phase.Done? {
          n := n + 1;
        }
      }
      assert runs[..|runs|] == runs;
    }

    method SendMessage(supplied: Option<Settings>) returns (r: Result<(nat, Option<nat>), Refusal>)
      modifies this
      ensures match RunQueue.SendMessage(old(View()), supplied)
              case Ok(q) => r == Ok((|old(runs)|, SteerTarget(old(runs)))) && View() == q
              case Error(e) => r == Error(e) && View() == old(View())
    {
      if HasSettings() {
        if supplied.Some? {
          return Error(SettingsNotAccepted);
        }
        r := QueueInput();
        return;
      }
      if supplied.None? {
        return Error(SettingsRequired);
      }
      if !ValidSettings(supplied.value) {
        return Error(BadSettings);
      }
      if AnyActive(runs) {
        return Error(StillStopping);
      }
      var before := workspace;
      workspace := Some(Workspace(if before.Some? then before.value.threadSeq else FIRST_THREAD_SEQ, supplied));
      r := QueueInput();
      if r.Error? {
        workspace := before;
      }
    }

    method SubmitInteraction() returns (r: Result<(nat, Option<nat>), Refusal>)
      modifies this
      ensures match RunQueue.SubmitInteraction(old(View()))
              case Ok(q) => r == Ok((|old(runs)|, SteerTarget(old(runs)))) && View() == q
              case Error(e) => r == Error(e) && View() == old(View())
    {
      if !HasSettings() {
        return Error(NotStarted);
      }
      r := QueueInput();
    }

    /** Returns how many tasks the caller still has to stop on the host. */
    method DeactivateWorkspace() returns (stopping: seq<nat>)
      modifies this
      ensures View() == Deactivate(old(View()))
      ensures forall t :: t in stopping ==>
        exists i :: 0 <= i < |old(runs)| && old(runs)[i].phase.Active? && old(runs)[i].task == Some(t)
      ensures old(workspace).Some? ==>
        forall i :: 0 <= i < |old(runs)| && old(runs)[i].phase.Active? && old(runs)[i].task.Some? ==> old(runs)[i].task.value in stopping
    {
      stopping := [];
      if workspace.None? {
        return;
      }
      for i := 0 to |runs|
        invariant runs == old(runs)
        invariant forall t :: t in stopping ==>
          exists k :: 0 <= k < |runs| && runs[k].phase.Active? && runs[k].task == Some(t)
        invariant forall k :: 0 <= k < i && runs[k].phase.Active? && runs[k].task.Some? ==> runs[k].task.value in stopping
      {
        if runs[i].phase.Active? && runs[i].task.Some? {
          stopping := stopping + [runs[i].task.value];
        }
      }
      schedules := map n | n in schedules :: schedules[n].(enabled := false);
      runs := DeactivatedRuns(runs);
      if workspace.value.settings.Some? {
        workspace := Some(Workspace(workspace.value.threadSeq + 1, None));
      }
    }

    method UpdateSettings(settings: Settings) returns (r: Result<bool, Refusal>)
      modifies this`workspace
      ensures match UpdateAgentSettings(old(View()), settings)
              case Ok(q) => View() == q && r == Ok(old(CurrentSettings(View())) != Some(settings))
              case Error(e) => r == Error(e) && View() == old(View())
    {
      if !ValidSettings(settings) {
        return Error(BadSettings);
      }
      if !HasSettings() {
        return Error(NotStarted);
      }
      if workspace.value.settings == Some(settings) {
        return Ok(false);
      }
      if AnyUnfinished(runs) {
        return Error(TurnsUnfinished);
      }
      workspace := Some(Workspace(workspace.value.threadSeq + 1, Some(settings)));
      return Ok(true);
    }

    method DiscardRun(run: nat) returns (r: Result<(), Refusal>)
      modifies this`runs
      ensures match DiscardPendingRun(old(View()), run)
              case Ok(q) => r == Ok(()) && View() == q
              case Error(e) => r == Error(e) && View() == old(View())
    {
      if run >= |runs| || !runs[run].phase.Pending? {
        return Error(NotFound);
      }
      runs := runs[run := runs[run].(phase := Done(Discarded))];
      return Ok(());
    }

    /** The transaction after an accepted steer. Returns whether it closed the run. */
    method FinishSteer(run: nat) returns (closed: bool)
      requires Enabled(View(), EFinishSteer(run))
      modifies this`runs, this`steers
      ensures View() == RunQueue.FinishSteer(old(View()), run)
      ensures closed <==> old(runs)[run].phase.Pending?
    {
      steers := steers - {run};
      closed := runs[run].phase.Pending?;
      if closed {
        runs := runs[run := runs[run].(phase := Done(Steered))];
      }
    }

    /** Applies what the host answered about active run `run`. */
    method ReapRun(run: nat, answer: Answer)
      requires worker == Observed(run, answer) && run < |runs|
      modifies this`runs, this`worker
      ensures View() == Reap(old(View()))
    {
      var phase: Phase;
      match answer {
        case Missing => phase := Done(Lost);
        case TooLarge => phase := Done(Oversized);
        case Is(status) => phase := if Terminal(status) then Done(Finished(status)) else Active(status);
      }
      runs := runs[run := runs[run].(phase := phase)];
      worker := Idle;
    }

    /** One row of the fire loop: fire, skip to the next time, or leave an overlapping one-shot due. */
    method FireRow(n: Name, now: Clock)
      requires n in schedules && schedules[n].next.Some?
      modifies this`runs, this`schedules
      ensures View() == FireOne(old(View()), n, now)
    {
      var s := schedules[n];
      var overlapping := AnyUnfinishedOf(runs, n);
      if overlapping && s.everyMinutes.None? {
        return;
      }
      var next := None;
      if s.everyMinutes.Some? {
        next := Some(StoredNextRun(s.next.value, s.everyMinutes.value, now));
      }
      if overlapping {
        schedules := schedules[n := s.(next := next)];
        return;
      }
      schedules := schedules[n := s.(next := next, enabled := s.everyMinutes.Some?, lastRun := Some(|runs|))];
      runs := runs + [Run(Scheduled(n), Pending, None, None)];
    }

    /** Fires every due schedule, in the order in which the query returned them. */
    method FireDue(due: seq<Name>, now: Clock, stamp: int)
      requires Enabled(View(), EFire(due, now, stamp))
      modifies this`runs, this`schedules
      ensures View() == FireDueSchedules(old(View()), due, now, stamp)
    {
      if !HasSettings() {
        return;
      }
      ghost var whole := FireAll(View(), due, now);
      assert due[0..] == due;
      for k := 0 to |due|
        invariant CanFire(View(), due[k..])
        invariant FireAll(View(), due[k..], now) == whole
      {
        FireNext(View(), due, k, now);
        FireRow(due[k], now);
      }
      assert due[|due|..] == [];
    }

    /** Returns the oldest pending run while nothing is active. */
    method SelectPending() returns (run: Option<nat>)
      requires worker.Idle?
      modifies this`worker
      ensures View() == SelectRun(old(View()))
      ensures run.Some? ==> worker == Selected(run.value)
      ensures run.None? ==> AnyActive(runs) || forall i :: 0 <= i < |runs| ==> !runs[i].phase.Pending?
    {
      if AnyActive(runs) {
        return None;
      }
      var oldest := OldestPending(runs);
      if oldest == |runs| {
        return None;
      }
      worker := Selected(oldest);
      return Some(oldest);
    }

    /** Reads the workspace for the task request of run `run`; nothing to send for an orphaned or inactive one. */
    method ComposeRequest(run: nat) returns (request: Option<Request>)
      requires worker == Selected(run) && run < |runs|
      modifies this`worker, this`runs
      ensures View() == ComposeRun(old(View()))
      ensures request.Some? <==> worker.Composed?
      ensures request.Some? ==>
        && request.value.thread == worker.thread
        && request.value.settings == if worker.newThread then Some(worker.settings) else None
    {
      if !HasSettings() {
        worker := Idle;
        return None;
      }
      if runs[run].kind.Scheduled? && runs[run].kind.schedule !in schedules {
        runs := runs[run := runs[run].(phase := Done(Orphaned))];
        worker := Idle;
        return None;
      }
      var thread := if runs[run].thread.Some? then runs[run].thread.value else workspace.value.threadSeq;
      var newThread := !AnyOnThread(runs, thread);
      var settings := workspace.value.settings.value;
      worker := Composed(run, thread, settings, newThread);
      return Some(Request(thread, if newThread then Some(settings) else None));
    }

    /** Records the task of run `run`, unless the run was taken while the request was in flight. */
    method Claim(run: nat, thread: nat, task: nat) returns (claimed: bool)
      requires worker == Posted(run, thread, task) && run < |runs|
      modifies this`worker, this`runs, this`starts
      ensures View() == ClaimRun(old(View()))
      ensures claimed <==> old(runs)[run].phase.Pending?
    {
      claimed := runs[run].phase.Pending?;
      if claimed {
        runs := runs[run := Run(runs[run].kind, Active(Queued), Some(task), Some(thread))];
        starts := starts + [run];
      }
      worker := Idle;
    }
  }
}
