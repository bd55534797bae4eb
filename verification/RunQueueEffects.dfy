/** What single steps of the run queue do, told by the rows: what is fired, queued, paused, stored and closed. */
module RunQueueEffects {
  import opened Prelude
  import opened ScheduleTiming
  import opened TaskStatus
  import opened RunQueue
  import opened RunQueueInvariant
  import opened RunQueueHistory
  import opened AgentActions
  import opened AgentActionsSafety
  import opened SendOrder
  import AgentReadBack

  // ---------------------------------------------------------------------------
  // Due schedules

  /** Every run of this schedule is done. */
  predicate Free(runs: seq<Run>, n: Name) {
    forall i :: 0 <= i < |runs| && runs[i].kind == Scheduled(n) ==> runs[i].phase.Done?
  }

  /** Row `k` is a fresh run of schedule `n`, and the schedule names it as its last one. */
  predicate QueuedFor(q: Queue, k: nat, n: Name) {
    && k < |q.runs| && q.runs[k] == Run(Scheduled(n), Pending, None, None)
    && n in q.schedules && q.schedules[n].lastRun == Some(k)
  }

  predicate NewRunOf(q: Queue, q': Queue, n: Name) {
    && n in q'.schedules && q'.schedules[n].lastRun.Some?
    && |q.runs| <= q'.schedules[n].lastRun.value && QueuedFor(q', q'.schedules[n].lastRun.value, n)
  }

  ghost predicate IsNewRunOfOne(q: Queue, q': Queue, due: seq<Name>, k: nat) {
    exists i :: 0 <= i < |due| && Free(q.runs, due[i]) && QueuedFor(q', k, due[i])
  }

  /**
   * Each of these names without an unfinished run has exactly one new row, which
   * its schedule names, and there is no other new row. The new rows come in the
   * order of the names.
   */
  ghost predicate Fires(q: Queue, due: seq<Name>, q': Queue) {
    && q.runs <= q'.runs
    && (forall i :: 0 <= i < |due| && Free(q.runs, due[i]) ==> NewRunOf(q, q', due[i]))
    && (forall k :: |q.runs| <= k < |q'.runs| ==> IsNewRunOfOne(q, q', due, k))
    && (forall i, j :: 0 <= i < j < |due| && Free(q.runs, due[i]) && Free(q.runs, due[j]) ==>
          NewRunOf(q, q', due[i]) && NewRunOf(q, q', due[j])
          && q'.schedules[due[i]].lastRun.value < q'.schedules[due[j]].lastRun.value)
    && |q'.runs| == |q.runs| + |set n | n in due && Free(q.runs, n)|
  }

  /** One name: its own row if it is free, and nothing for the others. */
  lemma OneFires(q: Queue, n: Name, now: Clock, q': Queue)
    requires n in q.schedules && q.schedules[n].next.Some? && q' == FireOne(q, n, now)
    ensures q'.runs == if Free(q.runs, n) then q.runs + [Run(Scheduled(n), Pending, None, None)] else q.runs
    ensures Free(q.runs, n) ==> QueuedFor(q', |q.runs|, n)
    ensures q'.schedules.Keys == q.schedules.Keys
    ensures forall x :: x in q.schedules && x != n ==> q'.schedules[x] == q.schedules[x]
    ensures forall x :: x != n ==> (Free(q'.runs, x) <==> Free(q.runs, x))
  {
    assert Free(q.runs, n) <==> !AnyUnfinishedOf(q.runs, n) by {
      if !Free(q.runs, n) {
        var i :| 0 <= i < |q.runs| && q.runs[i].kind == Scheduled(n) && !q.runs[i].phase.Done?;
        assert UnfinishedOf(q.runs[i], n);
      }
    }
    if Free(q.runs, n) {
      assert q'.runs == q.runs + [Run(Scheduled(n), Pending, None, None)];
      forall x | x != n ensures Free(q'.runs, x) <==> Free(q.runs, x) {
        assert Free(q'.runs, x) ==> forall i :: 0 <= i < |q.runs| ==> q'.runs[i] == q.runs[i];
      }
    }
  }

  lemma AllKeepOthers(q: Queue, due: seq<Name>, now: Clock, n: Name)
    requires CanFire(q, due) && n in q.schedules && n !in due
    ensures n in FireAll(q, due, now).schedules && FireAll(q, due, now).schedules[n] == q.schedules[n]
    decreases |due|
  {
    if due != [] {
      OneFires(q, due[0], now, FireOne(q, due[0], now));
      AllKeepOthers(FireOne(q, due[0], now), due[1..], now, n);
    }
  }

  lemma FreeNames(q: Queue, due: seq<Name>, a: Queue)
    requires due != [] && due[0] !in due[1..]
    requires forall n :: n in due[1..] ==> (Free(a.runs, n) <==> Free(q.runs, n))
    ensures |set n | n in due && Free(q.runs, n)|
         == |set n | n in due[1..] && Free(a.runs, n)| + if Free(q.runs, due[0]) then 1 else 0
  {
    var all, rest := set n | n in due && Free(q.runs, n), set n | n in due[1..] && Free(a.runs, n);
    assert due == [due[0]] + due[1..];
    if Free(q.runs, due[0]) {
      assert all == rest + {due[0]};
    } else {
      assert all == rest;
    }
  }

  /** The first name fires, and the others fire after it. */
  lemma FiresOn(q: Queue, due: seq<Name>, a: Queue, q': Queue, now: Clock)
    requires due != [] && CanFire(q, due) && a == FireOne(q, due[0], now) && CanFire(a, due[1..])
    requires q' == FireAll(a, due[1..], now) && Fires(a, due[1..], q')
    ensures Fires(q, due, q')
  {
    var rest := due[1..];
    OneFires(q, due[0], now, a);
    AllKeepOthers(a, rest, now, due[0]);
    assert forall i :: 0 < i < |due| ==> due[i] == rest[i - 1] && due[i] != due[0];
    FreeNames(q, due, a);
    assert Free(q.runs, due[0]) ==> QueuedFor(q', |q.runs|, due[0]) && NewRunOf(q, q', due[0]);
    forall i | 0 < i < |due| && Free(q.runs, due[i])
      ensures NewRunOf(q, q', due[i]) && |a.runs| <= q'.schedules[due[i]].lastRun.value
    {
      assert Free(a.runs, rest[i - 1]) && NewRunOf(a, q', rest[i - 1]);
    }
    forall k | |q.runs| <= k < |q'.runs| ensures IsNewRunOfOne(q, q', due, k) {
      NewRowHasAName(q, due, a, q', k);
    }
    OrderGoesOn(q, due, a, q');
  }

  lemma NewRowHasAName(q: Queue, due: seq<Name>, a: Queue, q': Queue, k: nat)
    requires due != [] && |q.runs| <= k < |q'.runs| && |a.runs| <= |q.runs| + 1
    requires Free(q.runs, due[0]) ==> QueuedFor(q', |q.runs|, due[0])
    requires |a.runs| > |q.runs| ==> Free(q.runs, due[0])
    requires k >= |a.runs| ==> IsNewRunOfOne(a, q', due[1..], k)
    requires forall i :: 0 < i < |due| ==> (Free(a.runs, due[i]) <==> Free(q.runs, due[i]))
    ensures IsNewRunOfOne(q, q', due, k)
  {
    if k < |a.runs| {
      assert Free(q.runs, due[0]) && QueuedFor(q', k, due[0]);
    } else {
      var i :| 0 <= i < |due[1..]| && Free(a.runs, due[1..][i]) && QueuedFor(q', k, due[1..][i]);
      assert due[1..][i] == due[i + 1];
    }
  }

  lemma OrderGoesOn(q: Queue, due: seq<Name>, a: Queue, q': Queue)
    requires due != [] && Fires(a, due[1..], q')
    requires Free(q.runs, due[0]) ==>
      QueuedFor(q', |q.runs|, due[0]) && NewRunOf(q, q', due[0]) && |a.runs| == |q.runs| + 1
    requires forall i :: 0 < i < |due| ==> (Free(a.runs, due[i]) <==> Free(q.runs, due[i]))
    requires forall i :: 0 < i < |due| && Free(q.runs, due[i]) ==>
      NewRunOf(q, q', due[i]) && |a.runs| <= q'.schedules[due[i]].lastRun.value
    ensures forall i, j :: 0 <= i < j < |due| && Free(q.runs, due[i]) && Free(q.runs, due[j]) ==>
      NewRunOf(q, q', due[i]) && NewRunOf(q, q', due[j])
      && q'.schedules[due[i]].lastRun.value < q'.schedules[due[j]].lastRun.value
  {
    forall i, j | 0 <= i < j < |due| && Free(q.runs, due[i]) && Free(q.runs, due[j])
      ensures NewRunOf(q, q', due[i]) && NewRunOf(q, q', due[j])
      ensures q'.schedules[due[i]].lastRun.value < q'.schedules[due[j]].lastRun.value
    {
      if i > 0 {
        var rest := due[1..];
        assert rest[i - 1] == due[i] && rest[j - 1] == due[j];
      }
    }
  }

  lemma {:induction false} AllFire(q: Queue, due: seq<Name>, now: Clock)
    requires CanFire(q, due)
    ensures Fires(q, due, FireAll(q, due, now))
    ensures FireAll(q, due, now).schedules.Keys == q.schedules.Keys
    ensures var q' := FireAll(q, due, now); q' == q.(runs := q'.runs, schedules := q'.schedules)
    decreases |due|
  {
    if due == [] {
      assert (set n | n in due && Free(q.runs, n)) == {};
    } else {
      var a := FireOne(q, due[0], now);
      OneFires(q, due[0], now, a);
      assert CanFire(a, due[1..]) by {
        assert forall i :: 0 <= i < |due[1..]| ==> due[1..][i] == due[i + 1];
      }
      AllFire(a, due[1..], now);
      FiresOn(q, due, a, FireAll(q, due, now), now);
    }
  }

  /** What becomes of the row of a due schedule, according to whether it is free. */
  predicate RowMovesOn(s: Schedule, free: bool, now: Clock, s': Schedule) {
    && s.next.Some? && s'.title == s.title && s'.prompt == s.prompt && s'.everyMinutes == s.everyMinutes && s'.anchor == s.anchor
    && (!free ==> s'.lastRun == s.lastRun)
    && match s.everyMinutes
       case None => if free then s'.next.None? && !s'.enabled else s' == s
       case Some(minutes) =>
         && s'.next.Some? && s'.enabled == (s.enabled || free)
         && s.next.value < s'.next.value && now < ParseUtc(s'.next.value)
         && ParseUtc(s'.next.value) <= (if ParseUtc(s.next.value) < now then now else ParseUtc(s.next.value)) + ParseUtc(Period(minutes))
         && OnGrid(s.next.value, minutes, s'.next.value)
  }

  lemma OneMovesOn(q: Queue, n: Name, now: Clock)
    requires n in q.schedules && ScheduleOk(q.schedules[n]) && q.schedules[n].next.Some?
    ensures RowMovesOn(q.schedules[n], Free(q.runs, n), now, FireOne(q, n, now).schedules[n])
  {
    var s := q.schedules[n];
    OneFires(q, n, now, FireOne(q, n, now));
    if s.everyMinutes.Some? {
      StoredNextRunIsDriftFree(s.next.value, s.next.value, s.everyMinutes.value, now);
    }
    if !Free(q.runs, n) {
      var i :| 0 <= i < |q.runs| && q.runs[i].kind == Scheduled(n) && !q.runs[i].phase.Done?;
      assert UnfinishedOf(q.runs[i], n);
    }
  }

  lemma {:induction false} RowsMoveOn(q: Queue, due: seq<Name>, now: Clock, n: Name)
    requires CanFire(q, due) && n in due && ScheduleOk(q.schedules[n])
    ensures n in FireAll(q, due, now).schedules
    ensures RowMovesOn(q.schedules[n], Free(q.runs, n), now, FireAll(q, due, now).schedules[n])
    decreases |due|
  {
    var a := FireOne(q, due[0], now);
    OneFires(q, due[0], now, a);
    assert forall i :: 0 <= i < |due[1..]| ==> due[1..][i] == due[i + 1];
    if n == due[0] {
      OneMovesOn(q, n, now);
      AllKeepOthers(a, due[1..], now, n);
    } else {
      RowsMoveOn(a, due[1..], now, n);
    }
  }

  /**
   * The firing of the due schedules, by the rows. In an active workspace each due
   * schedule without an unfinished run gets exactly one new pending run and names
   * it, in the order in which they are due; a due recurring one moves on to a
   * later time of its grid, whether it fired or was skipped; a one-shot ends, or
   * stays due. Nothing else changes, and nothing at all in an inactive workspace.
   */
  lemma DueSchedulesFire(q: Queue, due: seq<Name>, now: Clock, stamp: int, q': Queue)
    requires SchedulesOk(q.schedules) && Enabled(q, EFire(due, now, stamp)) && q' == Step(q, EFire(due, now, stamp))
    ensures !IsActive(q) ==> q' == q
    ensures IsActive(q) ==> Fires(q, due, q') && q'.schedules.Keys == q.schedules.Keys
    ensures q' == q.(runs := q'.runs, schedules := q'.schedules)
    ensures forall n :: n in q.schedules && n !in due ==> n in q'.schedules && q'.schedules[n] == q.schedules[n]
    ensures IsActive(q) ==> forall n :: n in due ==>
      n in q.schedules && n in q'.schedules && RowMovesOn(q.schedules[n], Free(q.runs, n), now, q'.schedules[n])
  {
    if IsActive(q) {
      AllFire(q, due, now);
      forall n | n in q.schedules && n !in due ensures q'.schedules[n] == q.schedules[n] {
        AllKeepOthers(q, due, now, n);
      }
      forall n | n in due
        ensures n in q.schedules && RowMovesOn(q.schedules[n], Free(q.runs, n), now, q'.schedules[n])
      {
        assert ScheduleOk(q.schedules[n]);
        RowsMoveOn(q, due, now, n);
      }
    }
  }

  // ---------------------------------------------------------------------------
  // Messages

  /** The unfinished messages. */
  function WaitingOrRunning(runs: seq<Run>): set<nat> {
    set i | 0 <= i < |runs| && runs[i].kind.Chat? && !runs[i].phase.Done?
  }

  lemma {:induction false} UnfinishedAreCounted(runs: seq<Run>)
    ensures UnfinishedChats(runs) == |WaitingOrRunning(runs)|
    decreases |runs|
  {
    if runs == [] {
      assert WaitingOrRunning(runs) == {};
    } else {
      var n := |runs| - 1;
      UnfinishedAreCounted(runs[..n]);
      var before := WaitingOrRunning(runs[..n]);
      if runs[n].kind.Chat? && !runs[n].phase.Done? {
        assert WaitingOrRunning(runs) == before + {n};
      } else {
        assert WaitingOrRunning(runs) == before;
      }
    }
  }

  /** A message that the workspace takes: settings come with the first one, and only with it. */
  predicate Takes(q: Queue, supplied: Option<Settings>) {
    && |WaitingOrRunning(q.runs)| < MAX_QUEUED_CHAT_TURNS
    && if IsActive(q) then supplied.None?
       else supplied.Some? && ValidSettings(supplied.value) && forall i :: 0 <= i < |q.runs| ==> !q.runs[i].phase.Active?
  }

  /** The new message is steered into task `t`: its turn was seen running, and no message waits before this one. */
  predicate Steerable(runs: seq<Run>, t: nat) {
    && (exists i :: 0 <= i < |runs| && runs[i].phase == Active(Running) && runs[i].task == Some(t))
    && forall i :: 0 <= i < |runs| && runs[i].kind.Chat? ==> !runs[i].phase.Pending?
  }

  lemma {:induction false} TargetExactly(runs: seq<Run>, from: nat, t: nat)
    requires RowsOk(runs) && OneActive(runs) && from <= |runs|
    ensures RunningTask(runs, from) == Some(t)
            <==> exists i :: from <= i < |runs| && runs[i].phase == Active(Running) && runs[i].task == Some(t)
    decreases |runs| - from
  {
    if from < |runs| {
      TargetExactly(runs, from + 1, t);
    }
  }

  lemma SteerTargetExactly(runs: seq<Run>, t: nat)
    requires RowsOk(runs) && OneActive(runs)
    ensures SteerTarget(runs) == Some(t) <==> Steerable(runs, t)
  {
    TargetExactly(runs, 0, t);
    if AnyPendingChat(runs) {
      var i :| 0 <= i < |runs| && PendingChat(runs[i]);
      assert runs[i].kind.Chat? && runs[i].phase.Pending?;
    } else {
      assert forall i :: 0 <= i < |runs| ==> !PendingChat(runs[i]);
    }
  }

  lemma InputIsQueued(q: Queue)
    requires RowsOk(q.runs) && OneActive(q.runs)
    ensures QueueHumanInput(q).Ok? <==> |WaitingOrRunning(q.runs)| < MAX_QUEUED_CHAT_TURNS
    ensures QueueHumanInput(q).Ok? ==>
      var q' := QueueHumanInput(q).value;
      && q' == q.(runs := q.runs + [Run(Chat, Pending, None, None)], steers := q'.steers)
      && (forall t: nat :: Steerable(q.runs, t) ==> q'.steers == q.steers[|q.runs| := Calling(t)])
      && ((forall t: nat :: !Steerable(q.runs, t)) ==> q'.steers == q.steers)
  {
    UnfinishedAreCounted(q.runs);
    forall t: nat ensures SteerTarget(q.runs) == Some(t) <==> Steerable(q.runs, t) {
      SteerTargetExactly(q.runs, t);
    }
  }

  /**
   * A message is taken exactly while fewer than twenty are unfinished and, in an
   * inactive workspace, if it brings valid settings and nothing is active any
   * more. Then it is the last row, pending; the workspace is active with those
   * settings on the same thread; and it is steered exactly if the active turn was
   * seen running and no message waits. A refused message changes nothing.
   */
  lemma MessageIsTaken(q: Queue, supplied: Option<Settings>, q': Queue)
    requires Inv(q) && q' == Step(q, ESend(supplied))
    ensures !Takes(q, supplied) ==> q' == q
    ensures Takes(q, supplied) ==>
      && q'.runs == q.runs + [Run(Chat, Pending, None, None)]
      && IsActive(q') && ThreadSeq(q') == ThreadSeq(q)
      && CurrentSettings(q') == (if IsActive(q) then CurrentSettings(q) else supplied)
      && (forall t: nat :: Steerable(q.runs, t) ==> q'.steers == q.steers[|q.runs| := Calling(t)])
      && ((forall t: nat :: !Steerable(q.runs, t)) ==> q'.steers == q.steers)
      && q' == q.(workspace := q'.workspace, runs := q'.runs, steers := q'.steers)
  {
    assert AnyActive(q.runs) <==> exists i :: 0 <= i < |q.runs| && q.runs[i].phase.Active?;
    if IsActive(q) {
      InputIsQueued(q);
    } else if supplied.Some? {
      InputIsQueued(EnsureWorkspace(q, supplied.value));
    }
  }

  // ---------------------------------------------------------------------------
  // Pausing and settings

  /** A deactivation switches every schedule off, ends every pending run, keeps the others, and rotates the thread. */
  lemma DeactivationPauses(q: Queue, q': Queue)
    requires q.workspace.Some? && q' == Step(q, EDeactivate)
    ensures !IsActive(q') && ThreadSeq(q') == ThreadSeq(q) + if IsActive(q) then 1 else 0
    ensures q'.schedules.Keys == q.schedules.Keys
    ensures forall n :: n in q.schedules ==> !q'.schedules[n].enabled && q'.schedules[n] == q.schedules[n].(enabled := false)
    ensures |q'.runs| == |q.runs|
    ensures forall i :: 0 <= i < |q.runs| ==>
      if q.runs[i].phase.Pending? then q'.runs[i] == q.runs[i].(phase := Done(Deactivated)) else q'.runs[i] == q.runs[i]
    ensures q' == q.(workspace := q'.workspace, runs := q'.runs, schedules := q'.schedules)
  {
  }

  /** The settings of the next turns: changed exactly while every run is done, on a new thread. */
  lemma SettingsAreStored(q: Queue, s: Settings, q': Queue)
    requires q' == Step(q, ESettings(s))
    ensures CurrentSettings(q') == Some(s) <==>
      CurrentSettings(q) == Some(s)
      || (ValidSettings(s) && IsActive(q) && forall i :: 0 <= i < |q.runs| ==> q.runs[i].phase.Done?)
    ensures CurrentSettings(q') == CurrentSettings(q) ==> q' == q
    ensures CurrentSettings(q') != CurrentSettings(q) ==>
      CurrentSettings(q') == Some(s) && ThreadSeq(q') == ThreadSeq(q) + 1 && q' == q.(workspace := q'.workspace)
  {
    assert AnyUnfinished(q.runs) <==> exists i :: 0 <= i < |q.runs| && !q.runs[i].phase.Done?;
  }

  /** A step that activates the workspace. */
  predicate Activates(e: Event) {
    e.EActivate? || e.ESend?
  }

  predicate NonePending(runs: seq<Run>) {
    forall i :: 0 <= i < |runs| ==> !runs[i].phase.Pending?
  }

  lemma QuietWorker(q: Queue, e: Event, q': Queue)
    requires !IsActive(q) && NonePending(q.runs) && Enabled(q, e) && q' == Step(q, e)
    requires IsWorkerStep(e) || IsHostStep(e)
    ensures !IsActive(q') && |q'.runs| == |q.runs| && q'.starts == q.starts
  {
  }

  lemma QuietOperator(q: Queue, e: Event, q': Queue)
    requires !IsActive(q) && Enabled(q, e) && !Activates(e) && q' == Step(q, e)
    requires !IsWorkerStep(e) && !IsHostStep(e)
    ensures !IsActive(q') && |q'.runs| == |q.runs| && q'.starts == q.starts
  {
  }

  lemma NextQuiet(states: seq<Queue>, events: seq<Event>, i: nat)
    requires Execution(states, events) && i < |events| && !IsActive(states[i]) && !Activates(events[i])
    ensures !IsActive(states[i + 1]) && |states[i + 1].runs| == |states[i].runs| && states[i + 1].starts == states[i].starts
  {
    ReachableInv(states, events, i);
    if IsWorkerStep(events[i]) || IsHostStep(events[i]) {
      QuietWorker(states[i], events[i], states[i + 1]);
    } else {
      QuietOperator(states[i], events[i], states[i + 1]);
    }
  }

  /** Until it is activated again, an inactive workspace queues nothing, fires nothing and starts nothing. */
  lemma {:induction false} InactiveIsQuiet(states: seq<Queue>, events: seq<Event>, i: nat, j: nat)
    requires Execution(states, events) && i <= j < |states| && !IsActive(states[i])
    requires forall k :: i <= k < j ==> !Activates(events[k])
    ensures !IsActive(states[j]) && |states[j].runs| == |states[i].runs| && states[j].starts == states[i].starts
    decreases j
  {
    if i < j {
      InactiveIsQuiet(states, events, i, j - 1);
      NextQuiet(states, events, j - 1);
    }
  }

  /** An activation is taken exactly with valid settings, while the workspace is inactive and nothing is active any more. */
  lemma ActivationIsTaken(q: Queue, s: Settings, q': Queue)
    requires q' == Step(q, EActivate(s))
    ensures ValidSettings(s) && !IsActive(q) && (forall i :: 0 <= i < |q.runs| ==> !q.runs[i].phase.Active?) ==>
      CurrentSettings(q') == Some(s) && ThreadSeq(q') == ThreadSeq(q) && q' == q.(workspace := q'.workspace)
    ensures !ValidSettings(s) || IsActive(q) || (exists i :: 0 <= i < |q.runs| && q.runs[i].phase.Active?) ==> q' == q
  {
    assert AnyActive(q.runs) <==> exists i :: 0 <= i < |q.runs| && q.runs[i].phase.Active?;
  }

  /** A control interaction is a message of an active workspace. */
  lemma InteractionIsTaken(q: Queue, q': Queue)
    requires Inv(q) && q' == Step(q, EInteract)
    ensures IsActive(q) ==> q' == Step(q, ESend(None))
    ensures !IsActive(q) ==> q' == q
  {
  }

  /** A discard closes exactly the pending run it names. */
  lemma DiscardIsTaken(q: Queue, r: nat, q': Queue)
    requires q' == Step(q, EDiscard(r))
    ensures r < |q.runs| && q.runs[r].phase.Pending? ==>
      && |q'.runs| == |q.runs| && q'.runs[r] == q.runs[r].(phase := Done(Discarded))
      && (forall i :: 0 <= i < |q.runs| && i != r ==> q'.runs[i] == q.runs[i]) && q' == q.(runs := q'.runs)
    ensures r >= |q.runs| || !q.runs[r].phase.Pending? ==> q' == q
  {
  }

  /** The operator's switch or removal of a schedule: accepted exactly under its row, and read back. */
  lemma OperatorEditsASchedule(q: Queue, op: ScheduleOp, now: Clock, q': Queue)
    requires (op.SetEnabled? || op.Delete?) && q' == Step(q, EEdit(op, now))
    ensures AgentReadBack.ScheduleAccepted(q.schedules, IsActive(q), op) ==>
      && AgentReadBack.ScheduleReadsBack(q.schedules, op, now, q'.schedules)
      && AgentReadBack.OthersSame(q.schedules, q'.schedules, op.name) && q' == q.(schedules := q'.schedules)
    ensures !AgentReadBack.ScheduleAccepted(q.schedules, IsActive(q), op) ==> q' == q
  {
    AgentReadBack.ScheduleIsEdited(q.schedules, IsActive(q), op, now);
  }

  /** A steered message that the host accepts is delivered, and its run is closed without a turn of its own. */
  lemma SteeredMessageIsClosed(q: Queue, r: nat, told: Queue, q': Queue)
    requires CanReplyToSteer(q, r, SteerAccepted) && told == Step(q, EReplySteer(r, SteerAccepted))
    requires r < |q.runs| && q.runs[r].phase.Pending?
    requires Enabled(told, EFinishSteer(r)) ==> q' == Step(told, EFinishSteer(r))
    ensures Enabled(told, EFinishSteer(r)) && told.deliveries == q.deliveries + [r] && told.runs == q.runs
    ensures q'.runs == q.runs[r := q.runs[r].(phase := Done(Steered))] && r !in q'.steers && q'.deliveries == told.deliveries
    ensures q' == q.(runs := q'.runs, steers := q'.steers, deliveries := q'.deliveries)
  {
  }

  /** A steer that is refused, or whose answer is lost, leaves its run as it is; only the latter was delivered. */
  lemma UnansweredSteerIsLeft(q: Queue, r: nat, reply: SteerReply, q': Queue)
    requires CanReplyToSteer(q, r, reply) && reply != SteerAccepted && q' == Step(q, EReplySteer(r, reply))
    ensures q'.runs == q.runs && q'.steers == q.steers - {r}
    ensures q'.deliveries == if reply == SteerRefused then q.deliveries else q.deliveries + [r]
  {
  }

  // ---------------------------------------------------------------------------
  // Dispatch

  /** While nothing is active the oldest pending run is taken up, and otherwise none. */
  lemma OldestIsSelected(q: Queue, q': Queue)
    requires Enabled(q, ESelect) && q' == Step(q, ESelect)
    ensures q' == q.(worker := q'.worker)
    ensures forall r: nat :: q'.worker == Selected(r) <==>
      && r < |q.runs| && q.runs[r].phase.Pending? && (forall i :: 0 <= i < |q.runs| ==> !q.runs[i].phase.Active?)
      && forall i :: 0 <= i < r ==> !q.runs[i].phase.Pending?
  {
    assert AnyActive(q.runs) <==> exists i :: 0 <= i < |q.runs| && q.runs[i].phase.Active?;
  }

  /** The schedule of a scheduled run exists. */
  predicate HasItsSchedule(q: Queue, r: Run) {
    r.kind.Scheduled? ==> r.kind.schedule in q.schedules
  }

  /**
   * The request for the selected run is for the present thread with the present
   * settings, and it will carry them exactly if no run was on that thread before. A
   * run without its schedule is closed; in an inactive workspace the run waits.
   */
  lemma RequestIsComposed(q: Queue, q': Queue)
    requires Enabled(q, ECompose) && q' == Step(q, ECompose) && q.runs[q.worker.run].thread.None?
    ensures var r, t := q.worker.run, ThreadSeq(q);
      if !IsActive(q) then q' == q.(worker := Idle)
      else if !HasItsSchedule(q, q.runs[r]) then
        q' == q.(worker := Idle, runs := q.runs[r := q.runs[r].(phase := Done(Orphaned))])
      else
        && q' == q.(worker := q'.worker) && q'.worker.Composed? && q'.worker.run == r && q'.worker.thread == t
        && Some(q'.worker.settings) == CurrentSettings(q)
        && (q'.worker.newThread <==> forall i :: 0 <= i < |q.runs| ==> q.runs[i].thread != Some(t))
  {
  }

  /** An accepted request is a new queued task of the host under the next number, and delivers the run's message. */
  lemma RequestIsPosted(q: Queue, reply: PostReply, q': Queue)
    requires Enabled(q, EPost(reply)) && q' == Step(q, EPost(reply))
    ensures var w, task := q.worker, q.host.nextTask;
      if reply == PostRefused then q' == q.(worker := Idle)
      else
        && q'.host == Host(task + 1, q.host.tasks[task := Queued]) && q'.runs == q.runs
        && |q'.requests| == |q.requests| + 1 && q.requests <= q'.requests
        && q'.requests[|q.requests|].thread == w.thread
        && (w.newThread ==> q'.requests[|q.requests|].settings == Some(w.settings))
        && (!w.newThread ==> q'.requests[|q.requests|].settings == None)
        && q'.deliveries == (if q.runs[w.run].kind == Chat then q.deliveries + [w.run] else q.deliveries)
        && q'.worker == if reply == PostAccepted then Posted(w.run, w.thread, task) else Idle
  {
  }

  /** The run becomes active with its task and thread, unless it was taken in the meantime. */
  lemma RunIsClaimed(q: Queue, q': Queue)
    requires Enabled(q, EClaim) && q' == Step(q, EClaim)
    ensures var w := q.worker;
      && q' == q.(worker := Idle, runs := q'.runs, starts := q'.starts) && |q'.runs| == |q.runs|
      && (forall i :: 0 <= i < |q.runs| && i != w.run ==> q'.runs[i] == q.runs[i])
      && if q.runs[w.run].phase == Pending then
           && q'.starts == q.starts + [w.run] && q'.runs[w.run].kind == q.runs[w.run].kind
           && q'.runs[w.run].phase == Active(Queued)
           && q'.runs[w.run].task == Some(w.task) && q'.runs[w.run].thread == Some(w.thread)
         else q'.runs == q.runs && q'.starts == q.starts
  {
  }
}
