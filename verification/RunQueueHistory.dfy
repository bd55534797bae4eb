/** What holds over whole runs of the queue: safety, final states, delivery, and the schedule grid. */
module RunQueueHistory {
  import opened Prelude
  import opened ScheduleTiming
  import opened TaskStatus
  import opened RunQueue
  import opened RunQueueInvariant

  /** A run of the engine: any interleaving of steps from the empty database. */
  ghost predicate Execution(states: seq<Queue>, events: seq<Event>) {
    && |states| == |events| + 1
    && states[0] == EMPTY_QUEUE
    && forall i :: 0 <= i < |events| ==> Enabled(states[i], events[i]) && states[i + 1] == Step(states[i], events[i])
  }

  lemma {:induction false} ReachableInv(states: seq<Queue>, events: seq<Event>, i: nat)
    requires Execution(states, events) && i < |states|
    ensures Inv(states[i])
  {
    if i == 0 {
      EmptyQueueInv();
    } else {
      ReachableInv(states, events, i - 1);
      StepKeepsInv(states[i - 1], events[i - 1]);
      assert states[i - 1 + 1] == Step(states[i - 1], events[i - 1]);
    }
  }

  /** Serialized dispatch: in every reachable state. */
  lemma DispatchIsSerialized(states: seq<Queue>, events: seq<Event>, i: nat)
    requires Execution(states, events) && i < |states|
    ensures OneActive(states[i].runs)
    ensures StartsOk(states[i].runs, states[i].starts)
    ensures UnfinishedChats(states[i].runs) <= MAX_QUEUED_CHAT_TURNS
    ensures OneUnfinishedPerSchedule(states[i].runs)
  {
    ReachableInv(states, events, i);
  }

  // ---------------------------------------------------------------------------
  // Final states and growing histories

  /**
   * How a row may change: a kind is fixed, a done row stays as it is (a
   * scheduled one that never got a task may be closed again, as orphaned), a
   * recorded task and thread stay.
   */
  ghost predicate RunEvolves(a: Run, b: Run) {
    && a.kind == b.kind
    && (a.phase.Done? ==> b == a || (a.task.None? && a.kind.Scheduled? && b == a.(phase := Done(Orphaned))))
    && (a.phase.Active? ==> !b.phase.Pending?)
    && (a.task.Some? ==> a.task == b.task && a.thread == b.thread)
  }

  ghost predicate Evolves(a: Queue, b: Queue) {
    && |a.runs| <= |b.runs|
    && (forall i :: 0 <= i < |a.runs| ==> RunEvolves(a.runs[i], b.runs[i]))
    && ThreadSeq(a) <= ThreadSeq(b)
    && a.deliveries <= b.deliveries
    && a.starts <= b.starts
    && a.requests <= b.requests
  }

  lemma FireAllEvolves(q: Queue, due: seq<Name>, now: Clock)
    requires forall i :: 0 <= i < |due| ==> due[i] in q.schedules && q.schedules[due[i]].next.Some?
    requires forall i, j :: 0 <= i < j < |due| ==> due[i] != due[j]
    ensures Evolves(q, FireAll(q, due, now))
    decreases |due|
  {
    if due != [] {
      FireAllEvolves(FireOne(q, due[0], now), due[1..], now);
    }
  }

  lemma SendEvolves(q: Queue, supplied: Option<Settings>)
    ensures Evolves(q, OrUnchanged(SendMessage(q, supplied), q))
    ensures Evolves(q, OrUnchanged(SubmitInteraction(q), q))
  {
  }

  lemma WorkerEvolves(q: Queue, e: Event)
    requires RowsOk(q.runs) && QWorkerOk(q) && Enabled(q, e)
    requires e.EReap? || e.ECompose? || e.EPost? || e.EClaim?
    ensures Evolves(q, Step(q, e))
  {
    if e.EReap? {
      assert q.runs[q.worker.run].phase.Active?;
    } else if e.ECompose? {
      assert q.runs[q.worker.run].kind.Chat? ==> Step(q, e).runs == q.runs;
      assert !q.runs[q.worker.run].phase.Active? && q.runs[q.worker.run].task.None?;
    }
  }

  lemma OperatorEvolves(q: Queue, e: Event)
    requires e.EActivate? || e.EDeactivate? || e.ESettings? || e.EDiscard? || e.EEdit?
    ensures Evolves(q, Step(q, e))
  {
  }

  lemma CallEvolves(q: Queue, e: Event)
    requires Enabled(q, e)
    requires e.EReplySteer? || e.EFinishSteer? || e.EObserve? || e.ESelect? || e.EHostMove? || e.EHostForget? || e.ERestart?
    ensures Evolves(q, Step(q, e))
  {
  }

  lemma StepEvolves(q: Queue, e: Event)
    requires Inv(q) && Enabled(q, e)
    ensures Evolves(q, Step(q, e))
  {
    match e
    case EFire(due, now, stamp) => if IsActive(q) { FireAllEvolves(q, due, now); }
    case ESend(supplied) => SendEvolves(q, supplied);
    case EInteract => SendEvolves(q, None);
    case EReap => WorkerEvolves(q, e);
    case ECompose => WorkerEvolves(q, e);
    case EPost(_) => WorkerEvolves(q, e);
    case EClaim => WorkerEvolves(q, e);
    case EActivate(_) => OperatorEvolves(q, e);
    case EDeactivate => OperatorEvolves(q, e);
    case ESettings(_) => OperatorEvolves(q, e);
    case EDiscard(_) => OperatorEvolves(q, e);
    case EEdit(_, _) => OperatorEvolves(q, e);
    case _ => CallEvolves(q, e);
  }

  lemma EvolvesTransitive(a: Queue, b: Queue, c: Queue)
    requires Evolves(a, b) && Evolves(b, c)
    ensures Evolves(a, c)
  {
    assert forall i :: 0 <= i < |a.runs| ==> RunEvolves(a.runs[i], b.runs[i]) && RunEvolves(b.runs[i], c.runs[i]);
  }

  lemma NextEvolves(states: seq<Queue>, events: seq<Event>, i: nat)
    requires Execution(states, events) && i < |events|
    ensures Evolves(states[i], states[i + 1])
  {
    ReachableInv(states, events, i);
    StepEvolves(states[i], events[i]);
  }

  lemma {:induction false} EvolvesChain(states: seq<Queue>, i: nat, j: nat)
    requires i <= j < |states| && forall k {:trigger states[k]} :: i <= k < j ==> Evolves(states[k], states[k + 1])
    ensures Evolves(states[i], states[j])
    decreases j
  {
    if i < j {
      EvolvesChain(states, i, j - 1);
      EvolvesTransitive(states[i], states[j - 1], states[j]);
    }
  }

  /** Between any two moments of a run the tables and histories only evolve. */
  lemma EvolvesAlong(states: seq<Queue>, events: seq<Event>, i: nat, j: nat)
    requires Execution(states, events) && i <= j < |states|
    ensures Evolves(states[i], states[j])
  {
    forall k {:trigger states[k]} | i <= k < j ensures Evolves(states[k], states[k + 1]) {
      NextEvolves(states, events, k);
    }
    EvolvesChain(states, i, j);
  }

  lemma DoneNeverStarts(q: Queue, e: Event, r: nat)
    requires QWorkerOk(q) && Enabled(q, e) && r < |q.runs| && q.runs[r].phase.Done?
    ensures r in Step(q, e).starts ==> r in q.starts
  {
    if !e.EClaim? {
      StartsOnlyByClaim(q, e);
    }
  }

  lemma NextNeverStartsDone(states: seq<Queue>, events: seq<Event>, i: nat, r: nat)
    requires Execution(states, events) && i < |events|
    requires r < |states[i].runs| && states[i].runs[r].phase.Done?
    ensures r in states[i + 1].starts ==> r in states[i].starts
  {
    ReachableInv(states, events, i);
    DoneNeverStarts(states[i], events[i], r);
  }

  lemma {:induction false} DoneNeverStartsAlong(states: seq<Queue>, events: seq<Event>, i: nat, j: nat, r: nat)
    requires Execution(states, events) && i <= j < |states|
    requires r < |states[i].runs| && states[i].runs[r].phase.Done?
    ensures r in states[j].starts ==> r in states[i].starts
    decreases j
  {
    if i < j {
      DoneNeverStartsAlong(states, events, i, j - 1, r);
      EvolvesAlong(states, events, i, j - 1);
      assert RunEvolves(states[i].runs[r], states[j - 1].runs[r]);
      NextNeverStartsDone(states, events, j - 1, r);
    }
  }

  /**
   * Done is final: the row never changes again (a scheduled one that never got
   * a task may still be closed as orphaned), and a run discarded or deactivated,
   * even in mid-dispatch, is never resurrected.
   */
  lemma DoneIsFinal(states: seq<Queue>, events: seq<Event>, i: nat, j: nat, r: nat)
    requires Execution(states, events) && i <= j < |states|
    requires r < |states[i].runs| && states[i].runs[r].phase.Done?
    ensures r < |states[j].runs| && RunEvolves(states[i].runs[r], states[j].runs[r])
    ensures states[j].runs[r].phase.Done?
    ensures r in states[j].starts ==> r in states[i].starts
  {
    EvolvesAlong(states, events, i, j);
    assert RunEvolves(states[i].runs[r], states[j].runs[r]);
    DoneNeverStartsAlong(states, events, i, j, r);
  }

  lemma StartsOnlyByClaim(q: Queue, e: Event)
    requires Enabled(q, e) && !e.EClaim?
    ensures Step(q, e).starts == q.starts
  {
    if e.EFire? && IsActive(q) {
      FireKeepsStarts(q, e.due, e.at);
    }
  }

  lemma FireKeepsStarts(q: Queue, due: seq<Name>, now: Clock)
    requires forall i :: 0 <= i < |due| ==> due[i] in q.schedules && q.schedules[due[i]].next.Some?
    requires forall i, j :: 0 <= i < j < |due| ==> due[i] != due[j]
    ensures FireAll(q, due, now).starts == q.starts
    decreases |due|
  {
    if due != [] {
      FireKeepsStarts(FireOne(q, due[0], now), due[1..], now);
    }
  }

  // ---------------------------------------------------------------------------
  // Settings of a thread

  /** All task requests of one thread that carry settings carry the same settings. */
  lemma ThreadSettingsAreStable(states: seq<Queue>, events: seq<Event>, i: nat, k: nat, l: nat)
    requires Execution(states, events) && i < |states|
    requires k < |states[i].requests| && l < |states[i].requests|
    requires states[i].requests[k].thread == states[i].requests[l].thread
    requires states[i].requests[k].settings.Some? && states[i].requests[l].settings.Some?
    ensures states[i].requests[k].settings == states[i].requests[l].settings
  {
    ReachableInv(states, events, i);
  }

  // ---------------------------------------------------------------------------
  // No message is lost or overtaken

  /** Every message waits, was delivered, or was withdrawn; and whatever is older than a delivered one no longer waits. */
  lemma NoMessageIsLost(states: seq<Queue>, events: seq<Event>, i: nat, m: nat)
    requires Execution(states, events) && i < |states| && m < |states[i].runs| && states[i].runs[m].kind.Chat?
    ensures states[i].runs[m].phase.Pending? || m in states[i].deliveries || Withdrawn(states[i].runs[m])
    ensures forall d :: d in states[i].deliveries && m < d ==> m in states[i].deliveries || Withdrawn(states[i].runs[m])
  {
    ReachableInv(states, events, i);
  }

  /** The four ways out of the queue, and what each of them says about delivery. */
  ghost predicate LeavesProperly(q: Queue, e: Event, m: nat)
    requires Enabled(q, e) && m < |Step(q, e).runs|
  {
    match Step(q, e).runs[m].phase
    case Pending => true
    case Active(seen) => e == EClaim && m in q.deliveries
    case Done(outcome) =>
      match outcome
      case Steered => e == EFinishSteer(m) && m in q.deliveries
      case Discarded => e == EDiscard(m)
      case Deactivated => e == EDeactivate
      case _ => false
  }

  lemma WorkerTakesProperly(q: Queue, e: Event, m: nat)
    requires QWorkerOk(q) && Enabled(q, e) && m < |q.runs| && PendingChat(q.runs[m])
    requires e.EReap? || e.ECompose? || e.EPost? || e.EClaim?
    ensures m < |Step(q, e).runs| && LeavesProperly(q, e, m)
  {
  }

  lemma OperatorTakesProperly(q: Queue, e: Event, m: nat)
    requires QDeliveriesOk(q) && Enabled(q, e) && m < |q.runs| && PendingChat(q.runs[m])
    requires e.EDeactivate? || e.EDiscard? || e.EReplySteer? || e.EFinishSteer? || e.EEdit?
    ensures m < |Step(q, e).runs| && LeavesProperly(q, e, m)
  {
  }

  lemma OthersLeaveInQueue(q: Queue, e: Event, m: nat)
    requires Enabled(q, e) && m < |q.runs| && PendingChat(q.runs[m])
    requires e.ESend? || e.EInteract? || e.EActivate? || e.ESettings? || e.EObserve? || e.ESelect? || IsHostStep(e)
    ensures m < |Step(q, e).runs| && LeavesProperly(q, e, m)
  {
    assert Step(q, e).runs[m] == q.runs[m];
  }

  lemma WaysOutOfTheQueue(q: Queue, e: Event, m: nat)
    requires Inv(q) && Enabled(q, e) && m < |q.runs| && PendingChat(q.runs[m])
    ensures m < |Step(q, e).runs| && LeavesProperly(q, e, m)
  {
    match e
    case EFire(due, now, stamp) => if IsActive(q) { FireKeepsRow(q, due, now, m); }
    case EReap => WorkerTakesProperly(q, e, m);
    case ECompose => WorkerTakesProperly(q, e, m);
    case EPost(_) => WorkerTakesProperly(q, e, m);
    case EClaim => WorkerTakesProperly(q, e, m);
    case EDeactivate => OperatorTakesProperly(q, e, m);
    case EDiscard(_) => OperatorTakesProperly(q, e, m);
    case EReplySteer(_, _) => OperatorTakesProperly(q, e, m);
    case EFinishSteer(_) => OperatorTakesProperly(q, e, m);
    case EEdit(_, _) => OperatorTakesProperly(q, e, m);
    case _ => OthersLeaveInQueue(q, e, m);
  }

  lemma FireKeepsRow(q: Queue, due: seq<Name>, now: Clock, m: nat)
    requires m < |q.runs|
    requires forall i :: 0 <= i < |due| ==> due[i] in q.schedules && q.schedules[due[i]].next.Some?
    requires forall i, j :: 0 <= i < j < |due| ==> due[i] != due[j]
    ensures m < |FireAll(q, due, now).runs| && FireAll(q, due, now).runs[m] == q.runs[m]
    decreases |due|
  {
    if due != [] {
      FireKeepsRow(FireOne(q, due[0], now), due[1..], now, m);
    }
  }

  // ---------------------------------------------------------------------------
  // The order of first deliveries

  ghost predicate IsFirst(log: seq<nat>, k: nat) {
    k < |log| && log[k] !in log[..k]
  }

  /** First deliveries happen in send order. */
  ghost predicate InOrder(log: seq<nat>) {
    forall k, l :: 0 <= k < l < |log| && IsFirst(log, k) && IsFirst(log, l) ==> log[k] < log[l]
  }

  lemma {:induction false} FirstOccurrence(log: seq<nat>, d: nat) returns (k: nat)
    requires d in log
    ensures IsFirst(log, k) && log[k] == d
    decreases |log|
  {
    var n := |log| - 1;
    if d in log[..n] {
      k := FirstOccurrence(log[..n], d);
      assert log[..n][..k] == log[..k];
    } else {
      k := n;
    }
  }

  lemma InOrderAppend(log: seq<nat>, d: nat)
    ensures InOrder(log + [d]) <==> InOrder(log) && (d in log || forall x :: x in log ==> x < d)
  {
    var longer := log + [d];
    assert forall k :: 0 <= k <= |log| ==> longer[..k] == log[..k];
    assert forall k :: 0 <= k < |log| ==> (IsFirst(longer, k) <==> IsFirst(log, k));
    assert IsFirst(longer, |log|) <==> d !in log;
    assert longer[|log|] == d;
    if InOrder(longer) && d !in log {
      forall x | x in log ensures x < d {
        var k := FirstOccurrence(log, x);
        assert IsFirst(longer, k) && longer[k] == x;
      }
    }
    if InOrder(log) && (d in log || forall x :: x in log ==> x < d) {
      forall k, l | 0 <= k < l < |longer| && IsFirst(longer, k) && IsFirst(longer, l) ensures longer[k] < longer[l] {
        assert longer[k] == log[k] && log[k] in log;
        assert l < |log| ==> longer[l] == log[l];
      }
    }
    if InOrder(longer) {
      forall k, l | 0 <= k < l < |log| && IsFirst(log, k) && IsFirst(log, l) ensures log[k] < log[l] {
        assert IsFirst(longer, k) && IsFirst(longer, l) && longer[k] == log[k] && longer[l] == log[l];
      }
    }
  }

  /**
   * The one step that breaks the order: the host accepts a steer for a message
   * that the operator has withdrawn meanwhile, after a newer message went out.
   */
  predicate LateSteerOfWithdrawn(q: Queue, e: Event) {
    && e.EReplySteer? && !e.steerReply.SteerRefused?
    && e.steered < |q.runs| && Withdrawn(q.runs[e.steered]) && e.steered !in q.deliveries
    && exists d :: d in q.deliveries && e.steered < d
  }

  /** The message the host accepts in a step, if any. */
  function DeliveredBy(q: Queue, e: Event): Option<nat>
    requires Enabled(q, e)
  {
    match e
    case EReplySteer(r, reply) => if reply.SteerRefused? then None else Some(r)
    case EPost(reply) =>
      if reply.PostRefused? || !q.runs[q.worker.run].kind.Chat? then None else Some(q.worker.run)
    case _ => None
  }

  lemma DeliveriesGrow(q: Queue, e: Event)
    requires Enabled(q, e)
    ensures Step(q, e).deliveries
         == q.deliveries + if DeliveredBy(q, e).Some? then [DeliveredBy(q, e).value] else []
  {
    match e
    case EFire(due, now, stamp) => if IsActive(q) { FireKeepsDeliveries(q, due, now); }
    case _ =>
  }

  lemma DeliveredInTurn(q: Queue, e: Event, r: nat)
    requires QWorkerOk(q) && QDeliveriesOk(q) && Enabled(q, e) && DeliveredBy(q, e) == Some(r)
    ensures !LateSteerOfWithdrawn(q, e) <==> r in q.deliveries || forall x :: x in q.deliveries ==> x < r
  {
    if e.EPost? {
      assert Holds(q.runs, q.deliveries, q.steers, r);
    } else if r !in q.deliveries {
      SteerOrder(q, r);
    }
  }

  /** A step keeps the send order if and only if it is not such a late steer. */
  lemma OrderKeptExactly(q: Queue, e: Event)
    requires QWorkerOk(q) && QDeliveriesOk(q) && Enabled(q, e) && InOrder(q.deliveries)
    ensures InOrder(Step(q, e).deliveries) <==> !LateSteerOfWithdrawn(q, e)
  {
    DeliveriesGrow(q, e);
    if DeliveredBy(q, e).Some? {
      DeliveredInTurn(q, e, DeliveredBy(q, e).value);
      InOrderAppend(q.deliveries, DeliveredBy(q, e).value);
    } else {
      assert Step(q, e).deliveries == q.deliveries;
    }
  }

  /** An undelivered message under steer is overtaken exactly if it was withdrawn first. */
  lemma SteerOrder(q: Queue, r: nat)
    requires QDeliveriesOk(q) && r in q.steers && r !in q.deliveries
    ensures r < |q.runs| && (PendingChat(q.runs[r]) || Withdrawn(q.runs[r]))
    ensures PendingChat(q.runs[r]) ==> forall d :: d in q.deliveries ==> d < r
    ensures (forall d :: d in q.deliveries ==> d < r) <==> !(exists d :: d in q.deliveries && r < d)
  {
  }

  lemma FireKeepsDeliveries(q: Queue, due: seq<Name>, now: Clock)
    requires forall i :: 0 <= i < |due| ==> due[i] in q.schedules && q.schedules[due[i]].next.Some?
    requires forall i, j :: 0 <= i < j < |due| ==> due[i] != due[j]
    ensures FireAll(q, due, now).deliveries == q.deliveries
    decreases |due|
  {
    if due != [] {
      FireKeepsDeliveries(FireOne(q, due[0], now), due[1..], now);
    }
  }

  lemma PrefixInOrder(a: seq<nat>, b: seq<nat>)
    requires a <= b && InOrder(b)
    ensures InOrder(a)
  {
    assert forall k :: 0 <= k <= |a| ==> b[..k] == a[..k];
    assert forall k :: 0 <= k < |a| ==> a[k] == b[k] && (IsFirst(a, k) <==> IsFirst(b, k));
  }

  lemma OrderStep(q: Queue, e: Event)
    requires Inv(q) && Enabled(q, e)
    ensures InOrder(Step(q, e).deliveries) <==> InOrder(q.deliveries) && !LateSteerOfWithdrawn(q, e)
  {
    DeliveriesGrow(q, e);
    if InOrder(Step(q, e).deliveries) {
      PrefixInOrder(q.deliveries, Step(q, e).deliveries);
    }
    if InOrder(q.deliveries) {
      OrderKeptExactly(q, e);
    }
  }

  // ---------------------------------------------------------------------------
  // The schedule grid

  /** One firing of a recurring schedule: same anchor and period, a later time on the grid, not more than a period ahead. */
  lemma FireIsDriftFree(q: Queue, n: Name, now: Clock)
    requires SchedulesOk(q.schedules) && n in q.schedules && q.schedules[n].next.Some?
    ensures var s, s' := q.schedules[n], FireOne(q, n, now).schedules[n];
      && s'.everyMinutes == s.everyMinutes && s'.anchor == s.anchor
      && (s.everyMinutes.Some? ==>
            && s'.enabled == (s.enabled || !AnyUnfinishedOf(q.runs, n)) && s'.next.Some?
            && s.next.value < s'.next.value && now < ParseUtc(s'.next.value)
            && ParseUtc(s'.next.value) <= (if ParseUtc(s.next.value) < now then now else ParseUtc(s.next.value))
                                         + ParseUtc(Period(s.everyMinutes.value))
            && OnGrid(s.anchor, s.everyMinutes.value, s'.next.value))
      && (s.everyMinutes.None? ==>
            if AnyUnfinishedOf(q.runs, n) then s' == s else s'.next.None? && !s'.enabled)
  {
    var s := q.schedules[n];
    assert ScheduleOk(s);
    if s.everyMinutes.Some? {
      StoredNextRunIsDriftFree(s.anchor, s.next.value, s.everyMinutes.value, now);
    }
  }

  /** Only an edit of a schedule touches its cadence; all other steps leave its anchor and period alone. */
  ghost predicate SameCadence(a: Queue, b: Queue, n: Name) {
    n in a.schedules ==>
      n in b.schedules && a.schedules[n].anchor == b.schedules[n].anchor
      && a.schedules[n].everyMinutes == b.schedules[n].everyMinutes
  }

  lemma FireKeepsCadence(q: Queue, due: seq<Name>, now: Clock, n: Name)
    requires forall i :: 0 <= i < |due| ==> due[i] in q.schedules && q.schedules[due[i]].next.Some?
    requires forall i, j :: 0 <= i < j < |due| ==> due[i] != due[j]
    ensures SameCadence(q, FireAll(q, due, now), n)
    decreases |due|
  {
    if due != [] {
      FireKeepsCadence(FireOne(q, due[0], now), due[1..], now, n);
    }
  }

  lemma OthersKeepSchedules(q: Queue, e: Event)
    requires Enabled(q, e) && !e.EFire? && !e.EEdit? && !e.EDeactivate?
    ensures Step(q, e).schedules == q.schedules
  {
  }

  lemma EditKeepsOtherCadence(q: Queue, op: ScheduleOp, now: Clock, n: Name)
    requires op.name != n
    ensures SameCadence(q, OrUnchanged(EditSchedule(q, op, now), q), n)
  {
  }

  lemma StepKeepsCadence(q: Queue, e: Event, q': Queue, n: Name)
    requires Enabled(q, e) && q' == Step(q, e) && !(e.EEdit? && e.op.name == n)
    ensures SameCadence(q, q', n)
  {
    match e
    case EFire(due, now, stamp) => if IsActive(q) { FireKeepsCadence(q, due, now, n); }
    case EEdit(op, now) => EditKeepsOtherCadence(q, op, now, n);
    case EDeactivate =>
    case _ => OthersKeepSchedules(q, e);
  }

  lemma NextCadence(states: seq<Queue>, events: seq<Event>, i: nat, n: Name)
    requires Execution(states, events) && i < |events| && !(events[i].EEdit? && events[i].op.name == n)
    ensures SameCadence(states[i], states[i + 1], n)
  {
    StepKeepsCadence(states[i], events[i], states[i + 1], n);
  }

  lemma {:induction false} CadenceAlong(states: seq<Queue>, events: seq<Event>, i: nat, j: nat, n: Name)
    requires Execution(states, events) && i <= j < |states|
    requires forall k :: i <= k < j ==> !(events[k].EEdit? && events[k].op.name == n)
    ensures SameCadence(states[i], states[j], n)
    decreases j
  {
    if i < j {
      CadenceAlong(states, events, i, j - 1, n);
      NextCadence(states, events, j - 1, n);
    }
  }

  /**
   * Across any number of fires, skips, missed periods and deactivations, a
   * recurring schedule that nobody edits stays on one grid, and an enabled
   * schedule always has a next time.
   */
  lemma RecurringStaysOnGrid(states: seq<Queue>, events: seq<Event>, i: nat, j: nat, n: Name)
    requires Execution(states, events) && i <= j < |states|
    requires forall k :: i <= k < j ==> !(events[k].EEdit? && events[k].op.name == n)
    requires n in states[i].schedules
    ensures n in states[j].schedules
    ensures states[j].schedules[n].enabled ==> states[j].schedules[n].next.Some?
    ensures states[i].schedules[n].everyMinutes.Some? ==>
      && states[j].schedules[n].next.Some? && states[i].schedules[n].next.Some?
      && OnGrid(states[i].schedules[n].next.value, states[i].schedules[n].everyMinutes.value,
                states[j].schedules[n].next.value)
  {
    CadenceAlong(states, events, i, j, n);
    ReachableInv(states, events, i);
    ReachableInv(states, events, j);
    var a, b := states[i].schedules[n], states[j].schedules[n];
    assert ScheduleOk(a) && ScheduleOk(b);
    if a.everyMinutes.Some? {
      SameResidue(a.anchor, a.everyMinutes.value, a.next.value, b.next.value);
    }
  }

  lemma SameResidue(anchor: int, everyMinutes: nat, s: int, t: int)
    requires everyMinutes > 0 && OnGrid(anchor, everyMinutes, s) && OnGrid(anchor, everyMinutes, t)
    ensures OnGrid(s, everyMinutes, t)
  {
    var p := Period(everyMinutes);
    var k, l := (s - anchor) / p, (t - anchor) / p;
    assert t - s == (l - k) * p;
    RemainderIs(t - s, p, l - k, 0);
  }

  // ---------------------------------------------------------------------------
  // A run in which a withdrawn message is delivered late

  const SOME_SETTINGS := Settings("codex", "gpt-5.6-sol", "high")
  const WAITING := Run(Chat, Pending, None, None)
  const WITHDRAWN := Run(Chat, Done(Discarded), None, None)

  function Turn(phase: Phase): Run {
    Run(Chat, phase, Some(1), Some(1))
  }

  /** The workspace with its first task on the host in status `s`. */
  function FirstTask(runs: seq<Run>, worker: Worker, s: Status, starts: seq<nat>): Queue {
    Queue(Some(Workspace(1, Some(SOME_SETTINGS))), runs, map[], worker, map[], Host(2, map[1 := s]),
          [Request(1, Some(SOME_SETTINGS))], [0], starts)
  }

  lemma ExecutionAppend(states: seq<Queue>, events: seq<Event>, e: Event, next: Queue)
    requires Execution(states, events) && Enabled(states[|events|], e) && Step(states[|events|], e) == next
    ensures Execution(states + [next], events + [e])
  {
  }

  lemma FirstMessageSelected() returns (states: seq<Queue>, events: seq<Event>)
    ensures Execution(states, events) && |events| == 2
    ensures states[2] == EMPTY_QUEUE.(
      workspace := Some(Workspace(1, Some(SOME_SETTINGS))), runs := [WAITING], worker := Selected(0))
  {
    var q1 := EMPTY_QUEUE.(workspace := Some(Workspace(1, Some(SOME_SETTINGS))), runs := [WAITING]);
    assert Step(EMPTY_QUEUE, ESend(Some(SOME_SETTINGS))) == q1 by {
      assert EMPTY_QUEUE.runs + [WAITING] == [WAITING];
      assert SteerTarget(EMPTY_QUEUE.runs).None?;
    }
    ExecutionAppend([EMPTY_QUEUE], [], ESend(Some(SOME_SETTINGS)), q1);
    var q2 := q1.(worker := Selected(0));
    assert OldestPending(q1.runs) == 0;
    states, events := [EMPTY_QUEUE] + [q1], [] + [ESend(Some(SOME_SETTINGS))];
    ExecutionAppend(states, events, ESelect, q2);
    states, events := states + [q2], events + [ESelect];
  }

  lemma FirstMessageDispatched() returns (states: seq<Queue>, events: seq<Event>)
    ensures Execution(states, events) && |events| == 4
    ensures states[4] == FirstTask([WAITING], Posted(0, 1, 1), Queued, [])
  {
    states, events := FirstMessageSelected();
    var q3 := states[2].(worker := Composed(0, 1, SOME_SETTINGS, true));
    assert Step(states[2], ECompose) == q3;
    ExecutionAppend(states, events, ECompose, q3);
    states, events := states + [q3], events + [ECompose];
    var q4 := FirstTask([WAITING], Posted(0, 1, 1), Queued, []);
    assert Step(q3, EPost(PostAccepted)) == q4;
    ExecutionAppend(states, events, EPost(PostAccepted), q4);
    states, events := states + [q4], events + [EPost(PostAccepted)];
  }

  lemma FirstTurnClaimed() returns (states: seq<Queue>, events: seq<Event>)
    ensures Execution(states, events) && |events| == 6
    ensures states[6] == FirstTask([Turn(Active(Queued))], Idle, Running, [0])
  {
    states, events := FirstMessageDispatched();
    var q5 := FirstTask([Turn(Active(Queued))], Idle, Queued, [0]);
    assert Step(states[4], EClaim) == q5;
    ExecutionAppend(states, events, EClaim, q5);
    states, events := states + [q5], events + [EClaim];
    var q6 := FirstTask([Turn(Active(Queued))], Idle, Running, [0]);
    assert Step(q5, EHostMove(1, Running)) == q6;
    ExecutionAppend(states, events, EHostMove(1, Running), q6);
    states, events := states + [q6], events + [EHostMove(1, Running)];
  }

  lemma FirstTurnRunning() returns (states: seq<Queue>, events: seq<Event>)
    ensures Execution(states, events) && |events| == 8
    ensures states[8] == FirstTask([Turn(Active(Running))], Idle, Running, [0])
  {
    states, events := FirstTurnClaimed();
    var q6 := states[6];
    var q7 := FirstTask([Turn(Active(Queued))], Observed(0, Is(Running)), Running, [0]);
    ExecutionAppend(states, events, EObserve(0, Is(Running)), q7);
    states, events := states + [q7], events + [EObserve(0, Is(Running))];
    var q8 := FirstTask([Turn(Active(Running))], Idle, Running, [0]);
    assert Step(q7, EReap) == q8;
    ExecutionAppend(states, events, EReap, q8);
    states, events := states + [q8], events + [EReap];
  }

  lemma OpenTable(runs: seq<Run>)
    requires runs == [Turn(Active(Running))] || runs == [Turn(Active(Running)), WITHDRAWN]
    ensures UnfinishedChats(runs) == 1 && SteerTarget(runs) == Some(1)
  {
    var turn := [Turn(Active(Running))];
    assert turn[..0] == [];
    assert UnfinishedChats(turn) == 1;
    if |runs| == 2 {
      assert runs[..1] == turn;
    }
    assert !AnyPendingChat(runs);
    assert RunningTask(runs, 0) == Some(1);
  }

  /** A message sent while the first turn runs is steered, unless another message still waits. */
  lemma SendSteers(q: Queue)
    requires IsActive(q)
    requires q.runs == [Turn(Active(Running))] || q.runs == [Turn(Active(Running)), WITHDRAWN]
    ensures Step(q, ESend(None)) == q.(runs := q.runs + [WAITING], steers := q.steers[|q.runs| := Calling(1)])
  {
    OpenTable(q.runs);
  }

  /** While that turn runs, message 1 is withdrawn before its steer goes out, and message 2 is steered first. */
  lemma WithdrawnMessageOvertaken() returns (states: seq<Queue>, events: seq<Event>)
    ensures Execution(states, events) && |events| == 13
    ensures states[13].deliveries == [0, 2, 1] && !InOrder(states[13].deliveries)
    ensures states[13].runs == [Turn(Active(Running)), WITHDRAWN, WAITING]
  {
    states, events := FirstTurnRunning();
    var turn, q8 := Turn(Active(Running)), states[8];
    var q9 := q8.(runs := [turn, WAITING], steers := map[1 := Calling(1)]);
    SendSteers(q8);
    ExecutionAppend(states, events, ESend(None), q9);
    states, events := states + [q9], events + [ESend(None)];
    var q10 := q9.(runs := [turn, WITHDRAWN]);
    assert Step(q9, EDiscard(1)) == q10;
    ExecutionAppend(states, events, EDiscard(1), q10);
    states, events := states + [q10], events + [EDiscard(1)];
    var q11 := q10.(runs := [turn, WITHDRAWN, WAITING], steers := map[1 := Calling(1), 2 := Calling(1)]);
    SendSteers(q10);
    ExecutionAppend(states, events, ESend(None), q11);
    states, events := states + [q11], events + [ESend(None)];
    states, events := BothSteersAccepted(states, events);
  }

  lemma BothSteersAccepted(past: seq<Queue>, sofar: seq<Event>) returns (states: seq<Queue>, events: seq<Event>)
    requires Execution(past, sofar) && |sofar| == 11
    requires past[11].deliveries == [0] && past[11].steers == map[1 := Calling(1), 2 := Calling(1)]
    requires past[11].host == Host(2, map[1 := Running])
    requires past[11].runs == [Turn(Active(Running)), WITHDRAWN, WAITING]
    ensures Execution(states, events) && |events| == 13
    ensures states[13].deliveries == [0, 2, 1] && !InOrder(states[13].deliveries)
    ensures states[13].runs == past[11].runs
  {
    var q12 := past[11].(deliveries := [0, 2], steers := map[1 := Calling(1), 2 := Accepted(1)]);
    assert Step(past[11], EReplySteer(2, SteerAccepted)) == q12;
    ExecutionAppend(past, sofar, EReplySteer(2, SteerAccepted), q12);
    var q13 := q12.(deliveries := [0, 2, 1], steers := map[1 := Accepted(1), 2 := Accepted(1)]);
    assert Step(q12, EReplySteer(1, SteerAccepted)) == q13;
    states, events := past + [q12], sofar + [EReplySteer(2, SteerAccepted)];
    ExecutionAppend(states, events, EReplySteer(1, SteerAccepted), q13);
    states, events := states + [q13], events + [EReplySteer(1, SteerAccepted)];
    assert IsFirst([0, 2, 1], 1) && IsFirst([0, 2, 1], 2);
  }
}
