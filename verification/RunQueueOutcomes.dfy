/** What becomes of threads and rows over whole runs: every thread is configured, every outcome is the host's. */
module RunQueueOutcomes {
  import opened Prelude
  import opened TaskStatus
  import opened RunQueue
  import opened RunQueueInvariant
  import opened RunQueueHistory
  import opened AgentActions
  import opened AgentActionsSafety
  import opened SendOrder
  import opened RunQueueEffects

  // ---------------------------------------------------------------------------
  // Threads are configured

  /** A request for this thread has carried settings. */
  predicate Configured(requests: seq<Request>, thread: nat) {
    exists k :: 0 <= k < |requests| && requests[k].thread == thread && requests[k].settings.Some?
  }

  ghost predicate ConfiguredOk(q: Queue) {
    && (forall k :: 0 <= k < |q.requests| ==> Configured(q.requests[..k + 1], q.requests[k].thread))
    && (forall i :: 0 <= i < |q.runs| && q.runs[i].thread.Some? ==> Configured(q.requests, q.runs[i].thread.value))
    && (q.worker.Composed? && !q.worker.newThread ==> Configured(q.requests, q.worker.thread))
    && (q.worker.Posted? ==> Configured(q.requests, q.worker.thread))
  }

  lemma ConfiguredStays(a: seq<Request>, b: seq<Request>, thread: nat)
    requires Configured(a, thread) && a <= b
    ensures Configured(b, thread)
  {
    var k :| 0 <= k < |a| && a[k].thread == thread && a[k].settings.Some?;
    assert b[k] == a[k];
  }

  lemma ThreadOfWorkerStep(q: Queue, e: Event, q': Queue, i: nat)
    requires Enabled(q, e) && q' == Step(q, e) && i < |q'.runs| && q'.runs[i].thread.Some?
    requires !e.EFire? && (IsWorkerStep(e) || IsHostStep(e))
    ensures (i < |q.runs| && q.runs[i].thread == q'.runs[i].thread)
         || (e.EClaim? && q'.runs[i].thread == Some(q.worker.thread))
  {
  }

  lemma ThreadOfOperatorStep(q: Queue, e: Event, q': Queue, i: nat)
    requires Enabled(q, e) && q' == Step(q, e) && i < |q'.runs| && q'.runs[i].thread.Some?
    requires !IsWorkerStep(e) && !IsHostStep(e)
    ensures i < |q.runs| && q.runs[i].thread == q'.runs[i].thread
  {
  }

  /** Where a row's thread comes from. */
  lemma ThreadOrigin(q: Queue, e: Event, q': Queue, i: nat)
    requires Enabled(q, e) && q' == Step(q, e) && i < |q'.runs| && q'.runs[i].thread.Some?
    ensures (i < |q.runs| && q.runs[i].thread == q'.runs[i].thread)
         || (e.EClaim? && q'.runs[i].thread == Some(q.worker.thread))
  {
    if e.EFire? {
      FiredRowsArePending(q, e, q', i);
    } else if IsWorkerStep(e) || IsHostStep(e) {
      ThreadOfWorkerStep(q, e, q', i);
    } else {
      ThreadOfOperatorStep(q, e, q', i);
    }
  }

  lemma OthersKeepWorkerAndRequests(q: Queue, e: Event, q': Queue)
    requires Enabled(q, e) && q' == Step(q, e) && !e.ECompose? && !e.EPost?
    ensures q'.requests == q.requests
    ensures q'.worker.Composed? || q'.worker.Posted? ==> q'.worker == q.worker
  {
    if e.EFire? && IsActive(q) {
      AllFire(q, e.due, e.at);
    }
  }

  lemma ComposeKeepsConfigured(q: Queue, q': Queue)
    requires ConfiguredOk(q) && Enabled(q, ECompose) && q' == Step(q, ECompose)
    ensures ConfiguredOk(q')
  {
    if q'.worker.Composed? && !q'.worker.newThread {
      var i :| 0 <= i < |q.runs| && q.runs[i].thread == Some(q'.worker.thread);
      assert Configured(q.requests, q.runs[i].thread.value);
    }
  }

  lemma PostKeepsConfigured(q: Queue, reply: PostReply, q': Queue)
    requires ConfiguredOk(q) && Enabled(q, EPost(reply)) && q' == Step(q, EPost(reply))
    ensures ConfiguredOk(q')
  {
    if !reply.PostRefused? {
      var n := |q.requests|;
      assert q.requests <= q'.requests && q'.requests[..n + 1] == q'.requests;
      assert Configured(q'.requests, q.worker.thread) by {
        if q.worker.newThread {
          assert q'.requests[n].thread == q.worker.thread && q'.requests[n].settings.Some?;
        } else {
          ConfiguredStays(q.requests, q'.requests, q.worker.thread);
        }
      }
      forall k | 0 <= k < |q'.requests| ensures Configured(q'.requests[..k + 1], q'.requests[k].thread) {
        if k < n {
          assert q'.requests[..k + 1] == q.requests[..k + 1];
        }
      }
      forall i | 0 <= i < |q'.runs| && q'.runs[i].thread.Some? ensures Configured(q'.requests, q'.runs[i].thread.value) {
        ConfiguredStays(q.requests, q'.requests, q.runs[i].thread.value);
      }
    }
  }

  lemma StepKeepsConfigured(q: Queue, e: Event, q': Queue)
    requires ConfiguredOk(q) && Enabled(q, e) && q' == Step(q, e)
    ensures ConfiguredOk(q')
  {
    if e.ECompose? {
      ComposeKeepsConfigured(q, q');
    } else if e.EPost? {
      PostKeepsConfigured(q, e.postReply, q');
    } else {
      OthersKeepWorkerAndRequests(q, e, q');
      forall i | 0 <= i < |q'.runs| && q'.runs[i].thread.Some? ensures Configured(q'.requests, q'.runs[i].thread.value) {
        ThreadOrigin(q, e, q', i);
      }
    }
  }

  lemma NextConfigured(states: seq<Queue>, events: seq<Event>, i: nat)
    requires Execution(states, events) && i < |events| && ConfiguredOk(states[i])
    ensures ConfiguredOk(states[i + 1])
  {
    StepKeepsConfigured(states[i], events[i], states[i + 1]);
  }

  lemma {:induction false} ReachableConfigured(states: seq<Queue>, events: seq<Event>, i: nat)
    requires Execution(states, events) && i < |states|
    ensures ConfiguredOk(states[i])
  {
    if i > 0 {
      ReachableConfigured(states, events, i - 1);
      NextConfigured(states, events, i - 1);
    }
  }

  /** In every run each task request carries settings, or an earlier one of its thread did; and so did one of each active run's thread. */
  lemma EveryThreadIsConfigured(states: seq<Queue>, events: seq<Event>, i: nat)
    requires Execution(states, events) && i < |states|
    ensures forall k :: 0 <= k < |states[i].requests| ==>
      Configured(states[i].requests[..k + 1], states[i].requests[k].thread)
    ensures forall r :: 0 <= r < |states[i].runs| && states[i].runs[r].phase.Active? ==>
      states[i].runs[r].thread.Some? && Configured(states[i].requests, states[i].runs[r].thread.value)
  {
    ReachableConfigured(states, events, i);
    ReachableInv(states, events, i);
  }

  // ---------------------------------------------------------------------------
  // Outcomes

  /** What a done row says of its task. Only rows that were active have one. */
  predicate OutcomeOk(h: Host, r: Run) {
    r.phase.Done? ==>
      match r.phase.outcome
      case Finished(s) => Terminal(s) && r.task.Some? && (r.task.value in h.tasks ==> h.tasks[r.task.value] == s)
      case Lost => r.task.Some? && r.task.value !in h.tasks
      case Oversized => r.task.Some? && Over(h, r.task.value)
      case _ => r.task.None?
  }

  /** What the worker was told holds until it is applied. */
  predicate AnswerOk(h: Host, task: nat, answer: Answer) {
    match answer
    case Is(s) => Terminal(s) ==> (task in h.tasks ==> h.tasks[task] == s)
    case Missing => task !in h.tasks
    case TooLarge => Over(h, task)
  }

  ghost predicate OutcomesOk(q: Queue) {
    && (forall i :: 0 <= i < |q.runs| ==> OutcomeOk(q.host, q.runs[i]))
    && (q.worker.Observed? && q.worker.run < |q.runs| && q.runs[q.worker.run].task.Some? ==>
          AnswerOk(q.host, q.runs[q.worker.run].task.value, q.worker.answer))
  }

  /** The active run takes what the host said about its task; nothing else changes. */
  lemma ActiveRunIsReaped(q: Queue, q': Queue)
    requires Enabled(q, EReap) && q' == Step(q, EReap)
    ensures q'.worker == Idle && |q'.runs| == |q.runs| && q' == q.(worker := q'.worker, runs := q'.runs)
    ensures forall i :: 0 <= i < |q.runs| && i != q.worker.run ==> q'.runs[i] == q.runs[i]
    ensures var a, b := q.runs[q.worker.run], q'.runs[q.worker.run];
      && b == a.(phase := b.phase)
      && (q.worker.answer.Missing? <==> b.phase == Done(Lost))
      && (q.worker.answer.TooLarge? <==> b.phase == Done(Oversized))
      && forall s :: q.worker.answer == Is(s) <==> (b.phase == Done(Finished(s)) && Terminal(s)) || b.phase == Active(s)
  {
  }

  lemma HostStaysTrue(q: Queue, e: Event, q': Queue, t: nat)
    requires Enabled(q, e) && q' == Step(q, e) && t < q.host.nextTask
    ensures t !in q.host.tasks ==> t !in q'.host.tasks
    ensures forall s :: Terminal(s) && (t in q.host.tasks ==> q.host.tasks[t] == s) ==>
      (t in q'.host.tasks ==> q'.host.tasks[t] == s)
    ensures Over(q.host, t) ==> Over(q'.host, t)
  {
    HostMovesOn(q, e, q', t);
  }

  lemma FiredRowsArePending(q: Queue, e: Event, q': Queue, i: nat)
    requires Enabled(q, e) && e.EFire? && q' == Step(q, e) && i < |q'.runs|
    ensures (i < |q.runs| && q'.runs[i] == q.runs[i]) || (q'.runs[i].phase.Pending? && q'.runs[i].thread.None?)
  {
    if IsActive(q) {
      AllFire(q, e.due, e.at);
      if i >= |q.runs| {
        assert IsNewRunOfOne(q, q', e.due, i);
      }
    }
  }

  predicate WasClosed(q: Queue, q': Queue, i: nat) {
    && i < |q'.runs| && q'.runs[i].phase.Done? && !(i < |q.runs| && q'.runs[i] == q.runs[i])
  }

  predicate ClosedUnstarted(r: Run) {
    r.task.None? && r.phase.Done? && r.phase.outcome in {Steered, Discarded, Deactivated, Orphaned}
  }

  lemma ClosedByOperator(q: Queue, e: Event, q': Queue, i: nat)
    requires RowsOk(q.runs) && Enabled(q, e) && q' == Step(q, e) && WasClosed(q, q', i)
    requires e.EDiscard? || e.EDeactivate? || e.EFinishSteer?
    ensures ClosedUnstarted(q'.runs[i])
  {
  }

  lemma OthersCloseNothing(q: Queue, e: Event, q': Queue, i: nat)
    requires Enabled(q, e) && q' == Step(q, e) && !IsWorkerStep(e) && !IsHostStep(e)
    requires !e.EDiscard? && !e.EDeactivate? && !e.EFinishSteer?
    ensures !WasClosed(q, q', i)
  {
  }

  /** A row that is closed otherwise than by the host's answer never had a task. */
  lemma NewlyDone(q: Queue, e: Event, q': Queue, i: nat)
    requires RowsOk(q.runs) && QWorkerOk(q) && OutcomesOk(q) && Enabled(q, e) && !e.EReap? && q' == Step(q, e)
    requires WasClosed(q, q', i)
    ensures ClosedUnstarted(q'.runs[i])
  {
    if e.EFire? {
      FiredRowsArePending(q, e, q', i);
    } else if e.ECompose? {
      OrphanHasNoTask(q, q', i);
    } else if e.EDiscard? || e.EDeactivate? || e.EFinishSteer? {
      ClosedByOperator(q, e, q', i);
    } else if !IsWorkerStep(e) && !IsHostStep(e) {
      OthersCloseNothing(q, e, q', i);
    }
  }

  lemma OrphanHasNoTask(q: Queue, q': Queue, i: nat)
    requires RowsOk(q.runs) && QWorkerOk(q) && Enabled(q, ECompose) && q' == Step(q, ECompose) && WasClosed(q, q', i)
    ensures ClosedUnstarted(q'.runs[i])
  {
    assert i == q.worker.run && q.runs[i].task.None?;
  }

  lemma StepKeepsRowOutcome(q: Queue, e: Event, q': Queue, i: nat)
    requires Inv(q) && TasksOk(q) && OutcomesOk(q) && Enabled(q, e) && q' == Step(q, e) && i < |q'.runs|
    ensures OutcomeOk(q'.host, q'.runs[i])
  {
    if q'.runs[i].phase.Done? {
      if e.EReap? && i == q.worker.run {
        assert q.runs[i].phase.Active?;
      } else if i < |q.runs| && q'.runs[i] == q.runs[i] {
        assert OutcomeOk(q.host, q.runs[i]);
        if q.runs[i].task.Some? {
          HostStaysTrue(q, e, q', q.runs[i].task.value);
        }
      } else {
        NewlyDone(q, e, q', i);
      }
    }
  }

  lemma StepKeepsAnswer(q: Queue, e: Event, q': Queue)
    requires Inv(q) && TasksOk(q) && OutcomesOk(q) && Enabled(q, e) && q' == Step(q, e)
    requires q'.worker.Observed? && q'.worker.run < |q'.runs| && q'.runs[q'.worker.run].task.Some?
    ensures AnswerOk(q'.host, q'.runs[q'.worker.run].task.value, q'.worker.answer)
  {
    ObservedIsOld(q, e, q');
    if !e.EObserve? {
      ActiveStays(q, e, q', q.worker.run);
      HostStaysTrue(q, e, q', q.runs[q.worker.run].task.value);
    }
  }

  lemma StepKeepsOutcomes(q: Queue, e: Event, q': Queue)
    requires Inv(q) && TasksOk(q) && OutcomesOk(q) && Enabled(q, e) && q' == Step(q, e)
    ensures OutcomesOk(q')
  {
    forall i | 0 <= i < |q'.runs| ensures OutcomeOk(q'.host, q'.runs[i]) {
      StepKeepsRowOutcome(q, e, q', i);
    }
    if q'.worker.Observed? && q'.worker.run < |q'.runs| && q'.runs[q'.worker.run].task.Some? {
      StepKeepsAnswer(q, e, q');
    }
  }

  lemma NextOutcomes(states: seq<Queue>, events: seq<Event>, i: nat)
    requires Execution(states, events) && i < |events| && OutcomesOk(states[i])
    ensures OutcomesOk(states[i + 1])
  {
    ReachableHostInv(states, events, i);
    StepKeepsOutcomes(states[i], events[i], states[i + 1]);
  }

  /**
   * In every run the outcome of a row is what became of its task: a finished row
   * has the terminal status that the host has, a lost one is unknown to the host,
   * an oversized one is terminal there. Rows that were steered, withdrawn or
   * orphaned never had a task.
   */
  lemma {:induction false} OutcomesAreTheHosts(states: seq<Queue>, events: seq<Event>, i: nat)
    requires Execution(states, events) && i < |states|
    ensures forall r :: 0 <= r < |states[i].runs| ==> OutcomeOk(states[i].host, states[i].runs[r])
    ensures OutcomesOk(states[i])
  {
    if i > 0 {
      OutcomesAreTheHosts(states, events, i - 1);
      NextOutcomes(states, events, i - 1);
    }
  }
}
