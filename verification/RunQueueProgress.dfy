/**
 * Nothing is ever stuck: from every reachable state of an active workspace the
 * run worker and the host alone can bring any pending run to its turn.
 */
module RunQueueProgress {
  import opened Prelude
  import opened TaskStatus
  import opened RunQueue
  import opened RunQueueInvariant
  import opened RunQueueHistory

  /** A step of the dispatching worker, or a move of a task on the host. No operator, no restart. */
  predicate Serves(e: Event) {
    e.EObserve? || e.EReap? || e.ESelect? || e.ECompose? || e.EPost? || e.EClaim? || e.EHostMove?
  }

  /** Such steps `es` lead from `q` to `q'`. */
  ghost predicate ServeTo(q: Queue, es: seq<Event>, q': Queue)
    decreases |es|
  {
    if es == [] then q' == q
    else Enabled(q, es[0]) && Serves(es[0]) && ServeTo(Step(q, es[0]), es[1..], q')
  }

  ghost predicate CanServe(q: Queue, q': Queue) {
    exists es :: ServeTo(q, es, q')
  }

  lemma {:induction false} ServeOn(q: Queue, es: seq<Event>, a: Queue, fs: seq<Event>, b: Queue)
    requires ServeTo(q, es, a) && ServeTo(a, fs, b)
    ensures ServeTo(q, es + fs, b)
    decreases |es|
  {
    if es == [] {
      assert es + fs == fs;
    } else {
      ServeOn(Step(q, es[0]), es[1..], a, fs, b);
      assert (es + fs)[1..] == es[1..] + fs;
    }
  }

  lemma CanOn(q: Queue, a: Queue, b: Queue)
    requires CanServe(q, a) && CanServe(a, b)
    ensures CanServe(q, b)
  {
    var es :| ServeTo(q, es, a);
    var fs :| ServeTo(a, fs, b);
    ServeOn(q, es, a, fs, b);
  }

  lemma CanStep(q: Queue, e: Event, q': Queue)
    requires Enabled(q, e) && Serves(e) && q' == Step(q, e)
    ensures CanServe(q, q')
  {
    assert [e][1..] == [];
    assert ServeTo(q', [], q');
    assert ServeTo(q, [e], q');
  }

  lemma CanStay(q: Queue)
    ensures CanServe(q, q)
  {
    assert ServeTo(q, [], q);
  }

  /** Row `m` of an active workspace waits. */
  ghost predicate Waits(q: Queue, m: nat) {
    Inv(q) && IsActive(q) && m < |q.runs| && q.runs[m].phase.Pending?
  }

  /** Row `m` became active, with its message delivered; or it was closed because its schedule is gone. */
  ghost predicate Served(q: Queue, m: nat) {
    && m < |q.runs|
    && ((m in q.starts && (q.runs[m].kind.Chat? ==> m in q.deliveries))
        || (q.runs[m].kind.Scheduled? && q.runs[m].kind.schedule !in q.schedules && q.runs[m].phase == Done(Orphaned)))
  }

  /** The goal, and what one round may leave of it: `m` is served, or still waits and the worker is free. */
  ghost predicate Closer(q: Queue, m: nat) {
    Served(q, m) || (Waits(q, m) && q.worker.Idle?)
  }

  lemma StaysActive(q: Queue, e: Event, q': Queue)
    requires Enabled(q, e) && Serves(e) && q' == Step(q, e)
    ensures IsActive(q') == IsActive(q)
  {
  }

  lemma StepInv(q: Queue, e: Event, q': Queue)
    requires Inv(q) && Enabled(q, e) && Serves(e) && q' == Step(q, e)
    ensures Inv(q') && IsActive(q') == IsActive(q) && CanServe(q, q')
  {
    StepKeepsInv(q, e);
    StaysActive(q, e, q');
    CanStep(q, e, q');
  }

  // ---------------------------------------------------------------------------
  // The worker finishes what it has in hand

  lemma ClaimGoesOn(q: Queue, m: nat) returns (q': Queue)
    requires Waits(q, m) && q.worker.Posted?
    ensures CanServe(q, q') && Closer(q', m)
  {
    q' := Step(q, EClaim);
    StepInv(q, EClaim, q');
  }

  lemma RefusedGoesOn(q: Queue, m: nat) returns (q': Queue)
    requires Waits(q, m) && q.worker.Composed?
    ensures CanServe(q, q') && Closer(q', m)
  {
    q' := Step(q, EPost(PostRefused));
    StepInv(q, EPost(PostRefused), q');
  }

  lemma SelectedGoesOn(q: Queue, m: nat) returns (q': Queue)
    requires Waits(q, m) && q.worker.Selected?
    ensures CanServe(q, q') && Closer(q', m)
  {
    var a := Step(q, ECompose);
    StepInv(q, ECompose, a);
    if a.worker.Composed? {
      q' := RefusedGoesOn(a, m);
      CanOn(q, a, q');
    } else {
      q' := a;
    }
  }

  lemma ReapGoesOn(q: Queue, m: nat) returns (q': Queue)
    requires Waits(q, m) && q.worker.Observed?
    ensures CanServe(q, q') && Waits(q', m) && q'.worker.Idle?
    ensures |q'.runs| == |q.runs|
    ensures forall i :: 0 <= i < |q.runs| && i != q.worker.run ==> q'.runs[i] == q.runs[i]
    ensures q.worker.answer.Missing? ==> q'.runs[q.worker.run].phase.Done?
    ensures q.worker.answer.Is? && Terminal(q.worker.answer.status) ==> q'.runs[q.worker.run].phase.Done?
  {
    assert q.runs[q.worker.run].phase.Active?;
    q' := Step(q, EReap);
    StepInv(q, EReap, q');
  }

  lemma WorkerGetsFree(q: Queue, m: nat) returns (q': Queue)
    requires Waits(q, m)
    ensures CanServe(q, q') && Closer(q', m)
  {
    match q.worker
    case Idle =>
      CanStay(q);
      q' := q;
    case Observed(_, _) => q' := ReapGoesOn(q, m);
    case Selected(_) => q' := SelectedGoesOn(q, m);
    case Composed(_, _, _, _) => q' := RefusedGoesOn(q, m);
    case Posted(_, _, _) => q' := ClaimGoesOn(q, m);
  }

  // ---------------------------------------------------------------------------
  // The active turn ends

  /** The host ends the task, or has forgotten it. */
  lemma TaskEnds(q: Queue, m: nat, r: nat) returns (q': Queue)
    requires Waits(q, m) && q.worker.Idle? && r < |q.runs| && q.runs[r].phase.Active?
    ensures CanServe(q, q') && Waits(q', m) && q' == q.(host := q'.host)
    ensures q.runs[r].task.Some?
    ensures var t := q.runs[r].task.value; t in q'.host.tasks ==> Terminal(q'.host.tasks[t])
  {
    var t := q.runs[r].task.value;
    if t in q.host.tasks && !Terminal(q.host.tasks[t]) {
      q' := Step(q, EHostMove(t, Cancelled));
      StepInv(q, EHostMove(t, Cancelled), q');
    } else {
      CanStay(q);
      q' := q;
    }
  }

  lemma TurnIsReaped(q: Queue, m: nat, r: nat) returns (q': Queue)
    requires Waits(q, m) && q.worker.Idle? && r < |q.runs| && q.runs[r].phase.Active? && q.runs[r].task.Some?
    requires var t := q.runs[r].task.value; t in q.host.tasks ==> Terminal(q.host.tasks[t])
    ensures CanServe(q, q') && Waits(q', m) && q'.worker.Idle? && |q'.runs| == |q.runs|
    ensures forall i :: 0 <= i < |q.runs| && i != r ==> q'.runs[i] == q.runs[i]
    ensures q'.runs[r].phase.Done?
  {
    var t := q.runs[r].task.value;
    var answer := if t in q.host.tasks then Is(q.host.tasks[t]) else Missing;
    var a := Step(q, EObserve(r, answer));
    StepInv(q, EObserve(r, answer), a);
    q' := ReapGoesOn(a, m);
    CanOn(q, a, q');
  }

  ghost predicate Ready(q: Queue, m: nat) {
    Waits(q, m) && q.worker.Idle? && forall i :: 0 <= i < |q.runs| ==> !q.runs[i].phase.Active?
  }

  lemma TheOnlyActiveOne(q: Queue, r: nat, q': Queue)
    requires Inv(q) && r < |q.runs| && q.runs[r].phase.Active? && |q'.runs| == |q.runs| && q'.runs[r].phase.Done?
    requires forall i :: 0 <= i < |q.runs| && i != r ==> q'.runs[i] == q.runs[i]
    ensures forall i :: 0 <= i < |q'.runs| ==> !q'.runs[i].phase.Active?
  {
    assert OneActive(q.runs);
  }

  /** Nothing is active any more, and the same rows wait. */
  lemma NothingActive(q: Queue, m: nat) returns (q': Queue)
    requires Waits(q, m) && q.worker.Idle?
    ensures CanServe(q, q') && Ready(q', m) && NoMorePending(q.runs, q'.runs)
  {
    if r :| 0 <= r < |q.runs| && q.runs[r].phase.Active? {
      var a := TaskEnds(q, m, r);
      q' := TurnIsReaped(a, m, r);
      CanOn(q, a, q');
      TheOnlyActiveOne(q, r, q');
    } else {
      CanStay(q);
      q' := q;
    }
  }

  // ---------------------------------------------------------------------------
  // The oldest one goes out

  lemma IsSelected(q: Queue, m: nat) returns (q': Queue)
    requires Ready(q, m)
    ensures CanServe(q, q') && Waits(q', m) && q'.runs == q.runs
    ensures q'.worker.Selected? && q'.worker.run <= m && q.runs[q'.worker.run].phase.Pending?
    ensures NoneBefore(q.runs, q'.worker.run)
  {
    assert !AnyActive(q.runs);
    q' := Step(q, ESelect);
    StepInv(q, ESelect, q');
  }

  lemma IsComposed(q: Queue, m: nat) returns (q': Queue)
    requires Waits(q, m) && q.worker.Selected? && q.runs[q.worker.run].phase.Pending?
    requires q.runs[q.worker.run].kind.Scheduled? ==> q.runs[q.worker.run].kind.schedule in q.schedules
    ensures CanServe(q, q') && Waits(q', m) && q'.runs == q.runs
    ensures q'.worker.Composed? && q'.worker.run == q.worker.run
  {
    q' := Step(q, ECompose);
    StepInv(q, ECompose, q');
  }

  lemma IsPosted(q: Queue, m: nat) returns (q': Queue)
    requires Waits(q, m) && q.worker.Composed?
    ensures CanServe(q, q') && Waits(q', m) && q'.runs == q.runs
    ensures q'.worker.Posted? && q'.worker.run == q.worker.run
  {
    q' := Step(q, EPost(PostAccepted));
    StepInv(q, EPost(PostAccepted), q');
  }

  lemma IsClaimed(q: Queue, m: nat) returns (q': Queue)
    requires Waits(q, m) && q.worker.Posted? && q.runs[q.worker.run].phase.Pending?
    ensures CanServe(q, q') && Closer(q', m) && Served(q', q.worker.run)
    ensures |q'.runs| == |q.runs| && q'.runs[q.worker.run].phase.Active?
    ensures forall i :: 0 <= i < |q.runs| && i != q.worker.run ==> q'.runs[i] == q.runs[i]
  {
    q' := Step(q, EClaim);
    StepInv(q, EClaim, q');
  }

  /** A dispatch without a failure starts the selected run. */
  lemma IsStarted(q: Queue, m: nat) returns (q': Queue)
    requires Waits(q, m) && q.worker.Selected? && q.runs[q.worker.run].phase.Pending?
    requires q.runs[q.worker.run].kind.Scheduled? ==> q.runs[q.worker.run].kind.schedule in q.schedules
    ensures CanServe(q, q') && Closer(q', m) && Served(q', q.worker.run)
    ensures |q'.runs| == |q.runs| && q'.runs[q.worker.run].phase.Active?
    ensures forall i :: 0 <= i < |q.runs| && i != q.worker.run ==> q'.runs[i] == q.runs[i]
  {
    var a := IsComposed(q, m);
    var b := IsPosted(a, m);
    CanOn(q, a, b);
    q' := IsClaimed(b, m);
    CanOn(q, b, q');
  }

  lemma IsOrphaned(q: Queue, m: nat) returns (q': Queue)
    requires Waits(q, m) && q.worker.Selected? && q.runs[q.worker.run].phase.Pending?
    requires q.runs[q.worker.run].kind.Scheduled? && q.runs[q.worker.run].kind.schedule !in q.schedules
    ensures CanServe(q, q') && Closer(q', m) && Served(q', q.worker.run)
    ensures |q'.runs| == |q.runs| && q'.runs[q.worker.run].phase.Done?
    ensures forall i :: 0 <= i < |q.runs| && i != q.worker.run ==> q'.runs[i] == q.runs[i]
  {
    q' := Step(q, ECompose);
    StepInv(q, ECompose, q');
  }

  /** No row before `o` is pending. */
  predicate NoneBefore(runs: seq<Run>, o: nat) {
    forall i :: 0 <= i < o && i < |runs| ==> !runs[i].phase.Pending?
  }

  /** The oldest pending row is served, and the others are as before. */
  predicate ServesOne(a: seq<Run>, r: nat, b: seq<Run>) {
    && r < |a| && |b| == |a| && a[r].phase.Pending? && !b[r].phase.Pending?
    && forall i :: 0 <= i < |a| && i != r ==> b[i] == a[i]
  }

  lemma OneLess(a: seq<Run>, r: nat, b: seq<Run>, o: nat)
    requires ServesOne(a, r, b) && NoneBefore(a, r) && NoneBefore(a, o)
    ensures o <= r && NoneBefore(b, o + 1)
  {
  }

  /** The selected run is served. */
  lemma IsServed(q: Queue, m: nat) returns (q': Queue)
    requires Waits(q, m) && q.worker.Selected? && q.runs[q.worker.run].phase.Pending?
    ensures CanServe(q, q') && Closer(q', m) && Served(q', q.worker.run) && ServesOne(q.runs, q.worker.run, q'.runs)
  {
    var r := q.worker.run;
    if q.runs[r].kind.Scheduled? && q.runs[r].kind.schedule !in q.schedules {
      q' := IsOrphaned(q, m);
    } else {
      q' := IsStarted(q, m);
    }
  }

  /** One round serves the oldest pending run. */
  lemma OneRound(q: Queue, m: nat, o: nat) returns (q': Queue)
    requires Ready(q, m) && o <= m && NoneBefore(q.runs, o)
    ensures CanServe(q, q') && Closer(q', m)
    ensures Served(q', m) || (o < m && NoneBefore(q'.runs, o + 1))
  {
    var a := IsSelected(q, m);
    q' := IsServed(a, m);
    CanOn(q, a, q');
    OneLess(a.runs, a.worker.run, q'.runs, o);
  }

  /** At most `m - o` runs are served before `m`. */
  lemma {:induction false} Rounds(q: Queue, m: nat, o: nat) returns (q': Queue)
    requires Waits(q, m) && q.worker.Idle? && o <= m && NoneBefore(q.runs, o)
    ensures CanServe(q, q') && Served(q', m)
    decreases m - o
  {
    var a := NothingActive(q, m);
    NoNewPending(q.runs, a.runs, o);
    var b := OneRound(a, m, o);
    CanOn(q, a, b);
    if Served(b, m) {
      q' := b;
    } else {
      q' := Rounds(b, m, o + 1);
      CanOn(q, b, q');
    }
  }

  predicate NoMorePending(a: seq<Run>, b: seq<Run>) {
    |b| == |a| && forall i :: 0 <= i < |a| && b[i].phase.Pending? ==> a[i].phase.Pending?
  }

  lemma NoNewPending(a: seq<Run>, b: seq<Run>, o: nat)
    requires NoMorePending(a, b) && NoneBefore(a, o)
    ensures NoneBefore(b, o)
  {
  }

  /**
   * In every reachable state of an active workspace, for any pending run, the
   * worker and the host can go on, without an operator and without a restart, to a
   * state in which that run has become active, and the message of a chat run was
   * delivered; or in which it was closed because its schedule had been deleted.
   */
  lemma NothingIsStuck(states: seq<Queue>, events: seq<Event>, m: nat) returns (q': Queue)
    requires Execution(states, events)
    requires var q := states[|events|]; IsActive(q) && m < |q.runs| && q.runs[m].phase.Pending?
    ensures CanServe(states[|events|], q') && Served(q', m)
  {
    var q := states[|events|];
    ReachableInv(states, events, |events|);
    var a := WorkerGetsFree(q, m);
    if Served(a, m) {
      q' := a;
    } else {
      q' := Rounds(a, m, 0);
      CanOn(q, a, q');
    }
  }
}
