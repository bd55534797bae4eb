/**
 * Timely continuations, and how the host comes to rest in one: from every state
 * everybody but one worker can finish without another early operator.
 */
module TaskPoolDrain {
  import opened TaskStatus
  import opened TaskPool
  import opened TaskPoolInvariant
  import opened TaskPoolSafety
  import opened TaskPoolHistory

  // ---------------------------------------------------------------------------
  // Timely continuations

  /** The steps `es` lead from `s` to `s'`, and none of them is early: each is timely. */
  ghost predicate Leads(s: Pool, es: seq<Event>, s': Pool)
    decreases |es|
  {
    if es == [] then s' == s
    else Enabled(s, es[0]) && Timely(s, es[0]) && Leads(Step(s, es[0]), es[1..], s')
  }

  ghost predicate CanReach(s: Pool, s': Pool) {
    exists es :: Leads(s, es, s')
  }

  lemma {:induction false} LeadsOn(s: Pool, es: seq<Event>, t: Pool, fs: seq<Event>, u: Pool)
    requires Leads(s, es, t) && Leads(t, fs, u)
    ensures Leads(s, es + fs, u)
    decreases |es|
  {
    if es == [] {
      assert es + fs == fs;
    } else {
      LeadsOn(Step(s, es[0]), es[1..], t, fs, u);
      assert (es + fs)[1..] == es[1..] + fs;
    }
  }

  lemma ReachOn(s: Pool, t: Pool, u: Pool)
    requires CanReach(s, t) && CanReach(t, u)
    ensures CanReach(s, u)
  {
    var es :| Leads(s, es, t);
    var fs :| Leads(t, fs, u);
    LeadsOn(s, es, t, fs, u);
  }

  lemma ReachStep(s: Pool, e: Event)
    requires Enabled(s, e) && Timely(s, e)
    ensures CanReach(s, Step(s, e))
  {
    assert [e][1..] == [];
    assert Leads(Step(s, e), [], Step(s, e));
    assert Leads(s, [e], Step(s, e));
  }

  lemma ReachSelf(s: Pool)
    ensures CanReach(s, s)
  {
    assert Leads(s, [], s);
  }

  // ---------------------------------------------------------------------------
  // Who attends to an entry

  predicate Attends(p: Phase, server: nat) {
    HasServer(p) && p.server == server && !Closes(p, server)
  }

  /** The process of an entry that is not closing has a worker who is yet to take it. */
  ghost predicate EntriesAttended(s: Pool) {
    forall k :: k in s.live && !s.live[k].closing ==>
      exists w :: 0 <= w < |s.workers| && Attends(s.workers[w], s.live[k].server)
  }

  /** An attending worker attends until the entry is taken. */
  lemma AttendantStays(s: Pool, e: Event, s': Pool, k: Key, w: nat)
    requires LiveOk(s.live, s.processes) && Enabled(s, e) && s' == Step(s, e)
    requires k in s.live && k in s'.live && s'.live[k] == s.live[k] && !s.live[k].closing
    requires w < |s.workers| && Attends(s.workers[w], s.live[k].server)
    ensures w < |s'.workers| && Attends(s'.workers[w], s.live[k].server)
  {
    assert EntryOk(k, s.live[k], s.processes);
  }

  lemma NewEntry(s: Pool, e: Event, s': Pool, k: Key)
    requires Enabled(s, e) && s' == Step(s, e)
    requires k in s'.live && !s'.live[k].closing && (k !in s.live || s'.live[k] != s.live[k])
    ensures e.Register? && Attends(s'.workers[e.worker], s'.live[k].server)
  {
  }

  lemma StepKeepsEntriesAttended(s: Pool, e: Event, s': Pool)
    requires Inv(s) && EntriesAttended(s) && Enabled(s, e) && s' == Step(s, e)
    ensures EntriesAttended(s')
  {
    forall k | k in s'.live && !s'.live[k].closing
      ensures exists w :: 0 <= w < |s'.workers| && Attends(s'.workers[w], s'.live[k].server)
    {
      if k in s.live && s'.live[k] == s.live[k] {
        var w :| 0 <= w < |s.workers| && Attends(s.workers[w], s.live[k].server);
        AttendantStays(s, e, s', k, w);
      } else {
        NewEntry(s, e, s', k);
      }
    }
  }

  /** A process whose worker is past the spawn has been spawned. */
  ghost predicate SpawnedOk(s: Pool) {
    forall w :: 0 <= w < |s.workers| && s.workers[w].Started? ==>
      s.workers[w].server < |s.processes| && !s.processes[s.workers[w].server].state.Unstarted?
  }

  lemma StepKeepsSpawned(s: Pool, e: Event, s': Pool)
    requires SpawnedOk(s) && Enabled(s, e) && s' == Step(s, e)
    ensures SpawnedOk(s')
  {
  }

  ghost predicate AttendedOk(s: Pool) {
    EntriesAttended(s) && SpawnedOk(s)
  }

  lemma StepKeepsAttended(s: Pool, e: Event, s': Pool)
    requires Inv(s) && AttendedOk(s) && Enabled(s, e) && s' == Step(s, e)
    ensures AttendedOk(s')
  {
    StepKeepsEntriesAttended(s, e, s');
    StepKeepsSpawned(s, e, s');
  }

  lemma NextAttended(states: seq<Pool>, events: seq<Event>, i: nat)
    requires Execution(states, events) && i < |events| && Inv(states[i]) && AttendedOk(states[i])
    ensures AttendedOk(states[i + 1])
  {
    StepKeepsAttended(states[i], events[i], states[i + 1]);
  }

  lemma {:induction false} ReachableAttended(states: seq<Pool>, events: seq<Event>, i: nat)
    requires Execution(states, events) && i < |states|
    ensures AttendedOk(states[i])
  {
    if i > 0 {
      ReachableAttended(states, events, i - 1);
      ReachableInv(states, events, i - 1);
      NextAttended(states, events, i - 1);
    }
  }

  lemma {:induction false} LeadsKeeps(s: Pool, es: seq<Event>, s': Pool)
    requires Leads(s, es, s') && Inv(s) && AttendedOk(s)
    ensures Inv(s') && AttendedOk(s')
    decreases |es|
  {
    if es != [] {
      StepKeepsInv(s, es[0]);
      StepKeepsAttended(s, es[0], Step(s, es[0]));
      LeadsKeeps(Step(s, es[0]), es[1..], s');
    }
  }

  lemma ReachKeeps(s: Pool, s': Pool)
    requires CanReach(s, s') && Inv(s) && AttendedOk(s)
    ensures Inv(s') && AttendedOk(s')
  {
    var es :| Leads(s, es, s');
    LeadsKeeps(s, es, s');
  }

  // ---------------------------------------------------------------------------
  // Draining: everybody but one worker finishes

  /** Workers other than `w` give up or finish, processes exit, closes succeed, queued tasks are cancelled. */
  predicate IsDrain(e: Event, w: nat) {
    match e
    case Cancel(_) => true
    case GiveUp(v) => v != w
    case FailToStart(v) => v != w
    case Finish(v, _) => v != w
    case Exit(_) => true
    case WorkerTakes(v) => v != w
    case WorkerShuts(v, ok) => v != w && ok
    case WorkerDrops(v) => v != w
    case OperatorShuts(_, ok) => ok
    case OperatorDrops(_) => true
    case _ => false
  }

  /** What draining leaves: worker `w` where it is, no new entry, no new fence, nothing that runs or waits anew. */
  ghost predicate Drains(s: Pool, w: nat, s': Pool) {
    && CanReach(s, s')
    && WorkersDrain(s.workers, w, s'.workers) && TasksDrain(s.tasks, s'.tasks)
    && s'.live.Keys <= s.live.Keys && |s'.processes| == |s.processes|
    && forall k :: Fenced(s', k) ==> Fenced(s, k)
  }

  ghost predicate WorkersDrain(a: seq<Phase>, w: nat, b: seq<Phase>) {
    && |a| == |b| && w < |a| && a[w] == b[w]
    && forall v :: 0 <= v < |a| && a[v].Idle? ==> b[v].Idle?
  }

  ghost predicate TasksDrain(a: seq<TaskRow>, b: seq<TaskRow>) {
    && |a| == |b|
    && forall t :: 0 <= t < |a| ==>
         a[t].key == b[t].key && (b[t].status == a[t].status || (b[t].status != Running && b[t].status != Queued))
  }

  lemma DrainsSelf(s: Pool, w: nat)
    requires w < |s.workers|
    ensures Drains(s, w, s)
  {
    ReachSelf(s);
  }

  lemma DrainsOn(s: Pool, w: nat, t: Pool, u: Pool)
    requires Drains(s, w, t) && Drains(t, w, u)
    ensures Drains(s, w, u)
  {
    ReachOn(s, t, u);
  }

  lemma FencedIsOld(s: Pool, e: Event, s': Pool, w: nat, k: Key)
    requires Inv(s) && Enabled(s, e) && s' == Step(s, e) && IsDrain(e, w) && Fenced(s', k)
    ensures Fenced(s, k)
  {
    var p := s'.live[k].server;
    DrainKeepsEntries(s, e, s', w, k);
    assert EntryOk(k, s.live[k], s.processes);
    if IsClosing(s, p) {
      CloserStays(s, e, s', w, p);
    }
  }

  lemma DrainKeepsEntries(s: Pool, e: Event, s': Pool, w: nat, k: Key)
    requires Enabled(s, e) && s' == Step(s, e) && IsDrain(e, w) && k in s'.live
    ensures k in s.live && s'.live[k].server == s.live[k].server
    ensures s'.live[k].closing && !s.live[k].closing ==> IsClosing(s', s'.live[k].server)
  {
    if e.WorkerTakes? && s'.live[k] != s.live[k] {
      assert Closes(s'.workers[e.worker], s.live[k].server);
    }
  }

  /** While its entry stands, a process that somebody is closing stays in his hands. */
  lemma CloserStays(s: Pool, e: Event, s': Pool, w: nat, p: nat)
    requires Enabled(s, e) && s' == Step(s, e) && IsDrain(e, w) && IsClosing(s, p)
    requires p < |s.processes| && Registered(s'.live, s.processes[p].key, p)
    ensures IsClosing(s', p)
  {
    if p !in s.closers.owned && p !in s.closers.dropping {
      var v :| 0 <= v < |s.workers| && Closes(s.workers[v], p);
      WorkerCloserStays(s, e, s', w, v, p);
    } else {
      OperatorCloserStays(s, e, s', w, p);
    }
  }

  lemma WorkerCloserStays(s: Pool, e: Event, s': Pool, w: nat, v: nat, p: nat)
    requires Enabled(s, e) && s' == Step(s, e) && IsDrain(e, w) && v < |s.workers| && Closes(s.workers[v], p)
    requires p < |s.processes| && Registered(s'.live, s.processes[p].key, p)
    ensures v < |s'.workers| && Closes(s'.workers[v], p)
  {
  }

  lemma OperatorCloserStays(s: Pool, e: Event, s': Pool, w: nat, p: nat)
    requires Enabled(s, e) && s' == Step(s, e) && IsDrain(e, w) && (p in s.closers.owned || p in s.closers.dropping)
    requires p < |s.processes| && Registered(s'.live, s.processes[p].key, p)
    ensures p in s'.closers.owned || p in s'.closers.dropping
  {
  }

  lemma DrainKeepsWorkers(s: Pool, e: Event, s': Pool, w: nat)
    requires Enabled(s, e) && s' == Step(s, e) && IsDrain(e, w) && w < |s.workers|
    ensures WorkersDrain(s.workers, w, s'.workers)
  {
  }

  lemma DrainKeepsTasks(s: Pool, e: Event, s': Pool, w: nat)
    requires Enabled(s, e) && s' == Step(s, e) && IsDrain(e, w)
    ensures TasksDrain(s.tasks, s'.tasks) && |s'.processes| == |s.processes|
  {
  }

  lemma DrainStep(s: Pool, e: Event, s': Pool, w: nat)
    requires Inv(s) && AttendedOk(s) && Enabled(s, e) && s' == Step(s, e) && IsDrain(e, w) && w < |s.workers|
    ensures Drains(s, w, s')
  {
    ReachStep(s, e);
    DrainKeepsWorkers(s, e, s', w);
    DrainKeepsTasks(s, e, s', w);
    forall k | k in s'.live
      ensures k in s.live
    {
      DrainKeepsEntries(s, e, s', w, k);
    }
    forall k | Fenced(s', k)
      ensures Fenced(s, k)
    {
      FencedIsOld(s, e, s', w, k);
    }
  }

  function StepsLeft(p: Phase, up: bool): nat {
    match p
    case Idle => 0
    case Claimed(_) => 1
    case Ready(_, _) => 4
    case Checked(_, _) => 4
    case Started(_, _) => if up then 5 else 4
    case Leaving(_, _, stage) => if stage.Wanting? then 3 else if stage.Owning? then 2 else 1
  }

  predicate IsUp(processes: seq<Process>, p: Phase) {
    HasServer(p) && p.server < |processes| && processes[p.server].state.Up?
  }

  /** The next step of a worker on its way out. */
  function WayOut(p: Phase, up: bool, v: nat): Event
    requires !p.Idle?
  {
    match p
    case Claimed(_) => GiveUp(v)
    case Ready(_, _) => FailToStart(v)
    case Checked(_, _) => FailToStart(v)
    case Started(_, server) => if up then Exit(server) else Finish(v, true)
    case Leaving(_, _, stage) =>
      if stage.Wanting? then WorkerTakes(v) else if stage.Owning? then WorkerShuts(v, true) else WorkerDrops(v)
  }

  lemma WayOutIsEnabled(s: Pool, v: nat)
    requires Inv(s) && v < |s.workers| && !s.workers[v].Idle?
    requires s.workers[v].Started? && !IsUp(s.processes, s.workers[v]) ==> s.processes[s.workers[v].server].state.Down?
    ensures Enabled(s, WayOut(s.workers[v], IsUp(s.processes, s.workers[v]), v))
  {
    assert PhaseOk(s.tasks, s.workers[v]) && ServerOk(s.processes, s.workers[v]);
  }

  function StepsLeftOf(s: Pool, v: nat): nat
    requires v < |s.workers|
  {
    StepsLeft(s.workers[v], IsUp(s.processes, s.workers[v]))
  }

  lemma LeavingLeadsOut(s: Pool, v: nat, s': Pool)
    requires Inv(s) && v < |s.workers| && s.workers[v].Leaving? && Enabled(s, WayOut(s.workers[v], false, v))
    requires s' == Step(s, WayOut(s.workers[v], false, v))
    ensures v < |s'.workers| && s'.closers == s.closers && StepsLeftOf(s', v) < StepsLeftOf(s, v)
  {
  }

  lemma RunningLeadsOut(s: Pool, v: nat, s': Pool)
    requires Inv(s) && v < |s.workers| && !s.workers[v].Idle? && !s.workers[v].Leaving?
    requires Enabled(s, WayOut(s.workers[v], IsUp(s.processes, s.workers[v]), v))
    requires s' == Step(s, WayOut(s.workers[v], IsUp(s.processes, s.workers[v]), v))
    ensures v < |s'.workers| && s'.closers == s.closers && StepsLeftOf(s', v) < StepsLeftOf(s, v)
  {
  }

  lemma WayOutDrains(s: Pool, w: nat, v: nat, e: Event, s': Pool)
    requires Inv(s) && AttendedOk(s) && w < |s.workers| && v < |s.workers| && v != w && !s.workers[v].Idle?
    requires e == WayOut(s.workers[v], IsUp(s.processes, s.workers[v]), v) && Enabled(s, e) && s' == Step(s, e)
    ensures Drains(s, w, s')
  {
    DrainStep(s, e, s', w);
  }

  lemma WayOutLeadsOut(s: Pool, v: nat, e: Event, s': Pool)
    requires Inv(s) && v < |s.workers| && !s.workers[v].Idle?
    requires e == WayOut(s.workers[v], IsUp(s.processes, s.workers[v]), v) && Enabled(s, e) && s' == Step(s, e)
    ensures v < |s'.workers| && s'.closers == s.closers && StepsLeftOf(s', v) < StepsLeftOf(s, v)
  {
    if s.workers[v].Leaving? {
      LeavingLeadsOut(s, v, s');
    } else {
      RunningLeadsOut(s, v, s');
    }
  }

  lemma OneStepOut(s: Pool, w: nat, v: nat) returns (s': Pool)
    requires Inv(s) && AttendedOk(s) && w < |s.workers| && v < |s.workers| && v != w && !s.workers[v].Idle?
    ensures Drains(s, w, s') && s'.closers == s.closers && StepsLeftOf(s', v) < StepsLeftOf(s, v)
  {
    var e := WayOut(s.workers[v], IsUp(s.processes, s.workers[v]), v);
    WayOutIsEnabled(s, v);
    s' := Step(s, e);
    WayOutLeadsOut(s, v, e, s');
    WayOutDrains(s, w, v, e, s');
  }

  lemma {:induction false} WorkerOut(s: Pool, w: nat, v: nat) returns (s': Pool)
    requires Inv(s) && AttendedOk(s) && w < |s.workers| && v < |s.workers| && v != w
    ensures Drains(s, w, s') && s'.workers[v].Idle? && s'.closers == s.closers
    decreases StepsLeftOf(s, v)
  {
    if s.workers[v].Idle? {
      DrainsSelf(s, w);
      s' := s;
    } else {
      var next := OneStepOut(s, w, v);
      ReachKeeps(s, next);
      s' := WorkerOut(next, w, v);
      DrainsOn(s, w, next, s');
    }
  }

  predicate OthersIdle(workers: seq<Phase>, w: nat, n: nat) {
    forall v :: 0 <= v < n && v < |workers| && v != w ==> workers[v].Idle?
  }

  lemma OneMoreOut(s: Pool, w: nat, n: nat) returns (s': Pool)
    requires Inv(s) && AttendedOk(s) && w < |s.workers| && n < |s.workers| && OthersIdle(s.workers, w, n)
    ensures Drains(s, w, s') && s'.closers == s.closers && OthersIdle(s'.workers, w, n + 1)
  {
    if n == w {
      DrainsSelf(s, w);
      s' := s;
    } else {
      s' := WorkerOut(s, w, n);
    }
  }

  lemma {:induction false} WorkersOut(s: Pool, w: nat, n: nat) returns (s': Pool)
    requires Inv(s) && AttendedOk(s) && w < |s.workers| && n <= |s.workers|
    ensures Drains(s, w, s') && s'.closers == s.closers && OthersIdle(s'.workers, w, n)
    decreases n
  {
    if n == 0 {
      DrainsSelf(s, w);
      s' := s;
    } else {
      var t := WorkersOut(s, w, n - 1);
      ReachKeeps(s, t);
      s' := OneMoreOut(t, w, n - 1);
      DrainsOn(s, w, t, s');
    }
  }

  lemma ShutsOne(s: Pool, p: nat)
    requires Inv(s) && p in s.closers.owned
    ensures Enabled(s, OperatorShuts(p, true))
    ensures var c := Step(s, OperatorShuts(p, true)).closers; c.owned == s.closers.owned - multiset{p}
  {
  }

  lemma {:induction false} OwnedOut(s: Pool, w: nat) returns (s': Pool)
    requires Inv(s) && AttendedOk(s) && w < |s.workers|
    ensures Drains(s, w, s') && s'.closers.owned == multiset{}
    decreases |s.closers.owned|
  {
    if s.closers.owned == multiset{} {
      DrainsSelf(s, w);
      s' := s;
    } else {
      var p :| p in s.closers.owned;
      ShutsOne(s, p);
      var next := Step(s, OperatorShuts(p, true));
      DrainStep(s, OperatorShuts(p, true), next, w);
      ReachKeeps(s, next);
      s' := OwnedOut(next, w);
      DrainsOn(s, w, next, s');
    }
  }

  lemma DropsOne(s: Pool, p: nat)
    requires Inv(s) && p in s.closers.dropping
    ensures Enabled(s, OperatorDrops(p))
    ensures Step(s, OperatorDrops(p)).closers == s.closers.(dropping := s.closers.dropping - multiset{p})
  {
  }

  lemma {:induction false} DroppingOut(s: Pool, w: nat) returns (s': Pool)
    requires Inv(s) && AttendedOk(s) && w < |s.workers|
    ensures Drains(s, w, s') && s'.closers.dropping == multiset{} && s'.closers.owned == s.closers.owned
    decreases |s.closers.dropping|
  {
    if s.closers.dropping == multiset{} {
      DrainsSelf(s, w);
      s' := s;
    } else {
      var p :| p in s.closers.dropping;
      DropsOne(s, p);
      var next := Step(s, OperatorDrops(p));
      DrainStep(s, OperatorDrops(p), next, w);
      ReachKeeps(s, next);
      s' := DroppingOut(next, w);
      DrainsOn(s, w, next, s');
    }
  }

  lemma CancelsOne(s: Pool, t: nat)
    requires t < |s.tasks|
    ensures Step(s, Cancel(t)).tasks[t].status != Queued && Step(s, Cancel(t)).closers == s.closers
  {
  }

  predicate NoneQueued(tasks: seq<TaskRow>, n: nat) {
    forall t :: 0 <= t < n && t < |tasks| ==> tasks[t].status != Queued
  }

  lemma OneCancelled(s: Pool, w: nat, n: nat) returns (s': Pool)
    requires Inv(s) && AttendedOk(s) && w < |s.workers| && n < |s.tasks| && NoneQueued(s.tasks, n)
    ensures Drains(s, w, s') && s'.closers == s.closers && NoneQueued(s'.tasks, n + 1)
  {
    CancelsOne(s, n);
    s' := Step(s, Cancel(n));
    DrainStep(s, Cancel(n), s', w);
  }

  lemma {:induction false} QueueOut(s: Pool, w: nat, n: nat) returns (s': Pool)
    requires Inv(s) && AttendedOk(s) && w < |s.workers| && n <= |s.tasks|
    ensures Drains(s, w, s') && s'.closers == s.closers && NoneQueued(s'.tasks, n)
    decreases n
  {
    if n == 0 {
      DrainsSelf(s, w);
      s' := s;
    } else {
      var before := QueueOut(s, w, n - 1);
      ReachKeeps(s, before);
      s' := OneCancelled(before, w, n - 1);
      DrainsOn(s, w, before, s');
    }
  }

  /** Only worker `w` is left, nothing is queued, and no operator is closing anything. */
  ghost predicate Quiet(s: Pool, w: nat) {
    && OthersIdle(s.workers, w, |s.workers|)
    && NoneQueued(s.tasks, |s.tasks|)
    && s.closers.owned == multiset{} && s.closers.dropping == multiset{}
  }

  lemma HandsOut(s: Pool, w: nat) returns (s': Pool)
    requires Inv(s) && AttendedOk(s) && w < |s.workers|
    ensures Drains(s, w, s') && s'.closers.owned == multiset{} && s'.closers.dropping == multiset{}
  {
    var owned := OwnedOut(s, w);
    ReachKeeps(s, owned);
    s' := DroppingOut(owned, w);
    DrainsOn(s, w, owned, s');
  }

  lemma WorkersAndQueueOut(s: Pool, w: nat) returns (s': Pool)
    requires Inv(s) && AttendedOk(s) && w < |s.workers|
    ensures Drains(s, w, s') && s'.closers == s.closers
    ensures OthersIdle(s'.workers, w, |s'.workers|)
    ensures NoneQueued(s'.tasks, |s'.tasks|)
  {
    var out := WorkersOut(s, w, |s.workers|);
    ReachKeeps(s, out);
    s' := QueueOut(out, w, |out.tasks|);
    DrainsOn(s, w, out, s');
  }

  /** From every state the host can come to rest around a worker, without another early operator. */
  lemma Drained(s: Pool, w: nat) returns (s': Pool)
    requires Inv(s) && AttendedOk(s) && w < |s.workers|
    ensures Drains(s, w, s') && Quiet(s', w)
  {
    var idle := HandsOut(s, w);
    ReachKeeps(s, idle);
    s' := WorkersAndQueueOut(idle, w);
    DrainsOn(s, w, idle, s');
  }
}
