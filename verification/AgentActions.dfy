/**
 * Agent actions against the run queue: who may act, how often, and what a
 * rejection leaves behind.
 *
 * A call is checked against the current thread, takes a unit of its task's
 * budget, and then writes in a transaction that checks its authority again.
 * All of these steps interleave with each other and with the queue.
 */
module AgentActions {
  import opened Prelude
  import opened RunQueue
  import opened RunQueueInvariant
  import opened AgentTables

  const MAX_ACTIONS_PER_TURN := 16

  /** Rows of the operator feed: agent actions with their outcome, exhausted budgets, the operator's edits. */
  datatype Entry =
    | Applied(task: nat, action: Action, at: Clock)
    | Rejected(task: nat, action: Action, at: Clock)
    | Exhausted(task: nat)
    | Edited(edit: UiEdit)

  /** An agent call in flight, after each of its steps. `WriteFailed` still has to take back its sentinel mark. */
  datatype Call = Routed(task: nat) | Counted(task: nat) | Sentinel(task: nat) | WriteFailed(task: nat)

  /** `schedules` live in the queue; `restarts` is history. */
  datatype Agent = Agent(
    goal: string, measurement: string,
    memories: map<Name, string>, tools: map<Name, Tool>, artifacts: map<Name, Artifact>,
    feed: seq<Entry>, budget: map<nat, nat>, calls: multiset<Call>, restarts: nat)

  datatype Engine = Engine(queue: Queue, agent: Agent)

  const EMPTY_ENGINE :=
    Engine(EMPTY_QUEUE, Agent("", "", map[], map[], map[], [], map[], multiset{}, 0))

  function TablesOf(s: Engine): Tables {
    Tables(s.agent.goal, s.agent.measurement, s.agent.memories, s.agent.tools, s.agent.artifacts, s.queue.schedules)
  }

  function WithTables(s: Engine, t: Tables): Engine {
    Engine(s.queue.(schedules := t.schedules),
           s.agent.(goal := t.goal, measurement := t.measurement,
                    memories := t.memories, tools := t.tools, artifacts := t.artifacts))
  }

  function Used(budget: map<nat, nat>, task: nat): nat {
    if task in budget then budget[task] else 0
  }

  /** Run `r` is the active run of `task`. */
  predicate Runs(r: Run, task: nat) {
    r.phase.Active? && r.task == Some(task)
  }

  predicate IsLive(runs: seq<Run>, task: nat) {
    exists i :: 0 <= i < |runs| && Runs(runs[i], task)
  }

  /** The check inside the write transaction: the task's run is active, on the current thread. */
  predicate HasAuthority(q: Queue, task: nat) {
    q.workspace.Some?
    && exists i :: 0 <= i < |q.runs| && Runs(q.runs[i], task) && q.runs[i].thread == Some(ThreadSeq(q))
  }

  /** The check on the route: the caller's thread is current and has the active run of `task`. */
  predicate RoutesTo(q: Queue, thread: nat, task: nat) {
    q.workspace.Some? && thread == ThreadSeq(q) && HasAuthority(q, task)
  }

  // ---------------------------------------------------------------------------
  // The budget, taken and given back under its lock

  datatype Verdict = Proceed | RecordExhaustion | Refuse

  function TakeBudget(budget: map<nat, nat>, task: nat): (map<nat, nat>, Verdict) {
    var used := Used(budget, task);
    if used == MAX_ACTIONS_PER_TURN then (budget[task := used + 1], RecordExhaustion)
    else if used < MAX_ACTIONS_PER_TURN then (budget[task := used + 1], Proceed)
    else (budget, Refuse)
  }

  /** The next refused call may write the sentinel again; a reaped turn is not resurrected. */
  function TakeBackSentinel(budget: map<nat, nat>, task: nat): map<nat, nat> {
    if Used(budget, task) == MAX_ACTIONS_PER_TURN + 1 then budget[task := MAX_ACTIONS_PER_TURN] else budget
  }

  // ---------------------------------------------------------------------------
  // The write transaction

  /** What the transaction of a call that has authority commits: the write with its row, or the rejection row only. */
  function Recorded(s: Engine, task: nat, a: Action, now: Clock, r: Result<Tables, Rejection>): Engine {
    match r
    case Ok(t) => var s' := WithTables(s, t); s'.(agent := s'.agent.(feed := s.agent.feed + [Applied(task, a, now)]))
    case Error(_) => s.(agent := s.agent.(feed := s.agent.feed + [Rejected(task, a, now)]))
  }

  function WriteAction(s: Engine, task: nat, a: Action, now: Clock): Engine {
    Recorded(s, task, a, now, Judged(TablesOf(s), IsActive(s.queue), a, now))
  }

  // ---------------------------------------------------------------------------
  // Steps

  datatype EngineEvent =
    | OnQueue(e: Event)
    | Route(thread: nat, task: nat)
    | Count(task: nat)
    | Write(task: nat, action: Action, now: Clock, commits: bool)
    | WriteSentinel(task: nat, commits: bool)
    | TakeBack(task: nat)
    | ForgetBudget(task: nat)
    | Operate(edit: UiEdit)

  predicate EngineEnabled(s: Engine, e: EngineEvent) {
    match e
    case OnQueue(e) => Enabled(s.queue, e) && (e.EEdit? ==> e.op.SetEnabled? || e.op.Delete?)
    case Route(thread, task) => RoutesTo(s.queue, thread, task)
    case Count(task) => Routed(task) in s.agent.calls
    case Write(task, _, _, _) => Counted(task) in s.agent.calls
    case WriteSentinel(task, _) => Sentinel(task) in s.agent.calls
    case TakeBack(task) => WriteFailed(task) in s.agent.calls
    case ForgetBudget(task) => !IsLive(s.queue.runs, task)
    case Operate(_) => true
  }

  function WithCalls(s: Engine, calls: multiset<Call>): Engine {
    s.(agent := s.agent.(calls := calls))
  }

  function CountCall(s: Engine, task: nat): Engine {
    var (budget, verdict) := TakeBudget(s.agent.budget, task);
    var rest := s.agent.calls - multiset{Routed(task)};
    WithCalls(s.(agent := s.agent.(budget := budget)),
      match verdict
      case Proceed => rest + multiset{Counted(task)}
      case RecordExhaustion => rest + multiset{Sentinel(task)}
      case Refuse => rest)
  }

  /** An operator's edit of one row, with its row in the feed; a refused one changes nothing. */
  function OperateOn(s: Engine, edit: UiEdit): Engine {
    match ApplyEdit(TablesOf(s), edit)
    case Ok(t) => var s' := WithTables(s, t); s'.(agent := s'.agent.(feed := s.agent.feed + [Edited(edit)]))
    case Error(_) => s
  }

  function EngineStep(s: Engine, e: EngineEvent): Engine
    requires EngineEnabled(s, e)
  {
    match e
    case OnQueue(e) =>
      var s' := s.(queue := Step(s.queue, e));
      // A restart forgets the in-memory budgets and loses the calls in flight.
      if e.ERestart? then
        s'.(agent := s.agent.(budget := map[], calls := multiset{}, restarts := s.agent.restarts + 1))
      else s'
    case Route(_, task) => WithCalls(s, s.agent.calls + multiset{Routed(task)})
    case Count(task) => CountCall(s, task)
    case Write(task, a, now, commits) =>
      var s' := WithCalls(s, s.agent.calls - multiset{Counted(task)});
      if commits && HasAuthority(s.queue, task) then WriteAction(s', task, a, now) else s'
    case WriteSentinel(task, commits) =>
      var rest := s.agent.calls - multiset{Sentinel(task)};
      if commits then WithCalls(s, rest).(agent := s.agent.(calls := rest, feed := s.agent.feed + [Exhausted(task)]))
      else WithCalls(s, rest + multiset{WriteFailed(task)})
    case TakeBack(task) =>
      WithCalls(s, s.agent.calls - multiset{WriteFailed(task)}).(
        agent := s.agent.(calls := s.agent.calls - multiset{WriteFailed(task)},
                          budget := TakeBackSentinel(s.agent.budget, task)))
    case ForgetBudget(task) =>
      s.(agent := s.agent.(budget := s.agent.budget - {task}))
    case Operate(edit) => OperateOn(s, edit)
  }

  // ---------------------------------------------------------------------------
  // Calls without authority

  /** A call without authority, or one whose transaction fails, changes nothing but its own flight. */
  lemma UnauthorizedWritesNothing(s: Engine, e: EngineEvent)
    requires e.Write? && EngineEnabled(s, e) && (!HasAuthority(s.queue, e.task) || !e.commits)
    ensures EngineStep(s, e) == WithCalls(s, s.agent.calls - multiset{Counted(e.task)})
  {
  }

  // ---------------------------------------------------------------------------
  // Counting feed rows

  predicate IsActionRow(row: Entry) {
    row.Applied? || row.Rejected?
  }

  /** The rows of `task`'s actions, applied or rejected. */
  function Journaled(feed: seq<Entry>, task: nat): nat {
    if feed == [] then 0
    else
      var last := feed[|feed| - 1];
      Journaled(feed[..|feed| - 1], task) + if IsActionRow(last) && last.task == task then 1 else 0
  }

  function Sentinels(feed: seq<Entry>, task: nat): nat {
    multiset(feed)[Exhausted(task)]
  }

  function SentinelCalls(calls: multiset<Call>, task: nat): nat {
    calls[Sentinel(task)] + calls[WriteFailed(task)]
  }

  lemma AppendRow(feed: seq<Entry>, row: Entry, task: nat)
    ensures Journaled(feed + [row], task)
         == Journaled(feed, task) + if IsActionRow(row) && row.task == task then 1 else 0
    ensures Sentinels(feed + [row], task) == Sentinels(feed, task) + if row == Exhausted(task) then 1 else 0
  {
    assert multiset(feed + [row]) == multiset(feed) + multiset{row};
    assert (feed + [row])[..|feed|] == feed;
  }

  function Min(a: int, b: int): int {
    if a < b then a else b
  }

  // ---------------------------------------------------------------------------
  // The invariant

  /** Host task numbers are fresh: below the next one, and unlike the one a claim is about to record. */
  ghost predicate TasksOk(q: Queue) {
    && (forall i :: 0 <= i < |q.runs| && q.runs[i].task.Some? ==> q.runs[i].task.value < q.host.nextTask)
    && (q.worker.Posted? ==>
          && q.worker.task < q.host.nextTask
          && forall i :: 0 <= i < |q.runs| ==> q.runs[i].task != Some(q.worker.task))
    && (forall i, j :: 0 <= i < j < |q.runs| && q.runs[i].task.Some? ==> q.runs[i].task != q.runs[j].task)
  }

  predicate IsKnown(runs: seq<Run>, task: nat) {
    exists i :: 0 <= i < |runs| && runs[i].task == Some(task)
  }

  /** The rows and calls of one task are covered by the units of budget it has taken. */
  ghost predicate Covered(feed: seq<Entry>, budget: map<nat, nat>, calls: multiset<Call>, restarts: nat, task: nat) {
    && Used(budget, task) <= MAX_ACTIONS_PER_TURN + 1
    && Journaled(feed, task) + calls[Counted(task)]
       <= MAX_ACTIONS_PER_TURN * restarts + Min(Used(budget, task), MAX_ACTIONS_PER_TURN)
    && Sentinels(feed, task) + SentinelCalls(calls, task)
       <= restarts + if Used(budget, task) == MAX_ACTIONS_PER_TURN + 1 then 1 else 0
  }

  /** Nothing in flight and nothing written for a task that no run carries yet. */
  ghost predicate Untouched(feed: seq<Entry>, budget: map<nat, nat>, calls: multiset<Call>, task: nat) {
    && task !in budget && Journaled(feed, task) == 0 && Sentinels(feed, task) == 0
    && Routed(task) !in calls && Counted(task) !in calls && Sentinel(task) !in calls && WriteFailed(task) !in calls
  }

  /**
   * The account of a task that no run carried before restart number `base`:
   * one budget, and one row for its exhaustion, for each later life of the process.
   */
  ghost predicate TaskOk(runs: seq<Run>, agent: Agent, base: nat, task: nat) {
    && base <= agent.restarts
    && (IsLive(runs, task) ==> Covered(agent.feed, agent.budget, agent.calls, agent.restarts - base, task))
    && (!IsKnown(runs, task) ==> Untouched(agent.feed, agent.budget, agent.calls, task))
    && Journaled(agent.feed, task) <= MAX_ACTIONS_PER_TURN * (agent.restarts - base + 1)
  }

  ghost predicate EngineInv(s: Engine) {
    && Inv(s.queue) && TasksOk(s.queue) && WithinCaps(TablesOf(s))
    && forall task :: TaskOk(s.queue.runs, s.agent, 0, task)
  }

  // ---------------------------------------------------------------------------
  // Preservation by agent steps

  lemma AuthorityMeansLive(q: Queue, task: nat)
    requires HasAuthority(q, task)
    ensures IsLive(q.runs, task) && IsKnown(q.runs, task)
  {
    var i :| 0 <= i < |q.runs| && Runs(q.runs[i], task) && q.runs[i].thread == Some(ThreadSeq(q));
  }

  lemma CountKeepsTask(s: Engine, task: nat, base: nat, t: nat)
    requires TaskOk(s.queue.runs, s.agent, base, t) && Routed(task) in s.agent.calls
    ensures TaskOk(s.queue.runs, CountCall(s, task).agent, base, t)
  {
    if t != task {
      OthersAreNotCounted(s.queue.runs, s.agent, CountCall(s, task).agent, task, base, t);
    } else {
      OwnIsCounted(s, task, base);
    }
  }

  /** The account of another task is not touched. */
  lemma OthersAreNotCounted(runs: seq<Run>, a: Agent, b: Agent, task: nat, base: nat, t: nat)
    requires TaskOk(runs, a, base, t) && t != task
    requires b.feed == a.feed && b.restarts == a.restarts
    requires (t in b.budget <==> t in a.budget) && Used(b.budget, t) == Used(a.budget, t)
    requires b.calls[Routed(t)] == a.calls[Routed(t)] && b.calls[Counted(t)] == a.calls[Counted(t)]
    requires b.calls[Sentinel(t)] == a.calls[Sentinel(t)] && b.calls[WriteFailed(t)] == a.calls[WriteFailed(t)]
    ensures TaskOk(runs, b, base, t)
  {
  }

  lemma OwnIsCounted(s: Engine, task: nat, base: nat)
    requires TaskOk(s.queue.runs, s.agent, base, task) && Routed(task) in s.agent.calls
    ensures TaskOk(s.queue.runs, CountCall(s, task).agent, base, task)
  {
  }

  /** What a write transaction does to the feed, the budget and the calls in flight. */
  lemma WriteEffect(s: Engine, e: EngineEvent)
    requires EngineEnabled(s, e) && e.Write?
    ensures var s' := EngineStep(s, e);
      && s'.queue.runs == s.queue.runs && s'.agent.budget == s.agent.budget && s'.agent.restarts == s.agent.restarts
      && s'.agent.calls == s.agent.calls - multiset{Counted(e.task)}
      && (s'.agent.feed == s.agent.feed
          || (HasAuthority(s.queue, e.task)
              && (s'.agent.feed == s.agent.feed + [Applied(e.task, e.action, e.now)] || s'.agent.feed == s.agent.feed + [Rejected(e.task, e.action, e.now)])))
  {
  }

  /** A journaled row takes the place of the call that wrote it. */
  lemma RowReplacesCall(runs: seq<Run>, a: Agent, row: Entry, task: nat, base: nat, t: nat)
    requires TaskOk(runs, a, base, t) && Counted(task) in a.calls && IsLive(runs, task) && IsKnown(runs, task)
    requires IsActionRow(row) && row.task == task
    ensures TaskOk(runs, a.(feed := a.feed + [row], calls := a.calls - multiset{Counted(task)}), base, t)
  {
    AppendRow(a.feed, row, t);
  }

  lemma CallEnds(runs: seq<Run>, a: Agent, call: Call, base: nat, t: nat)
    requires TaskOk(runs, a, base, t)
    ensures TaskOk(runs, a.(calls := a.calls - multiset{call}), base, t)
  {
  }

  lemma WriteKeepsTask(s: Engine, e: EngineEvent, base: nat, t: nat)
    requires TaskOk(s.queue.runs, s.agent, base, t) && EngineEnabled(s, e) && e.Write?
    ensures TaskOk(EngineStep(s, e).queue.runs, EngineStep(s, e).agent, base, t)
  {
    WriteEffect(s, e);
    var s' := EngineStep(s, e);
    if s'.agent.feed == s.agent.feed {
      CallEnds(s.queue.runs, s.agent, Counted(e.task), base, t);
      FeedBudgetCallsMatter(s.queue.runs, s.agent.(calls := s.agent.calls - multiset{Counted(e.task)}), s'.agent, base, t);
    } else {
      AuthorityMeansLive(s.queue, e.task);
      var row := s'.agent.feed[|s.agent.feed|];
      RowReplacesCall(s.queue.runs, s.agent, row, e.task, base, t);
    }
  }

  lemma FeedBudgetCallsMatter(runs: seq<Run>, a: Agent, b: Agent, base: nat, t: nat)
    requires TaskOk(runs, a, base, t)
    requires a.feed == b.feed && a.budget == b.budget && a.calls == b.calls && a.restarts == b.restarts
    ensures TaskOk(runs, b, base, t)
  {
  }

  lemma SentinelWritten(runs: seq<Run>, a: Agent, task: nat, base: nat, t: nat)
    requires TaskOk(runs, a, base, t) && Sentinel(task) in a.calls
    ensures TaskOk(runs, a.(feed := a.feed + [Exhausted(task)], calls := a.calls - multiset{Sentinel(task)}), base, t)
  {
    AppendRow(a.feed, Exhausted(task), t);
  }

  lemma SentinelFailed(runs: seq<Run>, a: Agent, task: nat, base: nat, t: nat)
    requires TaskOk(runs, a, base, t) && Sentinel(task) in a.calls
    ensures TaskOk(runs, a.(calls := a.calls - multiset{Sentinel(task)} + multiset{WriteFailed(task)}), base, t)
  {
  }

  lemma SentinelTakenBack(runs: seq<Run>, a: Agent, task: nat, base: nat, t: nat)
    requires TaskOk(runs, a, base, t) && WriteFailed(task) in a.calls
    ensures TaskOk(runs, a.(calls := a.calls - multiset{WriteFailed(task)},
                            budget := TakeBackSentinel(a.budget, task)), base, t)
  {
  }

  /** The operator's edits touch no call, no budget and no row of a task. */
  lemma OperateKeepsTask(s: Engine, edit: UiEdit, base: nat, t: nat)
    requires TaskOk(s.queue.runs, s.agent, base, t)
    ensures TaskOk(OperateOn(s, edit).queue.runs, OperateOn(s, edit).agent, base, t)
  {
    AppendRow(s.agent.feed, Edited(edit), t);
  }
}
