/**
 * The journal of the agent's actions explains the tables: in every run they are
 * what the applied rows, the operator's edits and the steps of the queue make of
 * the empty workspace, and nothing else ever changed them.
 */
module AgentJournal {
  import opened Prelude
  import opened RunQueue
  import opened AgentTables
  import opened AgentActions
  import opened AgentActionsSafety

  /** What can change a table: a step of the queue, or what a row of the feed records. */
  datatype Effect = FromQueue(step: Event) | FromRow(row: Entry)

  /** `tables.schedules` are the queue's. */
  datatype World = World(queue: Queue, tables: Tables)

  const EMPTY_WORLD := World(EMPTY_QUEUE, Tables("", "", map[], map[], map[], map[]))

  function Installed(w: World, r: Result<Tables, Rejection>): World {
    if r.Ok? then World(w.queue.(schedules := r.value.schedules), r.value) else w
  }

  function AfterQueue(w: World, e: Event): World {
    if Enabled(w.queue, e) then
      var q := Step(w.queue, e);
      World(q, w.tables.(schedules := q.schedules))
    else w
  }

  /** Rejected actions and exhausted budgets are recorded, and change nothing. */
  function After(w: World, f: Effect): World {
    match f
    case FromQueue(e) => AfterQueue(w, e)
    case FromRow(Applied(_, a, at)) => Installed(w, Judged(w.tables, IsActive(w.queue), a, at))
    case FromRow(Edited(edit)) => Installed(w, ApplyEdit(w.tables, edit))
    case FromRow(_) => w
  }

  function Replay(effects: seq<Effect>): World {
    if effects == [] then EMPTY_WORLD
    else After(Replay(effects[..|effects| - 1]), effects[|effects| - 1])
  }

  /** The record is true: applied rows are accepted where they stand, rejected ones are not. */
  predicate Truthful(w: World, f: Effect) {
    match f
    case FromQueue(e) => Enabled(w.queue, e)
    case FromRow(Applied(_, a, at)) => Judged(w.tables, IsActive(w.queue), a, at).Ok?
    case FromRow(Rejected(_, a, at)) => Judged(w.tables, IsActive(w.queue), a, at).Error?
    case FromRow(Edited(edit)) => ApplyEdit(w.tables, edit).Ok?
    case FromRow(Exhausted(_)) => true
  }

  predicate AllTruthful(effects: seq<Effect>) {
    forall k :: 0 <= k < |effects| ==> Truthful(Replay(effects[..k]), effects[k])
  }

  function Rows(effects: seq<Effect>): seq<Entry> {
    if effects == [] then []
    else
      var last := effects[|effects| - 1];
      Rows(effects[..|effects| - 1]) + if last.FromRow? then [last.row] else []
  }

  function QueueSteps(effects: seq<Effect>): seq<Event> {
    if effects == [] then []
    else
      var last := effects[|effects| - 1];
      QueueSteps(effects[..|effects| - 1]) + if last.FromQueue? then [last.step] else []
  }

  function QueueEvents(events: seq<EngineEvent>): seq<Event> {
    if events == [] then []
    else
      var last := events[|events| - 1];
      QueueEvents(events[..|events| - 1]) + if last.OnQueue? then [last.e] else []
  }

  // ---------------------------------------------------------------------------
  // One step

  /** The rows that a step adds to the feed, or the queue's step. */
  ghost function EffectOf(e: EngineEvent, feed: seq<Entry>, feed': seq<Entry>): seq<Effect> {
    if e.OnQueue? then [FromQueue(e.e)]
    else if |feed| < |feed'| then [FromRow(feed'[|feed|])]
    else []
  }

  ghost function WorldOf(s: Engine): World {
    World(s.queue, TablesOf(s))
  }

  /** From `w` to `w'` by effects `fs`, of which there is at most one. */
  ghost predicate Explains(fs: seq<Effect>, w: World, w': World) {
    && |fs| <= 1
    && (fs == [] ==> w' == w)
    && (fs != [] ==> Truthful(w, fs[0]) && w' == After(w, fs[0]))
  }

  lemma RecordedIs(s: Engine, task: nat, a: Action, now: Clock, r: Result<Tables, Rejection>)
    ensures WorldOf(Recorded(s, task, a, now, r)) == Installed(WorldOf(s), r)
    ensures Recorded(s, task, a, now, r).agent.feed
         == s.agent.feed + [if r.Ok? then Applied(task, a, now) else Rejected(task, a, now)]
  {
  }

  lemma WriteIsExplained(s: Engine, task: nat, a: Action, now: Clock)
    ensures var s' := WriteAction(s, task, a, now);
      var row := if Judged(TablesOf(s), IsActive(s.queue), a, now).Ok? then Applied(task, a, now) else Rejected(task, a, now);
      && s'.agent.feed == s.agent.feed + [row]
      && Truthful(WorldOf(s), FromRow(row)) && WorldOf(s') == After(WorldOf(s), FromRow(row))
  {
    RecordedIs(s, task, a, now, Judged(TablesOf(s), IsActive(s.queue), a, now));
  }

  lemma WriteStepIsExplained(s: Engine, e: EngineEvent)
    requires EngineEnabled(s, e) && e.Write?
    ensures var s' := EngineStep(s, e);
      && s.agent.feed <= s'.agent.feed
      && Explains(EffectOf(e, s.agent.feed, s'.agent.feed), WorldOf(s), WorldOf(s'))
      && s'.agent.feed == s.agent.feed + Rows(EffectOf(e, s.agent.feed, s'.agent.feed))
  {
    var flown := WithCalls(s, s.agent.calls - multiset{Counted(e.task)});
    assert WorldOf(flown) == WorldOf(s);
    if e.commits && HasAuthority(s.queue, e.task) {
      WriteIsExplained(flown, e.task, e.action, e.now);
    }
  }

  lemma OperateIsExplained(s: Engine, edit: UiEdit)
    ensures var s' := OperateOn(s, edit);
      if ApplyEdit(TablesOf(s), edit).Ok? then
        s'.agent.feed == s.agent.feed + [Edited(edit)] && WorldOf(s') == After(WorldOf(s), FromRow(Edited(edit)))
      else s' == s
  {
  }

  lemma QueueIsExplained(s: Engine, e: Event)
    requires EngineEnabled(s, OnQueue(e))
    ensures var s' := EngineStep(s, OnQueue(e));
      s'.agent.feed == s.agent.feed && Explains([FromQueue(e)], WorldOf(s), WorldOf(s')) && Rows([FromQueue(e)]) == []
  {
    QueueKeepsTables(s, e);
    assert [FromQueue(e)][..0] == [];
  }

  lemma StepIsExplained(s: Engine, e: EngineEvent)
    requires EngineEnabled(s, e)
    ensures var s' := EngineStep(s, e);
      && s.agent.feed <= s'.agent.feed
      && Explains(EffectOf(e, s.agent.feed, s'.agent.feed), WorldOf(s), WorldOf(s'))
      && s'.agent.feed == s.agent.feed + Rows(EffectOf(e, s.agent.feed, s'.agent.feed))
  {
    if e.OnQueue? {
      QueueIsExplained(s, e.e);
    } else if e.Write? {
      WriteStepIsExplained(s, e);
    } else if e.Operate? {
      OperateIsExplained(s, e.edit);
    } else {
      CallKeepsTables(s, e);
    }
  }

  // ---------------------------------------------------------------------------
  // Whole runs

  ghost function Effects(states: seq<Engine>, events: seq<EngineEvent>, i: nat): seq<Effect>
    requires i < |states| && i <= |events|
  {
    if i == 0 then []
    else Effects(states, events, i - 1) + EffectOf(events[i - 1], states[i - 1].agent.feed, states[i].agent.feed)
  }

  lemma AppendReplay(fs: seq<Effect>, f: Effect)
    ensures Replay(fs + [f]) == After(Replay(fs), f)
  {
    assert (fs + [f])[..|fs|] == fs;
  }

  lemma AppendTruth(fs: seq<Effect>, f: Effect)
    requires AllTruthful(fs) && Truthful(Replay(fs), f)
    ensures AllTruthful(fs + [f])
  {
    assert (fs + [f])[..|fs|] == fs;
    forall k | 0 <= k < |fs| ensures (fs + [f])[..k] == fs[..k] {}
  }

  lemma AppendEffect(fs: seq<Effect>, f: Effect)
    ensures Rows(fs + [f]) == Rows(fs) + Rows([f])
    ensures QueueSteps(fs + [f]) == QueueSteps(fs) + QueueSteps([f])
  {
    assert (fs + [f])[..|fs|] == fs;
    assert [f][..0] == [];
  }

  lemma AppendEvent(events: seq<EngineEvent>, i: nat)
    requires i < |events|
    ensures QueueEvents(events[..i + 1]) == QueueEvents(events[..i]) + if events[i].OnQueue? then [events[i].e] else []
  {
    assert events[..i + 1][..i] == events[..i];
  }

  /** One more step: at most one more effect, which is true where it stands. */
  lemma ExplainedStep(fs: seq<Effect>, more: seq<Effect>, s: Engine, e: EngineEvent)
    requires EngineEnabled(s, e) && more == EffectOf(e, s.agent.feed, EngineStep(s, e).agent.feed)
    requires Replay(fs) == WorldOf(s) && AllTruthful(fs) && Rows(fs) == s.agent.feed
    ensures Replay(fs + more) == WorldOf(EngineStep(s, e)) && AllTruthful(fs + more)
    ensures Rows(fs + more) == EngineStep(s, e).agent.feed
    ensures QueueSteps(fs + more) == QueueSteps(fs) + if e.OnQueue? then [e.e] else []
  {
    StepIsExplained(s, e);
    if more == [] {
      assert fs + more == fs;
    } else {
      assert more == [more[0]];
      AppendReplay(fs, more[0]);
      AppendTruth(fs, more[0]);
      AppendEffect(fs, more[0]);
    }
  }

  /**
   * In every run the queue and all tables are the replay, from the empty
   * workspace, of the steps of the queue and the rows of the feed: each applied
   * action and each operator's edit, once, at its place, as it was accepted
   * there. Whatever left no applied row changed nothing: actions rejected where
   * they stand, calls without authority, and transactions that failed.
   */
  lemma {:induction false} TablesAreReplayed(states: seq<Engine>, events: seq<EngineEvent>, i: nat)
    requires EngineExecution(states, events) && i < |states|
    ensures var fs := Effects(states, events, i);
      && Replay(fs) == WorldOf(states[i])
      && AllTruthful(fs)
      && Rows(fs) == states[i].agent.feed
      && QueueSteps(fs) == QueueEvents(events[..i])
  {
    if i > 0 {
      TablesAreReplayed(states, events, i - 1);
      assert states[i - 1 + 1] == EngineStep(states[i - 1], events[i - 1]);
      AppendEvent(events, i - 1);
      ExplainedStep(Effects(states, events, i - 1),
        EffectOf(events[i - 1], states[i - 1].agent.feed, states[i].agent.feed), states[i - 1], events[i - 1]);
    }
  }

  // ---------------------------------------------------------------------------
  // One row for each authorized write

  /** The write transactions of `task` that found their authority and committed. */
  ghost function AuthorizedWrites(states: seq<Engine>, events: seq<EngineEvent>, i: nat, task: nat): nat
    requires i < |states| && i <= |events|
  {
    if i == 0 then 0
    else AuthorizedWrites(states, events, i - 1, task) + if Writes(states[i - 1], events[i - 1], task) then 1 else 0
  }

  ghost predicate Writes(s: Engine, e: EngineEvent, task: nat) {
    e.Write? && e.task == task && e.commits && HasAuthority(s.queue, task)
  }

  lemma WriteLeavesOneRow(s: Engine, e: EngineEvent, task: nat)
    requires EngineEnabled(s, e) && e.Write?
    ensures Journaled(EngineStep(s, e).agent.feed, task)
         == Journaled(s.agent.feed, task) + if Writes(s, e, task) then 1 else 0
  {
    var flown := WithCalls(s, s.agent.calls - multiset{Counted(e.task)});
    if e.commits && HasAuthority(s.queue, e.task) {
      WriteIsExplained(flown, e.task, e.action, e.now);
      AppendRow(s.agent.feed, EngineStep(s, e).agent.feed[|s.agent.feed|], task);
    }
  }

  lemma OthersLeaveNoActionRow(s: Engine, e: EngineEvent, task: nat)
    requires EngineEnabled(s, e) && !e.OnQueue? && !e.Write?
    ensures Journaled(EngineStep(s, e).agent.feed, task) == Journaled(s.agent.feed, task)
  {
    if e.Operate? {
      OperateEffect(s, e.edit);
      AppendRow(s.agent.feed, Edited(e.edit), task);
    } else {
      CallKeepsTables(s, e);
      if e.WriteSentinel? {
        AppendRow(s.agent.feed, Exhausted(e.task), task);
      }
    }
  }

  lemma StepCountsWrite(s: Engine, e: EngineEvent, task: nat)
    requires EngineEnabled(s, e)
    ensures Journaled(EngineStep(s, e).agent.feed, task)
         == Journaled(s.agent.feed, task) + if Writes(s, e, task) then 1 else 0
  {
    if e.OnQueue? {
      QueueKeepsTables(s, e.e);
    } else if e.Write? {
      WriteLeavesOneRow(s, e, task);
    } else {
      OthersLeaveNoActionRow(s, e, task);
    }
  }

  /** Every write that has authority and commits leaves one row, applied or rejected; no other write leaves any. */
  lemma {:induction false} OneRowForEachWrite(states: seq<Engine>, events: seq<EngineEvent>, i: nat, task: nat)
    requires EngineExecution(states, events) && i < |states|
    ensures Journaled(states[i].agent.feed, task) == AuthorizedWrites(states, events, i, task)
  {
    if i > 0 {
      OneRowForEachWrite(states, events, i - 1, task);
      assert states[i - 1 + 1] == EngineStep(states[i - 1], events[i - 1]);
      StepCountsWrite(states[i - 1], events[i - 1], task);
    }
  }

  // ---------------------------------------------------------------------------
  // Rows that no action names

  predicate Names(row: Entry, n: Name) {
    match row
    case Applied(_, a, _) => !a.SetGoal? && !a.SetMeasurement? && !a.Scheduling? && a.id == n
    case Edited(edit) => edit.id == n
    case _ => false
  }

  /** No row of the feed from `from` on names it. */
  predicate Unnamed(feed: seq<Entry>, from: nat, n: Name) {
    forall k :: from <= k < |feed| ==> !Names(feed[k], n)
  }

  predicate SameRows(t: Tables, t': Tables, n: Name) {
    && (n in t'.memories <==> n in t.memories) && (n in t.memories ==> t'.memories[n] == t.memories[n])
    && (n in t'.tools <==> n in t.tools) && (n in t.tools ==> t'.tools[n] == t.tools[n])
    && (n in t'.artifacts <==> n in t.artifacts) && (n in t.artifacts ==> t'.artifacts[n] == t.artifacts[n])
  }

  lemma EffectKeepsRows(w: World, f: Effect, n: Name)
    requires f.FromRow? ==> !Names(f.row, n)
    ensures SameRows(w.tables, After(w, f).tables, n)
  {
    if f.FromRow? && f.row.Applied? && Judged(w.tables, IsActive(w.queue), f.row.action, f.row.at).Ok? {
      OtherTablesKept(w.tables, IsActive(w.queue), f.row.action, f.row.at);
      if !f.row.action.SetGoal? && !f.row.action.SetMeasurement? && !f.row.action.Scheduling? {
        OtherRowsKept(w.tables, IsActive(w.queue), f.row.action, f.row.at, n);
      }
    }
  }

  /** From `s` to `s'` the feed grows, and the rows of a name change only if what is added names it. */
  ghost predicate KeepsRows(s: Engine, s': Engine, n: Name) {
    && s.agent.feed <= s'.agent.feed
    && (Unnamed(s'.agent.feed, |s.agent.feed|, n) ==> SameRows(TablesOf(s), TablesOf(s'), n))
  }

  lemma StepKeepsRows(s: Engine, e: EngineEvent, s': Engine, n: Name)
    requires EngineEnabled(s, e) && s' == EngineStep(s, e)
    ensures KeepsRows(s, s', n)
  {
    StepIsExplained(s, e);
    var more := EffectOf(e, s.agent.feed, s'.agent.feed);
    if more != [] && (more[0].FromRow? ==> !Names(more[0].row, n)) {
      EffectKeepsRows(WorldOf(s), more[0], n);
    }
  }

  lemma KeepsRowsOn(a: Engine, b: Engine, c: Engine, n: Name)
    requires KeepsRows(a, b, n) && KeepsRows(b, c, n)
    ensures KeepsRows(a, c, n)
  {
    UnnamedParts(a.agent.feed, b.agent.feed, c.agent.feed, n);
  }

  lemma UnnamedParts(a: seq<Entry>, b: seq<Entry>, c: seq<Entry>, n: Name)
    requires a <= b <= c
    ensures Unnamed(c, |a|, n) ==> Unnamed(b, |a|, n) && Unnamed(c, |b|, n)
  {
    assert forall k :: |a| <= k < |b| ==> b[k] == c[k];
  }

  lemma NextKeepsRows(states: seq<Engine>, events: seq<EngineEvent>, i: nat, n: Name)
    requires EngineExecution(states, events) && i < |events|
    ensures KeepsRows(states[i], states[i + 1], n)
  {
    StepKeepsRows(states[i], events[i], states[i + 1], n);
  }

  lemma {:induction false} KeepsRowsChain(states: seq<Engine>, i: nat, j: nat, n: Name)
    requires i <= j < |states| && forall k {:trigger states[k]} :: i <= k < j ==> KeepsRows(states[k], states[k + 1], n)
    ensures KeepsRows(states[i], states[j], n)
    decreases j
  {
    if i < j {
      KeepsRowsChain(states, i, j - 1, n);
      KeepsRowsOn(states[i], states[j - 1], states[j], n);
    }
  }

  /** Between two moments of a run, a memory, a tool or an artifact changes only if a row of the feed names it. */
  lemma UnnamedRowsStay(states: seq<Engine>, events: seq<EngineEvent>, i: nat, j: nat, n: Name)
    requires EngineExecution(states, events) && i <= j < |states|
    ensures states[i].agent.feed <= states[j].agent.feed
    ensures Unnamed(states[j].agent.feed, |states[i].agent.feed|, n) ==>
      SameRows(TablesOf(states[i]), TablesOf(states[j]), n)
  {
    forall k {:trigger states[k]} | i <= k < j ensures KeepsRows(states[k], states[k + 1], n) {
      NextKeepsRows(states, events, k, n);
    }
    KeepsRowsChain(states, i, j, n);
  }
}
