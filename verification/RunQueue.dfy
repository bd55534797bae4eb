/**
 * The durable run queue of the workspace engine, as a state machine.
 *
 * One database transaction or one host call is one atomic step. The host is
 * part of the state: it numbers tasks in order, moves them through their life
 * cycle and forgets finished ones. `requests`, `deliveries` and `starts` are
 * history: the task requests sent, the chat messages the host accepted (as a
 * task or as a steer) and the runs that became active, each in order.
 */
module RunQueue {
  import opened Prelude
  import opened ScheduleTiming
  import opened TaskStatus

  const MAX_QUEUED_CHAT_TURNS := 20
  const MAX_SCHEDULES := 20
  const FIRST_THREAD_SEQ := 1

  /** The slug of a schedule, memory, tool or artifact. */
  type Name = string

  /** The clock in ticks. The host's clock is past the epoch. */
  type Clock = t: int | t >= TICKS_PER_SECOND witness TICKS_PER_SECOND

  type Minutes = m: nat | 5 <= m <= 7 * 24 * 60 witness 5

  datatype Settings = Settings(runtime: string, model: string, effort: string)

  /** The workspace row. Settings are missing while it is deactivated. */
  datatype Workspace = Workspace(threadSeq: nat, settings: Option<Settings>)

  datatype Kind = Chat | Scheduled(schedule: Name)

  datatype Outcome =
    | Steered | Discarded | Deactivated | Orphaned | Lost | Oversized
    | Finished(status: Status)

  /** `seen` is the host status the engine last read for the active run's task. */
  datatype Phase = Pending | Active(seen: Status) | Done(outcome: Outcome)

  /** A row of `runs`; its id is its position. A chat run is its own message. */
  datatype Run = Run(kind: Kind, phase: Phase, task: Option<nat>, thread: Option<nat>)

  /** A schedule row. `anchor` is history: the time at which its present cadence started. */
  datatype Schedule = Schedule(
    title: string, prompt: string, everyMinutes: Option<Minutes>, next: Option<int>,
    enabled: bool, lastRun: Option<nat>, anchor: int)

  /** What the host said about the active run's task. */
  datatype Answer = Is(status: Status) | Missing | TooLarge

  /** Where the one run worker stands between its transactions and host calls. */
  datatype Worker =
    | Idle
    | Observed(run: nat, answer: Answer)
    | Selected(run: nat)
    | Composed(run: nat, thread: nat, settings: Settings, newThread: bool)
    | Posted(run: nat, thread: nat, task: nat)

  /** A request thread that steers its own message: before and after the host accepted. */
  datatype SteerCall = Calling(task: nat) | Accepted(task: nat)

  /** A task request; only the first ones of a thread carry settings. */
  datatype Request = Request(thread: nat, settings: Option<Settings>)

  datatype Host = Host(nextTask: nat, tasks: map<nat, Status>)

  datatype Queue = Queue(
    workspace: Option<Workspace>,
    runs: seq<Run>,
    schedules: map<Name, Schedule>,
    worker: Worker,
    steers: map<nat, SteerCall>,
    host: Host,
    requests: seq<Request>,
    deliveries: seq<nat>,
    starts: seq<nat>)

  const EMPTY_QUEUE := Queue(None, [], map[], Idle, map[], Host(1, map[]), [], [], [])

  datatype Refusal =
    | BadSettings | AlreadyActive | StillStopping | NotStarted | SettingsRequired | SettingsNotAccepted
    | QueueFull | NotFound | TurnsUnfinished | FinishedOneShot | Inactive | AlreadyExists | ScheduleLimit

  // ---------------------------------------------------------------------------
  // Queries

  /** The session options the host offers. */
  predicate ValidSettings(s: Settings) {
    match s.runtime
    case "codex" =>
      (s.model in ["gpt-5.6-terra", "gpt-5.6-sol"] && s.effort in ["high", "max", "ultra"])
      || (s.model == "gpt-5.6-luna" && s.effort in ["high", "max"])
    case "claude_code" => s.model in ["opus", "fable", "sonnet"] && s.effort in ["high", "max", "ultracode"]
    case "hermes" =>
      s.model in ["deepseek.v3.2", "qwen.qwen3-coder-next", "moonshotai.kimi-k2.5"] && s.effort == "high"
    case _ => false
  }

  predicate IsActive(q: Queue) {
    q.workspace.Some? && q.workspace.value.settings.Some?
  }

  function SeqOf(workspace: Option<Workspace>): nat {
    if workspace.Some? then workspace.value.threadSeq else FIRST_THREAD_SEQ
  }

  function SettingsOf(workspace: Option<Workspace>): Option<Settings> {
    if workspace.Some? then workspace.value.settings else None
  }

  function ThreadSeq(q: Queue): nat {
    SeqOf(q.workspace)
  }

  function CurrentSettings(q: Queue): Option<Settings> {
    SettingsOf(q.workspace)
  }

  predicate Withdrawn(r: Run) {
    r.phase.Done? && (r.phase.outcome == Discarded || r.phase.outcome == Deactivated)
  }

  predicate AnyActive(runs: seq<Run>) {
    exists i :: 0 <= i < |runs| && runs[i].phase.Active?
  }

  predicate AnyUnfinished(runs: seq<Run>) {
    exists i :: 0 <= i < |runs| && !runs[i].phase.Done?
  }

  predicate PendingChat(r: Run) {
    r.kind.Chat? && r.phase.Pending?
  }

  predicate AnyPendingChat(runs: seq<Run>) {
    exists i :: 0 <= i < |runs| && PendingChat(runs[i])
  }

  predicate AnyOnThread(runs: seq<Run>, thread: nat) {
    exists i :: 0 <= i < |runs| && runs[i].thread == Some(thread)
  }

  predicate UnfinishedOf(r: Run, schedule: Name) {
    r.kind == Scheduled(schedule) && !r.phase.Done?
  }

  predicate AnyUnfinishedOf(runs: seq<Run>, schedule: Name) {
    exists i :: 0 <= i < |runs| && UnfinishedOf(runs[i], schedule)
  }

  function UnfinishedChats(runs: seq<Run>): nat {
    if runs == [] then 0
    else UnfinishedChats(runs[..|runs| - 1])
         + if runs[|runs| - 1].kind.Chat? && !runs[|runs| - 1].phase.Done? then 1 else 0
  }

  /** The oldest pending run, or the length of the table. */
  function OldestPending(runs: seq<Run>, from: nat := 0): (r: nat)
    requires from <= |runs|
    ensures from <= r <= |runs|
    ensures r < |runs| ==> runs[r].phase.Pending?
    ensures forall i :: from <= i < r ==> !runs[i].phase.Pending?
    decreases |runs| - from
  {
    if from == |runs| || runs[from].phase.Pending? then from else OldestPending(runs, from + 1)
  }

  /** The task that may accept a new message as a steer. */
  function SteerTarget(runs: seq<Run>): (t: Option<nat>)
    ensures t.Some? ==> !AnyPendingChat(runs) && AnyActive(runs)
  {
    if AnyPendingChat(runs) then None else RunningTask(runs, 0)
  }

  function RunningTask(runs: seq<Run>, from: nat): (t: Option<nat>)
    requires from <= |runs|
    ensures t.Some? ==> AnyActive(runs)
    decreases |runs| - from
  {
    if from == |runs| then None
    else if runs[from].phase == Active(Running) then runs[from].task
    else RunningTask(runs, from + 1)
  }

  function SetPhase(q: Queue, r: nat, phase: Phase): Queue
    requires r < |q.runs|
  {
    q.(runs := q.runs[r := q.runs[r].(phase := phase)])
  }

  // ---------------------------------------------------------------------------
  // Operator requests

  /** The row `_ensure_workspace` writes: a new row starts the first thread, an old one keeps its thread. */
  function EnsureWorkspace(q: Queue, s: Settings): Queue {
    q.(workspace := Some(Workspace(ThreadSeq(q), Some(s))))
  }

  function Activate(q: Queue, s: Settings): Result<Queue, Refusal> {
    if !ValidSettings(s) then Error(BadSettings)
    else if IsActive(q) then Error(AlreadyActive)
    else if AnyActive(q.runs) then Error(StillStopping)
    else Ok(EnsureWorkspace(q, s))
  }

  /** One human message: its run, and the call that tries to steer it into the running turn. */
  function QueueHumanInput(q: Queue): Result<Queue, Refusal> {
    if UnfinishedChats(q.runs) >= MAX_QUEUED_CHAT_TURNS then
      Error(QueueFull)
    else
      var target := SteerTarget(q.runs);
      var queued := q.(runs := q.runs + [Run(Chat, Pending, None, None)]);
      Ok(if target.Some? then queued.(steers := q.steers[|q.runs| := Calling(target.value)]) else queued)
  }

  /** A composer message; the first one of an inactive workspace activates it. */
  function SendMessage(q: Queue, supplied: Option<Settings>): Result<Queue, Refusal> {
    if IsActive(q) then
      if supplied.Some? then Error(SettingsNotAccepted) else QueueHumanInput(q)
    else if supplied.None? then Error(SettingsRequired)
    else if !ValidSettings(supplied.value) then Error(BadSettings)
    else if AnyActive(q.runs) then Error(StillStopping)
    else QueueHumanInput(EnsureWorkspace(q, supplied.value))
  }

  /** A control interaction: a message that never activates the workspace. */
  function SubmitInteraction(q: Queue): Result<Queue, Refusal> {
    if !IsActive(q) then Error(NotStarted) else QueueHumanInput(q)
  }

  function DeactivatedRuns(runs: seq<Run>): (out: seq<Run>)
    ensures |out| == |runs|
    ensures forall i :: 0 <= i < |runs| ==>
      out[i] == if runs[i].phase.Pending? then runs[i].(phase := Done(Deactivated)) else runs[i]
  {
    seq(|runs|, i requires 0 <= i < |runs| =>
      if runs[i].phase.Pending? then runs[i].(phase := Done(Deactivated)) else runs[i])
  }

  /** Pauses every schedule, ends every queued run and rotates the thread. Active runs stay tracked. */
  function Deactivate(q: Queue): Queue {
    if q.workspace.None? then q
    else
      q.(schedules := map n | n in q.schedules :: q.schedules[n].(enabled := false),
         runs := DeactivatedRuns(q.runs),
         workspace := if IsActive(q) then Some(Workspace(ThreadSeq(q) + 1, None)) else q.workspace)
  }

  function UpdateAgentSettings(q: Queue, s: Settings): Result<Queue, Refusal> {
    if !ValidSettings(s) then Error(BadSettings)
    else if !IsActive(q) then Error(NotStarted)
    else if CurrentSettings(q) == Some(s) then Ok(q)
    else if AnyUnfinished(q.runs) then Error(TurnsUnfinished)
    else Ok(q.(workspace := Some(Workspace(ThreadSeq(q) + 1, Some(s)))))
  }

  function DiscardPendingRun(q: Queue, r: nat): Result<Queue, Refusal> {
    if r < |q.runs| && q.runs[r].phase.Pending? then Ok(SetPhase(q, r, Done(Discarded))) else Error(NotFound)
  }

  // ---------------------------------------------------------------------------
  // Steering: a host call, then a transaction

  datatype SteerReply = SteerAccepted | SteerAcceptedReplyLost | SteerRefused

  predicate HostRunning(q: Queue, task: nat) {
    task in q.host.tasks && q.host.tasks[task] == Running
  }

  predicate CanReplyToSteer(q: Queue, r: nat, reply: SteerReply) {
    && r in q.steers && q.steers[r].Calling?
    && (reply != SteerRefused ==> HostRunning(q, q.steers[r].task))
  }

  /** The host answers a steer. It accepts steers only for running tasks. */
  function ReplyToSteer(q: Queue, r: nat, reply: SteerReply): Queue
    requires CanReplyToSteer(q, r, reply)
  {
    match reply
    case SteerRefused => q.(steers := q.steers - {r})
    case SteerAcceptedReplyLost => q.(steers := q.steers - {r}, deliveries := q.deliveries + [r])
    case SteerAccepted =>
      q.(steers := q.steers[r := Accepted(q.steers[r].task)], deliveries := q.deliveries + [r])
  }

  /** After an accepted steer the run is done, unless somebody else took it first. */
  function FinishSteer(q: Queue, r: nat): Queue
    requires r in q.steers && q.steers[r].Accepted? && r < |q.runs|
  {
    var closed := q.(steers := q.steers - {r});
    if q.runs[r].phase.Pending? then SetPhase(closed, r, Done(Steered)) else closed
  }

  // ---------------------------------------------------------------------------
  // The run worker: reap, fire, dispatch

  predicate CanObserve(q: Queue, r: nat, answer: Answer) {
    && q.worker.Idle? && r < |q.runs| && q.runs[r].phase.Active? && q.runs[r].task.Some?
    && var task := q.runs[r].task.value;
       match answer
       case Is(s) => task in q.host.tasks && q.host.tasks[task] == s
       case Missing => task !in q.host.tasks
       case TooLarge => task in q.host.tasks && Terminal(q.host.tasks[task])
  }

  function Observe(q: Queue, r: nat, answer: Answer): Queue
    requires CanObserve(q, r, answer)
  {
    q.(worker := Observed(r, answer))
  }

  /** The transaction that applies what the host said about the active run. */
  function Reap(q: Queue): Queue
    requires q.worker.Observed? && q.worker.run < |q.runs|
  {
    var phase := match q.worker.answer
      case Missing => Done(Lost)
      case TooLarge => Done(Oversized)
      case Is(s) => if Terminal(s) then Done(Finished(s)) else Active(s);
    SetPhase(q, q.worker.run, phase).(worker := Idle)
  }

  predicate IsDue(s: Schedule, stamp: int) {
    s.enabled && s.next.Some? && s.next.value <= stamp
  }

  /** The order in which the due schedules come back: by due time, ties in any order. */
  predicate IsDueOrder(q: Queue, stamp: int, due: seq<Name>) {
    && (forall n :: n in q.schedules && IsDue(q.schedules[n], stamp) ==> n in due)
    && (forall i :: 0 <= i < |due| ==> due[i] in q.schedules && IsDue(q.schedules[due[i]], stamp))
    && (forall i, j :: 0 <= i < j < |due| ==>
          due[i] != due[j] && q.schedules[due[i]].next.value <= q.schedules[due[j]].next.value)
  }

  /** One due schedule: it fires, is skipped to its next time, or (a one-shot) stays due. */
  function FireOne(q: Queue, n: Name, now: Clock): Queue
    requires n in q.schedules && q.schedules[n].next.Some?
  {
    var s := q.schedules[n];
    var overlapping := AnyUnfinishedOf(q.runs, n);
    if overlapping && s.everyMinutes.None? then q
    else
      var next := if s.everyMinutes.Some? then Some(StoredNextRun(s.next.value, s.everyMinutes.value, now)) else None;
      if overlapping then q.(schedules := q.schedules[n := s.(next := next)])
      else q.(
        runs := q.runs + [Run(Scheduled(n), Pending, None, None)],
        schedules := q.schedules[n :=
          s.(next := next, enabled := s.everyMinutes.Some?, lastRun := Some(|q.runs|))])
  }

  /** All of these rows have a next time, and no row is named twice. */
  predicate CanFire(q: Queue, due: seq<Name>) {
    && (forall i :: 0 <= i < |due| ==> due[i] in q.schedules && q.schedules[due[i]].next.Some?)
    && (forall i, j :: 0 <= i < j < |due| ==> due[i] != due[j])
  }

  function FireAll(q: Queue, due: seq<Name>, now: Clock): (r: Queue)
    requires forall i :: 0 <= i < |due| ==> due[i] in q.schedules && q.schedules[due[i]].next.Some?
    requires forall i, j :: 0 <= i < j < |due| ==> due[i] != due[j]
    decreases |due|
  {
    if due == [] then q else FireAll(FireOne(q, due[0], now), due[1..], now)
  }

  function FireDueSchedules(q: Queue, due: seq<Name>, now: Clock, stamp: int): Queue
    requires IsDueOrder(q, stamp, due)
  {
    if IsActive(q) then FireAll(q, due, now) else q
  }

  /** Picks the oldest pending run while nothing is active. */
  function SelectRun(q: Queue): Queue
    requires q.worker.Idle?
  {
    if AnyActive(q.runs) || OldestPending(q.runs) == |q.runs| then q
    else q.(worker := Selected(OldestPending(q.runs)))
  }

  /** Composes the task request of the selected run from the workspace as it is now. */
  function ComposeRun(q: Queue): Queue
    requires q.worker.Selected? && q.worker.run < |q.runs|
  {
    var r := q.worker.run;
    if !IsActive(q) then
      q.(worker := Idle)
    else if q.runs[r].kind.Scheduled? && q.runs[r].kind.schedule !in q.schedules then
      SetPhase(q, r, Done(Orphaned)).(worker := Idle)
    else
      var thread := if q.runs[r].thread.Some? then q.runs[r].thread.value else ThreadSeq(q);
      q.(worker := Composed(r, thread, CurrentSettings(q).value, !AnyOnThread(q.runs, thread)))
  }

  datatype PostReply = PostAccepted | PostAcceptedReplyLost | PostRefused

  /** The host call that creates the task. The host numbers accepted tasks. */
  function PostRun(q: Queue, reply: PostReply): Queue
    requires q.worker.Composed? && q.worker.run < |q.runs|
  {
    var w := q.worker;
    if reply.PostRefused? then
      q.(worker := Idle)
    else
      var task := q.host.nextTask;
      q.(worker := if reply.PostAccepted? then Posted(w.run, w.thread, task) else Idle,
         host := Host(task + 1, q.host.tasks[task := Queued]),
         requests := q.requests + [Request(w.thread, if w.newThread then Some(w.settings) else None)],
         deliveries := if q.runs[w.run].kind.Chat? then q.deliveries + [w.run] else q.deliveries)
  }

  /** The run becomes active, unless it was taken while the request was in flight. */
  function ClaimRun(q: Queue): Queue
    requires q.worker.Posted? && q.worker.run < |q.runs|
  {
    var w := q.worker;
    if q.runs[w.run].phase.Pending? then
      q.(runs := q.runs[w.run := Run(q.runs[w.run].kind, Active(Queued), Some(w.task), Some(w.thread))],
         starts := q.starts + [w.run],
         worker := Idle)
    else
      q.(worker := Idle)
  }

  // ---------------------------------------------------------------------------
  // Schedule rows

  datatype Cadence = Every(minutes: Minutes) | At(at: int)

  datatype ScheduleOp =
    | Create(name: Name, title: string, prompt: string, cadence: Cadence)
    | Update(name: Name, newTitle: Option<string>, newPrompt: Option<string>,
             newCadence: Option<Cadence>, newEnabled: Option<bool>)
    | Delete(name: Name)
    | SetEnabled(name: Name, on: bool)

  /** A past one-shot time means as soon as possible. */
  function InitialNextRun(c: Cadence, now: Clock): int {
    match c
    case Every(m) => FormatUtc(now + ParseUtc(Period(m)))
    case At(at) => FormatUtc(if ParseUtc(at) < now then now else ParseUtc(at))
  }

  /** The agent's and the operator's edits of schedule rows. */
  function EditSchedule(q: Queue, op: ScheduleOp, now: Clock): Result<Queue, Refusal> {
    match EditedSchedules(q.schedules, IsActive(q), op, now)
    case Ok(schedules) => Ok(q.(schedules := schedules))
    case Error(refusal) => Error(refusal)
  }

  function EditedSchedules(schedules: map<Name, Schedule>, active: bool, op: ScheduleOp, now: Clock)
    : Result<map<Name, Schedule>, Refusal>
  {
    match op
    case Create(n, title, prompt, cadence) =>
      if n in schedules then Error(AlreadyExists)
      else if |schedules| >= MAX_SCHEDULES then Error(ScheduleLimit)
      else
        var next := InitialNextRun(cadence, now);
        var every := if cadence.Every? then Some(cadence.minutes) else None;
        Ok(schedules[n := Schedule(title, prompt, every, Some(next), true, None, next)])
    case Update(n, title, prompt, cadence, enabled) =>
      if n !in schedules then Error(NotFound)
      else
        var s := UpdatedSchedule(schedules[n], title, prompt, cadence, enabled, now);
        if s.enabled && s.everyMinutes.None? && s.next.None? then Error(FinishedOneShot)
        else Ok(schedules[n := s])
    case Delete(n) =>
      if n !in schedules then Error(NotFound) else Ok(schedules - {n})
    case SetEnabled(n, on) =>
      if n !in schedules then Error(NotFound)
      else if on && schedules[n].everyMinutes.None? && schedules[n].next.None? then Error(FinishedOneShot)
      else if on && !active then Error(Inactive)
      else Ok(schedules[n := SwitchedSchedule(schedules[n], on, now)])
  }

  /** Resuming a paused recurring schedule restarts its cadence. */
  function SwitchedSchedule(s: Schedule, on: bool, now: Clock): Schedule {
    if on == s.enabled then s
    else if on && s.everyMinutes.Some? then
      var next := InitialNextRun(Every(s.everyMinutes.value), now);
      s.(enabled := true, next := Some(next), anchor := next)
    else s.(enabled := on)
  }

  function UpdatedSchedule(s: Schedule, title: Option<string>, prompt: Option<string>,
                           cadence: Option<Cadence>, enabled: Option<bool>, now: Clock): Schedule {
    var named := s.(title := if title.Some? then title.value else s.title,
                    prompt := if prompt.Some? then prompt.value else s.prompt,
                    enabled := if enabled.Some? then enabled.value else s.enabled);
    if cadence.None? then named
    else
      var next := InitialNextRun(cadence.value, now);
      var timed := named.(everyMinutes := if cadence.value.Every? then Some(cadence.value.minutes) else None,
                          next := Some(next), anchor := next);
      // A new one-shot time schedules it again, unless it is explicitly staged disabled.
      if cadence.value.At? && enabled.None? then timed.(enabled := true) else timed
  }

  // ---------------------------------------------------------------------------
  // Steps and runs

  datatype Event =
    | ESend(supplied: Option<Settings>)
    | EInteract
    | EActivate(settings: Settings)
    | EDeactivate
    | ESettings(newSettings: Settings)
    | EDiscard(run: nat)
    | EReplySteer(steered: nat, steerReply: SteerReply)
    | EFinishSteer(steered: nat)
    | EEdit(op: ScheduleOp, now: Clock)
    | EObserve(observed: nat, answer: Answer)
    | EReap
    | EFire(due: seq<Name>, at: Clock, stamp: int)
    | ESelect
    | ECompose
    | EPost(postReply: PostReply)
    | EClaim
    | EHostMove(task: nat, to: Status)
    | EHostForget(gone: nat)
    | ERestart

  /** Which steps can happen. Refusals are steps too; they change nothing. */
  predicate Enabled(q: Queue, e: Event) {
    match e
    case EReplySteer(r, reply) => CanReplyToSteer(q, r, reply)
    case EFinishSteer(r) => r in q.steers && q.steers[r].Accepted? && r < |q.runs|
    case EObserve(r, answer) => CanObserve(q, r, answer)
    case EReap => q.worker.Observed? && q.worker.run < |q.runs|
    case EFire(due, _, stamp) => q.worker.Idle? && IsDueOrder(q, stamp, due)
    case ESelect => q.worker.Idle?
    case ECompose => q.worker.Selected? && q.worker.run < |q.runs|
    case EPost(_) => q.worker.Composed? && q.worker.run < |q.runs|
    case EClaim => q.worker.Posted? && q.worker.run < |q.runs|
    case EHostMove(t, to) => t in q.host.tasks && to in Transitions(q.host.tasks[t])
    case EHostForget(t) => t in q.host.tasks && Terminal(q.host.tasks[t])
    case _ => true
  }

  function OrUnchanged(r: Result<Queue, Refusal>, q: Queue): Queue {
    if r.Ok? then r.value else q
  }

  function Step(q: Queue, e: Event): Queue
    requires Enabled(q, e)
  {
    match e
    case ESend(supplied) => OrUnchanged(SendMessage(q, supplied), q)
    case EInteract => OrUnchanged(SubmitInteraction(q), q)
    case EActivate(s) => OrUnchanged(Activate(q, s), q)
    case EDeactivate => Deactivate(q)
    case ESettings(s) => OrUnchanged(UpdateAgentSettings(q, s), q)
    case EDiscard(r) => OrUnchanged(DiscardPendingRun(q, r), q)
    case EReplySteer(r, reply) => ReplyToSteer(q, r, reply)
    case EFinishSteer(r) => FinishSteer(q, r)
    case EEdit(op, now) => OrUnchanged(EditSchedule(q, op, now), q)
    case EObserve(r, answer) => Observe(q, r, answer)
    case EReap => Reap(q)
    case EFire(due, now, stamp) => FireDueSchedules(q, due, now, stamp)
    case ESelect => SelectRun(q)
    case ECompose => ComposeRun(q)
    case EPost(reply) => PostRun(q, reply)
    case EClaim => ClaimRun(q)
    case EHostMove(t, to) => q.(host := q.host.(tasks := q.host.tasks[t := to]))
    case EHostForget(t) => q.(host := q.host.(tasks := q.host.tasks - {t}))
    // A restart loses every call in flight and keeps the tables.
    case ERestart => q.(worker := Idle, steers := map[])
  }
}
