# Verification of the host's state machines, decoders and checks

This project models the parts of TrustyClaw in which many steps interleave or
arithmetic decides, and proves what the code and its documentation promise of
them. One database transaction, one critical section or one host call is one
atomic step; everything else may happen between steps.

The modules, by component:

- Workspace run engine (`ScheduleTiming`, `RunQueue`, `RunQueueInvariant`,
  `RunQueueHistory`, `RunQueueEffects`, `RunQueueOutcomes`, `RunQueueProgress`,
  `SendOrder`, `RunEngine`): the durable queue of runs with send, steer,
  discard, deactivate, settings, schedules, two-phase dispatch and reap. What
  agents write (`AgentTables`, `AgentActions`, `AgentActionsSafety`,
  `AgentJournal`, `AgentReadBack`, `AgentDesk`), clipped texts (`EncodedText`), the
  digest and the composed task input (`Digest`, `DigestText`, `TaskInput`,
  `TaskInputReach`).
- Task orchestrator (`TaskStatus`, `TaskPool`, `TaskPoolInvariant`,
  `TaskPoolSafety`, `TaskPoolHistory`, `TaskPoolLost`, `TaskPoolDrain`,
  `TaskPoolConverse`, `TaskPoolStops`, `TaskPoolWitness`, `TaskWorkers`):
  workers, live processes, kills and stops. Provider account trust
  (`AccountTrust`, `AccountLinking`): probes, logins, resets and pins.
- Bedrock response meter (`ChunkSizes`, `ChunkedBody`, `EventStream`,
  `ResponseMeter`, `ResponseHeads`): decoders with the encoders they undo.
- JSON document store (`JsonPaths`, `DocumentStore`), domain ownership
  (`DomainRules`), checksums and scans (`Checksums`), the app-server's message
  stream and steering (`CodexStream`, `Steering`). `Prelude` holds Option and
  Result.

Each state machine is a datatype with a step function; a class updates the same
state in place, and each of its methods is proved to make exactly that step.
Properties of whole runs are lemmas over any sequence of enabled steps. A
predicate over a few fields stands for one part of an invariant, with one lemma
for each kind of step. Where a parser or a renderer would burden a proof, it is
a function-valued parameter that the main theorem fills in.

Results in which the code does less than its documentation says:

- A message that is discarded while its steer is in flight to a running turn can
  still be delivered, after newer messages. Nothing else breaks the send order: a
  deactivation at the same moment does not.
- The claim of at most one live process for each thread
  (`host/runtime/admin_api/orchestrator.py:49-54`) fails if an operator kills or
  stops a task between its claim and its registration. On Codex and Claude it also
  fails if he closes a turn that is going to spawn its process all the same: a
  Codex turn until it has spawned, a Claude turn whose task still runs or that is
  past the check of its task. At any such moment there is a continuation in which
  two processes of the thread are up, and on Codex and Claude one of them is in
  nobody's hands. A Hermes turn that was closed does not spawn any more.
- A bounded action error may exceed its 2,000 bytes by up to three, because three
  bytes are reserved for an ellipsis that takes six
  (`host/apps/workspace_kit/engine.py:632-634`).
- Changing one letter of an IBAN's country can go unnoticed when the other country
  expects another length (`host/param_guard.py:520-533`).
- A chunk size may be read as a negative number, and then the chunk loop may
  never end.

`dafny verify dfyconfig.toml` checks the whole project.

## Model

| member | source | states |
|---|---|---|
| RunQueueHistory.DispatchIsSerialized | host/apps/workspace_kit/engine.py:1900-1929 | In every reachable state at most one run is active, the runs that became active have strictly increasing ids, at most 20 chat runs are unfinished, and each schedule has at most one unfinished run. |
| RunQueueInvariant.StepKeepsInv | host/apps/workspace_kit/engine.py:1750-2043 | Every transaction and host call, in any interleaving, keeps the whole queue invariant: rows, starts, worker, threads, requests, deliveries and schedules. |
| RunQueueHistory.ReachableInv | host/apps/workspace_kit/engine.py:1900-2043 | The invariant holds in every state of every run from the empty database. |
| RunQueueHistory.DoneIsFinal | host/apps/workspace_kit/engine.py:2026-2043 | A done row never changes again, except that a scheduled one which never got a task may be closed a second time, as orphaned; a run discarded or deactivated in mid-dispatch is never resurrected. |
| RunQueueHistory.EvolvesAlong | host/apps/workspace_kit/engine.py:688-732 | Between any two moments thread_seq never decreases, rows keep kind, task and thread, and the delivery, start and request histories only grow. |
| RunQueueHistory.ThreadSettingsAreStable | host/apps/workspace_kit/engine.py:1943-2021 | All task requests that carry settings for one workspace thread carry the same runtime, model and effort. |
| RunQueueHistory.WaysOutOfTheQueue | host/apps/workspace_kit/engine.py:911-938 | A chat run leaves pending only by the claim of a dispatch, by a steer that the host accepted, by a discard or by a deactivation; in the first two cases the host has its message. |
| RunQueueHistory.NoMessageIsLost | host/apps/workspace_kit/engine.py:873-938 | Every message waits, was delivered or was withdrawn; whatever is older than a delivered message was delivered or withdrawn. |
| SendOrder.CarefulRunsDeliverInOrder | host/apps/workspace_kit/engine.py:873-938 | First deliveries are in send order in every run in which no message is discarded while its steer is in flight to a turn that the host still runs. |
| SendOrder.SendOrderGuard | host/apps/workspace_kit/engine.py:1117-1137 | At any moment of such a run, a step leaves every such continuation in send order if and only if it is no such discard; a deactivation always does. |
| SendOrder.DiscardInFlightOvertaken | host/apps/workspace_kit/engine.py:911-938 | From every reachable state such a discard has a continuation, without another one, in which the discarded message is delivered after a newer one. |
| SendOrder.StepKeepsHostInv | host/apps/workspace_kit/engine.py:1757-1833 | What the engine has seen of the host is never ahead of it: while the host runs the task of a steer, the engine has its turn active. |
| RunQueueHistory.WithdrawnMessageOvertaken | host/apps/workspace_kit/engine.py:1117-1137 | A concrete run of 13 steps in which a discarded message is delivered after a newer one. |
| RunQueueHistory.FireIsDriftFree | host/apps/workspace_kit/engine.py:1836-1897 | One firing or skip of a recurring schedule keeps anchor and period; the next time is on the grid, later than the clock and the old due time, and at most one period past the later of them. A one-shot ends, or stays due while its run is unfinished. |
| RunQueueHistory.RecurringStaysOnGrid | host/apps/workspace_kit/engine.py:1836-1897 | Without an edit, any number of fires, skips and missed periods keeps a recurring next time congruent modulo its period, and an enabled schedule has a next time. |
| RunQueueEffects.DueSchedulesFire | host/apps/workspace_kit/engine.py:1836-1897 | Each due schedule without an unfinished run gets exactly one new pending run, in the order in which they are due, and names it as its last one; there is no other new row and old rows stay. Due recurring ones move on to a later time of their grid whether they fired or were skipped, one-shots end or stay due, others keep their rows, and an inactive workspace fires nothing. |
| RunQueueEffects.MessageIsTaken | host/apps/workspace_kit/engine.py:746-908 | A message is taken exactly while fewer than twenty are unfinished and, in an inactive workspace, if it brings valid settings and nothing is active any more. It becomes the last row, pending, and is steered exactly if the active turn was seen running and no message waits; a refused one changes nothing. |
| RunQueueEffects.UnfinishedAreCounted | host/apps/workspace_kit/engine.py:881-887 | The count that is compared with the limit is the number of chat rows that are not done. |
| RunQueueEffects.InteractionIsTaken | host/apps/workspace_kit/engine.py:791-857 | A control interaction is a message of an active workspace and is refused in an inactive one. |
| RunQueueEffects.ActivationIsTaken | host/apps/workspace_kit/engine.py:662-685 | An activation is taken exactly with valid settings, while the workspace is inactive and nothing is active any more; it keeps the thread. |
| RunQueueEffects.DeactivationPauses | host/apps/workspace_kit/engine.py:688-732 | A deactivation switches every schedule off and keeps the rest of its row, ends every pending run and no other, and rotates the thread of an active workspace. |
| RunQueueEffects.InactiveIsQuiet | host/apps/workspace_kit/engine.py:1836-1850 | Until it is activated again, an inactive workspace queues nothing, fires nothing and starts nothing, in any run. |
| RunQueueEffects.SettingsAreStored | host/apps/workspace_kit/engine.py:941-1008 | New settings are stored exactly if they are valid, the workspace is active and every run is done; they rotate the thread, and the same settings change nothing. |
| RunQueueEffects.DiscardIsTaken | host/apps/workspace_kit/engine.py:1117-1137 | A discard closes exactly the pending run it names. |
| RunQueueEffects.OperatorEditsASchedule | host/apps/workspace_kit/engine.py:1011-1057 | The operator's switch or removal of a schedule is accepted exactly under its row and reads back; a resumed recurring one starts its cadence again, and a resumption needs an active workspace. |
| RunQueueEffects.SteeredMessageIsClosed | host/apps/workspace_kit/engine.py:911-938 | A steered message that the host accepts is delivered, and its run is closed without a turn of its own. |
| RunQueueEffects.UnansweredSteerIsLeft | host/apps/workspace_kit/engine.py:911-930 | A steer that is refused, or whose answer is lost, leaves its run in the queue; only the latter was delivered. |
| RunQueueEffects.OldestIsSelected | host/apps/workspace_kit/engine.py:1900-1915 | A run is taken up for dispatch exactly if it is the oldest pending one and nothing is active. |
| RunQueueEffects.RequestIsComposed | host/apps/workspace_kit/engine.py:1943-2012 | The request is for the present thread and the present settings, and carries them exactly if no run was on that thread; a run without its schedule is closed as orphaned, and in an inactive workspace it waits. |
| RunQueueEffects.RequestIsPosted | host/apps/workspace_kit/engine.py:2012-2025 | An accepted request is a new queued task of the host and delivers the run's message; a refused one leaves everything. |
| RunQueueEffects.RunIsClaimed | host/apps/workspace_kit/engine.py:2026-2043 | The run becomes active with its task and thread exactly if it still waits. |
| RunQueueOutcomes.ActiveRunIsReaped | host/apps/workspace_kit/engine.py:1757-1833 | The active run gets the host's status, or is closed with that terminal status, as lost, or as oversized, according to the host's answer; no other row changes. |
| RunQueueOutcomes.OutcomesAreTheHosts | host/apps/workspace_kit/engine.py:1757-1833 | In every run a finished row has the terminal status that the host has for its task, a lost one is unknown to the host, an oversized one is terminal there, and rows that were steered, withdrawn or orphaned never had a task. |
| RunQueueOutcomes.EveryThreadIsConfigured | host/apps/workspace_kit/engine.py:1958-2021 | In every run each task request carries settings, or an earlier request of its thread did; and so did one of every active run's thread. |
| RunQueueProgress.NothingIsStuck | host/apps/workspace_kit/engine.py:1750-2043 | From every reachable state of an active workspace the run worker and the host, without an operator and without a restart, can bring any pending run to its turn, with its message delivered, or close it because its schedule was deleted. |
| ScheduleTiming.NextRunWindow | host/apps/workspace_kit/engine.py:1737-1743 | The next fire time is later than the clock and the due time, by at most one period past the later of them. |
| ScheduleTiming.StoredNextRunIsDriftFree | host/apps/workspace_kit/engine.py:1705-1743 | Through the stored whole-second stamps the next time stays on the grid of the anchor and strictly after now. |
| RunEngine.Engine.ActivateWorkspace | host/apps/workspace_kit/engine.py:662-685 | The in-place update equals the specified transaction: activation, with its refusals. |
| RunEngine.Engine.QueueInput | host/apps/workspace_kit/engine.py:873-908 | The in-place update equals the specified transaction: one human message with the full-queue refusal and the steer target. |
| RunEngine.Engine.CountUnfinishedChats | host/apps/workspace_kit/engine.py:881-887 | The in-place update equals the specified transaction: the count of unfinished chat turns. |
| RunEngine.Engine.SendMessage | host/apps/workspace_kit/engine.py:746-788 | The in-place update equals the specified transaction: a message, activating the workspace when it is the first. |
| RunEngine.Engine.DeactivateWorkspace | host/apps/workspace_kit/engine.py:688-743 | The in-place update equals the specified transaction: deactivation: schedules paused, queued runs ended, thread rotated, active runs kept; the tasks still to stop are exactly those of the active runs. |
| RunEngine.Engine.UpdateSettings | host/apps/workspace_kit/engine.py:941-1008 | The in-place update equals the specified transaction: a settings change, refused while turns are unfinished, rotating the thread. |
| RunEngine.Engine.DiscardRun | host/apps/workspace_kit/engine.py:1117-1137 | The in-place update equals the specified transaction: a discard of a pending run only. |
| RunEngine.Engine.FinishSteer | host/apps/workspace_kit/engine.py:930-938 | The in-place update equals the specified transaction: closing a steered run unless somebody else took it. |
| RunEngine.Engine.ReapRun | host/apps/workspace_kit/engine.py:1757-1833 | The in-place update equals the specified transaction: what the host said about the active run. |
| RunEngine.Engine.FireDue | host/apps/workspace_kit/engine.py:1836-1897 | The in-place update equals the specified transaction: all due schedules in their order, with the effect on the rows that `RunQueueEffects.DueSchedulesFire` states. |
| RunEngine.Engine.SelectPending | host/apps/workspace_kit/engine.py:1900-1915 | The in-place update equals the specified transaction: the oldest pending run while nothing is active. |
| RunEngine.Engine.ComposeRequest | host/apps/workspace_kit/engine.py:1940-2021 | The in-place update equals the specified transaction: the task request of the selected run, or its end as orphaned. |
| RunEngine.Engine.Claim | host/apps/workspace_kit/engine.py:2026-2043 | The in-place update equals the specified transaction: the guarded move to active. |
| AgentActionsSafety.TurnBudgetHolds | host/apps/workspace_kit/engine.py:360-420 | From any moment at which no run carries the task yet, at most 16 actions of it are applied or journaled, and while its run is active one exhaustion row, for each life of the process since then, under any interleaving of calls and failed sentinel writes. |
| AgentActionsSafety.TurnBudgetInOneLife | host/apps/workspace_kit/engine.py:360-420 | Without a restart since then that is 16 actions and one exhaustion row. |
| AgentActionsSafety.CapsHold | host/apps/workspace_kit/engine.py:1364-1550 | The caps on artifacts, memories, tools, schedules and on all texts hold in every reachable state, whatever agents write and operators edit. |
| AgentJournal.TablesAreReplayed | host/apps/workspace_kit/engine.py:326-420 | In every run the queue and all tables are the replay of the steps of the queue, the operator's edits and the actions journaled as applied, each once at its place and accepted there; actions journaled as rejected are refused where they stand, and calls without authority and failed transactions contribute nothing. |
| AgentJournal.OneRowForEachWrite | host/apps/workspace_kit/engine.py:392-420 | The rows journaled for a task, applied or rejected, are exactly as many as its writes that found their authority and committed. |
| AgentActionsSafety.RotationRevokes | host/apps/workspace_kit/engine.py:688-732 | Deactivation and a settings change leave every task on the old thread without authority. |
| AgentActionsSafety.RevokedNeverActsAgain | host/apps/workspace_kit/engine.py:305-340 | From then on, in every continuation including reactivation, no action of such a task is applied or journaled. |
| AgentActionsSafety.RevokedChangesNoTable | host/apps/workspace_kit/engine.py:326-340 | A write of such a task leaves every table and the feed as they were. |
| AgentActionsSafety.EngineStepKeepsInv | host/apps/workspace_kit/engine.py:360-420 | Every step of queue, agents and host keeps the combined invariant of budgets, journals, authority and caps. |
| AgentTables.ActionStaysWithinCaps | host/apps/workspace_kit/engine.py:1171-1330 | A well-shaped action that is applied keeps every count and every text within its cap. |
| AgentTables.StripIsExact | host/apps/workspace_kit/engine.py:1367 | A stored text is the sent one without its surrounding white space, and nothing else is removed. |
| AgentReadBack.ShapeIsExact | host/apps/workspace_kit/engine.py:1171-1332 | An action passes the shape check exactly if its names and texts are within their bounds and an update changes something. |
| AgentReadBack.ActionReadsBack | host/apps/workspace_kit/engine.py:1364-1550 | A well-shaped action is accepted exactly under its rows and counts; then its row reads back every field that it wrote, a deletion leaves no row, an update changes exactly the fields given, and all other rows and tables are as before. |
| AgentReadBack.RefusalTellsWhy | host/apps/workspace_kit/engine.py:1364-1550 | A refused action names its cause: the table is full, the row is there already, or it is missing. |
| AgentReadBack.ScheduleIsEdited | host/apps/workspace_kit/engine.py:1480-1545 | The same for schedules: title, prompt, cadence, first time and switch read back, an update without a cadence keeps the next time, and a one-shot that has run is switched on only with a new time. |
| AgentReadBack.EditIsWritten | host/apps/workspace_kit/engine.py:1060-1114 | An operator's edit or removal is accepted exactly if the row is there and the new content has 1 to 300 characters after stripping; it reads back and leaves the rest. |
| AgentReadBack.LastWordCounts | host/apps/workspace_kit/engine.py:1364-1550 | In every run the goal, the measurement and every memory, tool and artifact read as the last entry of the feed that touched them says, and what nothing has touched is not there. |
| AgentReadBack.CallIsAnswered | host/apps/workspace_kit/engine.py:305-420 | A call of the active turn on the present thread, with less than sixteen units spent, leaves one row: applied exactly if its action is well-shaped and accepted, and then it reads back; otherwise rejected, with all tables as before. |
| AgentReadBack.ExhaustingCallIsRecorded | host/apps/workspace_kit/engine.py:365-391 | The call after the sixteenth leaves one exhaustion row and writes nothing. |
| AgentReadBack.ExhaustedCallIsRefused | host/apps/workspace_kit/engine.py:365-391 | After that row further calls are refused without a trace. |
| AgentReadBack.FailedSentinelIsTakenBack | host/apps/workspace_kit/engine.py:376-390 | A sentinel write that fails gives its mark back, so that the next refused call writes the row. |
| AgentJournal.UnnamedRowsStay | host/apps/workspace_kit/engine.py:1364-1550 | Between two moments of a run, a memory, a tool or an artifact changes only if a row of the feed between them names it. |
| AgentDesk.Desk.TakeUnit | host/apps/workspace_kit/engine.py:362-391 | The section under the budget lock: the new count and the verdict are those of the specified budget. |
| AgentDesk.Desk.TakeBackMark | host/apps/workspace_kit/engine.py:405-420 | After a failed sentinel write the mark is taken back exactly as specified. |
| AgentDesk.Desk.ApplyOrReject | host/apps/workspace_kit/engine.py:392-420 | The action is applied with one applied row, or everything is left as it was with one rejection row. |
| AgentDesk.Desk.ApplyInPlace | host/apps/workspace_kit/engine.py:1364-1550 | The in-place write equals the specified write, or refuses exactly when it does; `AgentReadBack.ActionReadsBack` states what that write leaves. |
| AgentDesk.Desk.EditRow | host/apps/workspace_kit/engine.py:1060-1114 | An operator's edit or removal of a memory, tool or artifact is the specified one with its row, or changes nothing. |
| EncodedText.ClipEncodedText | host/apps/workspace_kit/engine.py:572-591 | The binary search returns the longest prefix whose JSON-escaped size fits the budget; the flag says whether anything was cut. |
| EncodedText.EncodedSizeIsExact | host/apps/workspace_kit/engine.py:576-577 | The size that is measured is the length of the JSON string literal itself, escape by escape. |
| EncodedText.SnapshotText | host/apps/workspace_kit/engine.py:594-600 | The text or a prefix with an ellipsis of six bytes, never over a budget of at least six. |
| EncodedText.LongestFitIsUnique | host/apps/workspace_kit/engine.py:572-591 | Only one prefix is the longest that fits. |
| EncodedText.BoundedActionError | host/apps/workspace_kit/engine.py:632-634 | The reason or its longest fitting prefix with an ellipsis; it exceeds 2,000 bytes exactly if the reason takes more than 1,997 and has a prefix of 1,995 to 1,997. |
| EncodedText.BoundedErrorOverrun | host/apps/workspace_kit/engine.py:632-634 | The longest fitting prefix and the ellipsis together take more than 2,000 bytes exactly for those reasons. |
| EncodedText.BoundedErrorOverrunExample | host/apps/workspace_kit/engine.py:632-634 | A plain reason that is reported in 2,003 bytes against a bound of 2,000. |
| Digest.TrimToBudget | host/apps/workspace_kit/engine.py:1631-1640 | The text fits the budget or every section is at its floor; sections are prefixes of the full ones, trimmed in the fixed order, and the last dropped line was needed. |
| Digest.TrimSection | host/apps/workspace_kit/engine.py:1633-1637 | The inner loop: one section is cut from its tail until the text fits or the floor is reached. |
| Digest.BuildDigest | host/apps/workspace_kit/engine.py:1568-1640 | The digest is the rendering of such a view; without a budget nothing is dropped. |
| Digest.GoalAndMeasurementSurvive | host/apps/workspace_kit/engine.py:1620-1624 | However much is trimmed, the text starts with the whole goal and the whole measurement. |
| Digest.ShownAndHiddenAreAll | host/apps/workspace_kit/engine.py:1602-1618 | For each section the lines shown are those of the first rows, and shown plus hidden is the number of rows. |
| DigestText.DigestReads | host/apps/workspace_kit/engine.py:1568-1640 | The digest to the letter: three lines about the workspace, then schedules, tools, artifacts and memories, each with its heading, its first rows in their order with all their fields, and the number of rows not shown. |
| DigestText.DroppedInThisOrder | host/apps/workspace_kit/engine.py:1631-1640 | Lines are dropped from artifacts first, then tools, memories and schedules, each only once those before it are down to six lines, and six lines of each stay. |
| DigestText.ShownWithoutABudget | host/apps/workspace_kit/engine.py:1601-1612 | Without a budget all tools and memories are shown, twenty schedules and sixty artifacts. |
| DigestText.CadenceSays | host/apps/workspace_kit/engine.py:1716-1725 | A period is named in days, hours or minutes, by the largest of them that divides it. |
| DigestText.DecimalReadsBack | host/apps/workspace_kit/engine.py:1613-1618 | Numbers are written in decimal digits that denote them, without leading zeros. |
| DigestText.JoinReadsBack | host/apps/workspace_kit/engine.py:1620-1629 | Joined lines read back as the same lines. |
| TaskInput.RenderDigestSections | host/apps/workspace_kit/engine.py:1643-1653 | Domain sections show the longest prefix of their lines that fits the budget. |
| TaskInput.ComposeTaskInput | host/apps/workspace_kit/engine.py:1958-2008 | An accepted input never exceeds 50,000 characters and reads, to the letter, as the brief while there is no goal, the recent conversation, the trimmed digest, domain extras within half the budget, and the payload under its heading; rows within their caps, a brief of at most 5,000, a payload of at most 20,000 and a recent context within its bound are always accepted. |
| TaskInput.ComposedReadsAs | host/apps/workspace_kit/engine.py:1656-1674 | A composed text to the letter: the brief exactly while the goal is blank, the recent conversation under its heading if there is one, the digest with its extras, and the payload under the heading of a message or of a scheduled run. |
| TaskInput.FloorBound | host/apps/workspace_kit/engine.py:1568-1640 | With every section at its floor a capped workspace renders in at most 9,000 characters. |
| TaskInput.RecentContext | host/apps/workspace_kit/engine.py:1677-1698 | At most two bounded messages: the text has at most 3,816 characters. |
| TaskInput.RecentContextIsTheLastTwo | host/apps/workspace_kit/engine.py:1677-1698 | It consists of the last two messages of people and agents before the given one, oldest first, each with its speaker and cut at 1,900 characters, |
| TaskInput.RecentContextIsTheOnlyOne | host/apps/workspace_kit/engine.py:1677-1698 | or of the only one, |
| TaskInput.NoRecentContext | host/apps/workspace_kit/engine.py:1677-1698 | or is empty if there is none. |
| TaskInputReach.ReachableRowsObeyCaps | host/apps/workspace_kit/engine.py:2074-2111 | In every reachable state of the engine the rows that the digest reads obey the caps which the composition needs. |
| TaskInputReach.ReachablePayloadFits | host/apps/workspace_kit/engine.py:1968-1982 | In every reachable state the payload of every run fits the bound on payloads, for scheduled runs by the caps and for chat runs because each has the message of an input that was accepted when it was queued. |
| TaskInputReach.ReachableMessages | host/apps/workspace_kit/engine.py:746-908 | In every run each chat run has its message, and every stored message is the content of an accepted input. |
| TaskInputReach.EachRunHasItsOwnMessage | host/apps/workspace_kit/engine.py:873-908 | In every run the message of each chat run is the content of the very input that queued it. |
| TaskInputReach.TypedContentIsExact | host/apps/workspace_kit/engine.py:753-758 | A typed message is accepted exactly if 1 to 20,000 characters of it are left after stripping, and is stored like that. |
| TaskStatus.Task.SetStatus | host/runtime/admin_api/task_status.py:30-38 | A legal transition is taken and stamped, an illegal one is refused and changes nothing; a terminal status is never left. |
| TaskStatus.LegalTraceIsShort | host/runtime/admin_api/task_status.py:22-28 | Along any legal trace terminal statuses are last and no task moves more than twice. |
| TaskPoolInvariant.StepKeepsInv | host/runtime/admin_api/orchestrator.py:1117-1251 | Every step of workers and operators, early kills included, keeps running tasks on distinct threads within their slots, one owner each, processes and entries consistent, one closer for each process, and claims in queue order. |
| TaskPoolHistory.OneProcessPerThread | host/runtime/admin_api/orchestrator.py:49-54 | On all three runtimes, while no operator ends a turn between its claim and its registration or closes one that is going to spawn all the same, two processes of one thread are never up or still closing at once. |
| TaskPoolConverse.TimelyExactly | host/runtime/admin_api/orchestrator.py:1083-1090 | At any moment of such a run, while closes that raised have left the reached runtime a slot: a step leaves every such continuation with one process for each thread if and only if it does none of the following. It kills or stops a task that is claimed and not registered; it closes a Codex turn before its spawn; it closes a Claude turn before its spawn whose task still runs or whose check is past. |
| TaskPoolConverse.EarlyOperatorDoubles | host/runtime/admin_api/orchestrator.py:1195-1217 | From every reachable state of such a run each of these steps has a continuation, without another one, in which two processes of its thread are up, and on Codex and Claude one of them is lost. It needs only that the turn's own runtime has a slot left. |
| TaskPoolLost.LostForever | host/runtime/admin_api/orchestrator.py:1202-1206 | A process that is up, unregistered, without a worker and in nobody's hands stays in nobody's hands in every continuation, and stays up until it exits. |
| TaskPoolLost.HermesIsNeverLost | host/runtime/admin_api/hermes_agent.py:129-154 | In every run no Hermes process is ever lost: its worker holds it until it has ended. |
| TaskPoolHistory.OrphansNeedAnEarlyOperator | host/runtime/admin_api/orchestrator.py:1195-1217 | A step that leaves a process up and unregistered occurs only after one of these steps. |
| TaskPoolWitness.TwoProcessesAfterEarlyKill | host/runtime/admin_api/orchestrator.py:1083-1090 | A run of nine steps: a kill before the registration leads to two processes of one thread that are up. |
| TaskPoolWitness.FirstProcessIsNeverClosed | host/runtime/admin_api/orchestrator.py:1202-1206 | In its continuation the worker of the overwritten entry goes idle; in every extension of that run nobody has its process in hand, and the process is up until it exits. |
| TaskPoolWitness.TwoProcessesAfterEarlyClose | host/runtime/admin_api/orchestrator.py:1083-1085 | A run on a Codex thread without any kill before a registration: a close between the registration and the spawn leads to two processes that are up as well. |
| TaskPoolHistory.RunningWithinSlots | host/runtime/admin_api/orchestrator.py:1121-1158 | In every run at most three tasks of a runtime are running. |
| TaskPoolHistory.CapacityHolds | host/runtime/admin_api/orchestrator.py:1121-1158 | In timely runs live entries plus claimed and unregistered turns of a runtime are at most five. |
| TaskPoolWitness.CapacityIsReached | host/runtime/admin_api/orchestrator.py:1121-1158 | A timely run that reaches five, so three slots do not bound live processes. |
| TaskPoolHistory.OneOwner | host/runtime/admin_api/orchestrator.py:1026-1114 | Every running task has exactly one owning worker. |
| TaskPoolHistory.IdleLeavesTerminal | host/runtime/admin_api/orchestrator.py:1026-1114 | A worker that goes back to idle leaves its task terminal. |
| TaskPoolHistory.TerminalIsFinal | host/runtime/admin_api/orchestrator.py:1220-1232 | In every run terminal statuses never change. |
| TaskPoolHistory.ThreadsStartInOrder | host/runtime/admin_api/orchestrator.py:1148-1164 | Tasks of one thread are claimed in queue order. |
| TaskPoolHistory.ClosedByOneCaller | host/runtime/admin_api/orchestrator.py:1195-1217 | No process is taken by two callers for closing; in timely runs each one that has left the registry was taken by exactly one and is down. |
| TaskPoolHistory.RaisingFences | host/runtime/admin_api/orchestrator.py:1207-1213 | A close that raises leaves the entry of its thread closing with nobody closing it. |
| TaskPoolHistory.FencedForever | host/runtime/admin_api/orchestrator.py:1207-1213 | Such a thread stays fenced in every timely continuation, |
| TaskPoolHistory.FencedIsNeverClaimed | host/runtime/admin_api/orchestrator.py:1126-1158 | and no task of it is ever claimed again. |
| TaskPoolStops.HowATaskEnds | host/runtime/admin_api/orchestrator.py:1220-1251 | A task ends exactly by the report of its running worker or by an operator: completed or failed as the turn says, failed if it gave up or could not start, cancelled by a cancellation or a kill, failed by a stop of its runtime. |
| TaskPoolStops.StopFindsItsProcesses | host/runtime/admin_api/orchestrator.py:939-942 | After the look-up of a stop every process registered for the runtime is wanted by one more closer, and every other as often as before. |
| TaskPoolStops.KillFindsItsProcess | host/runtime/admin_api/service.py:1582-1598 | The look-up of a kill finds the process registered for its task, and no other. |
| TaskPoolStops.StopReachesEveryProcess | host/runtime/admin_api/orchestrator.py:935-943 | In every run a stop of a runtime or a kill of a running task reaches the processes that exist then: once nobody has to look such a process up, to close it or to leave with it, it has left the registry or a close that raised has fenced its thread; in timely runs it is then not up, or fenced. |
| TaskPool.NextClaim | host/runtime/admin_api/orchestrator.py:1117-1160 | The next claim takes a claimable task before which no task is claimable, and takes none only if none is claimable or all workers or entries are in use. |
| TaskWorkers.CountRunning | host/runtime/admin_api/orchestrator.py:1121-1128 | The loop counts running tasks in all, by runtime, and collects their threads. |
| TaskWorkers.CountLive | host/runtime/admin_api/orchestrator.py:1136-1142 | The loop counts live entries by runtime. |
| TaskWorkers.Orchestrator.FindClaimable | host/runtime/admin_api/orchestrator.py:1117-1160 | The scan finds exactly the specified next claim. |
| TaskWorkers.Orchestrator.Claim | host/runtime/admin_api/orchestrator.py:1161-1182 | The claim marks that task running. |
| TaskWorkers.Orchestrator.Register | host/runtime/admin_api/orchestrator.py:1083-1084 | The registration replaces whatever entry the thread has. |
| TaskWorkers.Orchestrator.Recheck | host/runtime/admin_api/orchestrator.py:1086-1090 | A Claude or Hermes turn goes on to its prompt exactly if its task still runs. |
| TaskWorkers.Orchestrator.Start | host/runtime/admin_api/hermes_agent.py:132-147 | The process is spawned, but for a Hermes turn that was closed, which fails. |
| TaskWorkers.Orchestrator.TakeTurn | host/runtime/admin_api/orchestrator.py:1202-1206 | Ownership of a close is taken exactly if the process is registered and not taken. |
| TaskWorkers.Orchestrator.DropTurn | host/runtime/admin_api/orchestrator.py:1214-1216 | The entry is removed exactly if it is still that of the process. |
| TaskWorkers.Orchestrator.FinishTask | host/runtime/admin_api/orchestrator.py:1220-1251 | A finish counts only for a task that is still running. |
| TaskWorkers.Orchestrator.FailRunning | host/runtime/admin_api/orchestrator.py:935-942 | Every running task of the runtime fails, and no other. |
| TaskWorkers.Orchestrator.Kill | host/runtime/admin_api/service.py:1582-1598 | A kill cancels a running task and is refused for any other. |
| AccountTrust.PinAgreesWithAnchor | host/runtime/admin_api/orchestrator.py:237-288 | In every reachable state a published pin agrees with a stored approved anchor: the account id, and for Claude the token hash, whose account the provider attests. |
| AccountTrust.AnchorChangesOnlyByReset | host/runtime/admin_api/orchestrator.py:616-636 | Between two states without an operator reset the anchored account id stays, whatever probes commit. |
| AccountTrust.NothingRestoredWithoutANewLogin | host/runtime/admin_api/orchestrator.py:23-35 | After a reset, neither anchor nor pin comes back unless a login was recorded after the reset and completed later, however early a probe began. |
| AccountTrust.FirstAnchorNeedsALogin | host/runtime/admin_api/orchestrator.py:343-355 | Every stored anchor goes back to a login for that very account (a capture that named it, or a completion that named a token of it), which was recorded before and after whose recording no reset came. |
| AccountTrust.GuardNeverRefuses | host/migrations/0009_provider_account_anchor_guard.sql:1-52 | No step is ever refused by the database's own guard of anchored rows. |
| AccountTrust.StepKeepsTrustInv | host/runtime/admin_api/orchestrator.py:237-288 | Every step keeps pin, anchor and attestation in agreement. |
| AccountLinking.OpenAIPublishesExactly | host/runtime/admin_api/orchestrator.py:639-651 | A commit of an active OpenAI runtime publishes an account exactly if the probe names it and it is the stored approved one: active, stored, pinned, no login left. Without a stored one it awaits a login, with another one or none it fails, and the login stays. |
| AccountLinking.ClaudePublishesExactly | host/runtime/admin_api/orchestrator.py:660-694 | A commit of an active Claude runtime publishes a token for an account exactly if it is the stored token, or the provider attests it for the stored account, or nothing is stored, the pending login produced it and the provider attests it; it awaits a login exactly without a stored account and without such a login, and fails otherwise. |
| AccountLinking.CommitOtherwise | host/runtime/admin_api/orchestrator.py:237-288 | A commit that finds the runtime disabled deactivates it; one of a runtime that is not active takes its status and unpins it. |
| AccountLinking.WhoTouchesWhat | host/runtime/admin_api/orchestrator.py:798-809 | Which steps change the stored account, the pin, the login, the policy and the status, and that a deactivation, a reset and a cancelled login leave no login. |
| AccountLinking.OpenAIAccountCanBeLinked | host/runtime/admin_api/orchestrator.py:343-355 | From any state a reset, a recorded login that finishes, its capture and the next probe publish the account. |
| AccountLinking.ClaudeAccountCanBeLinked | host/runtime/admin_api/orchestrator.py:756-765 | From any state a reset, a recorded login, its completion with a token and the next attested probe publish the account of that token. |
| AccountTrust.AccountGuard.CheckAccount | host/runtime/admin_api/orchestrator.py:616-694 | The trust check equals the specified decision, branch by branch, and reads the pending login exactly when the source does; which account that publishes is stated by `AccountLinking.OpenAIPublishesExactly` and `AccountLinking.ClaudePublishesExactly`. |
| AccountTrust.AccountGuard.CommitRefresh | host/runtime/admin_api/orchestrator.py:237-288 | The commit of a probe equals the specified step. |
| AccountTrust.AccountGuard.CaptureLogin | host/runtime/admin_api/orchestrator.py:343-355 | The first OpenAI anchor is captured only for the pending login of that id. |
| AccountTrust.AccountGuard.MarkLoginCompleted | host/runtime/admin_api/orchestrator.py:756-765 | A pending login is completed with the hash that was read, or refused. |
| AccountTrust.AccountGuard.ReadLogin | host/runtime/admin_api/orchestrator.py:735-746 | An expired login is removed when it is read. |
| AccountTrust.AccountGuard.MarkDeactivated | host/runtime/admin_api/orchestrator.py:798-809 | Deactivation clears login and pin and keeps the anchor. |
| AccountTrust.AccountGuard.ResetLinkedAccount | host/runtime/admin_api/orchestrator.py:886-896 | A reset clears anchor, pin and login in one step. |
| AccountTrust.AccountGuard.RecordLogin | host/runtime/admin_api/service.py:1099-1122 | A login is recorded only while the runtime is enabled and awaits a login or is in error. |
| ChunkedBody.Dechunked | host/network_integrations/bedrock/usage.py:159-176 | On every body on which the loop ends, it ends with the specified decoding; negative sizes and offsets are included. |
| ChunkedBody.LoopEndsExactly | host/network_integrations/bedrock/usage.py:159-176 | The loop ends exactly if it has stopped after three turns more than the body has bytes, and exactly if it is at no position twice. |
| ChunkedBody.DechunkUndoesEncode | host/network_integrations/bedrock/usage.py:159-176 | Every body of section 7.1 of RFC 9112 (sizes in any case and with leading zeros, any extensions, any trailers) decodes to the data of its chunks. |
| ChunkedBody.UnterminatedIsRejected | host/network_integrations/bedrock/usage.py:159-176 | Chunks without a last chunk do not decode. |
| ChunkedBody.NoMinusMeansUnsigned | host/network_integrations/bedrock/usage.py:165-172 | On a body in which no minus sign occurs it meets no negative size and ends. |
| ChunkedBody.MinusSixNeverEnds | host/network_integrations/bedrock/usage.py:165-175 | On one body of four bytes with a negative size the loop is back at its start after any number of turns. |
| ChunkedBody.MinusFourEnds | host/network_integrations/bedrock/usage.py:165-175 | A body with a negative size on which it ends all the same. |
| ChunkSizes.SizeOnTheLine | host/network_integrations/bedrock/usage.py:167 | The size on a line is the number its digits denote, whatever the extension. |
| ChunkedBody.FirstLineEnd | host/network_integrations/bedrock/usage.py:163 | The search finds the first line end. |
| EventStream.EventHeaders | host/network_integrations/bedrock/usage.py:213-245 | The header loop reads exactly the specified texts or rejects. |
| EventStream.HeadersUndoEncode | host/network_integrations/bedrock/usage.py:213-245 | The header parser undoes the encoder over all ten header types. |
| EventStream.LastTextWins | host/network_integrations/bedrock/usage.py:236-238 | Of several texts with one name the last one counts. |
| EventStream.MetadataEventPayload | host/network_integrations/bedrock/usage.py:179-204 | The frame loop returns what the specified scan finds. |
| EventStream.StreamScan | host/network_integrations/bedrock/usage.py:179-204 | On every well-framed stream the scan returns the payload of the first metadata message; what follows it may be anything. |
| EventStream.NumberRoundTrip | host/network_integrations/bedrock/usage.py:189-190 | Big-endian numbers of any width read back. |
| ResponseMeter.SplitsDoNotMatter | host/network_integrations/bedrock/usage.py:45-53 | Feeding in any split is feeding once, and the buffer overflows exactly when the total exceeds 32 MiB. |
| ResponseMeter.InterimsAreSkipped | host/network_integrations/bedrock/usage.py:112-127 | Any number of interim responses is skipped, and nothing of the final one. |
| ResponseMeter.SkipInterimResponses | host/network_integrations/bedrock/usage.py:112-127 | The loop equals the specified skipping. |
| ResponseMeter.StreamedUsage | host/network_integrations/bedrock/usage.py:89-109 | End to end: from interim responses, a head, any chunks and any well-framed messages, the usage is that of the first metadata message. |
| ResponseHeads.HeadersReadBack | host/network_integrations/bedrock/usage.py:130-138 | Of any header fields each name reads as its last value, lower-cased and stripped, and a missing one as empty. |
| ResponseHeads.PlainUsage | host/network_integrations/bedrock/usage.py:89-109 | End to end: after any interim responses, a plain response of status 200 with any header fields is metered by its whole body, decompressed as its Content-Encoding says. |
| ResponseHeads.ChunkedUsage | host/network_integrations/bedrock/usage.py:89-109 | The same for a body sent in any chunks, |
| ResponseHeads.EventStreamUsage | host/network_integrations/bedrock/usage.py:89-109 | and for an event stream, compressed or not, chunked or not, by its first metadata message. |
| ResponseHeads.OtherStatusIsNotMetered | host/network_integrations/bedrock/usage.py:89-98 | A response of any other status is not metered. |
| ResponseMeter.Meter.Feed | host/network_integrations/bedrock/usage.py:45-53 | The buffer grows, or overflows and is emptied. |
| ResponseMeter.Meter.Finish | host/network_integrations/bedrock/usage.py:55-86 | At most one record is attempted, with the usage of what was kept, or none after an overflow; required only that the chunk loop ends on what was kept. |
| ResponseMeter.Meter.ReadUsage | host/network_integrations/bedrock/usage.py:89-109 | The parse of the kept bytes equals the specified one. |
| ResponseMeter.Meter.DecodeBody | host/network_integrations/bedrock/usage.py:141-156 | The body is dechunked and decompressed as its headers say. |
| JsonPaths.SetAccepted | host/apps/personal_web_app_builder/backend.py:441-468 | A set is accepted exactly if the parent is an object and the path ends in a key, or the path exists. |
| JsonPaths.DeleteAccepted | host/apps/personal_web_app_builder/backend.py:441-468 | A delete is accepted exactly if the path exists. |
| JsonPaths.AppendAccepted | host/apps/personal_web_app_builder/backend.py:446-451 | An append is accepted exactly where an array is. |
| JsonPaths.SetReadsBack | host/apps/personal_web_app_builder/backend.py:452-467 | After an accepted set the path reads back the value, |
| JsonPaths.SetLeavesOthers | host/apps/personal_web_app_builder/backend.py:452-467 | and every incomparable path is unchanged. |
| JsonPaths.DeletedKeyIsGone | host/apps/personal_web_app_builder/backend.py:453-456 | A deleted key is gone and every incomparable path is unchanged. |
| JsonPaths.DeletedIndexShifts | host/apps/personal_web_app_builder/backend.py:460-466 | A deleted index moves the later elements, with all that is in them, one place down. |
| JsonPaths.OthersUnchanged | host/apps/personal_web_app_builder/backend.py:441-468 | No mutation changes a path that is incomparable with the parent's. |
| JsonPaths.AppendedIsLast | host/apps/personal_web_app_builder/backend.py:446-451 | An append adds the value at the end and leaves every incomparable path. |
| JsonPaths.AppendKeepsElements | host/apps/personal_web_app_builder/backend.py:446-451 | Elements before it, with all that is in them, are unchanged. |
| JsonPaths.SetBackRestores | host/apps/personal_web_app_builder/backend.py:452-467 | Setting a path back restores the tree. |
| JsonPaths.DeleteUndoesNewKey | host/apps/personal_web_app_builder/backend.py:452-458 | Deleting a key that a set has added restores the tree. |
| JsonPaths.MutateData | host/apps/personal_web_app_builder/backend.py:441-468 | The walk to the parent, its edit and the way back equal the specified mutation. |
| JsonPaths.ValidatedPath | host/apps/personal_web_app_builder/backend.py:426-438 | A path is accepted exactly if it has 1 to 16 valid segments, and then means them. |
| DocumentStore.StateIsReplay | host/apps/personal_web_app_builder/backend.py:297-403 | After any requests the state is the replay of the accepted ones in revision order, one increment each, and the response bound holds. |
| DocumentStore.AcceptedInRevisionOrder | host/apps/personal_web_app_builder/backend.py:312-313 | Each accepted request expected exactly the revision it found. |
| DocumentStore.OneWinnerPerRevision | host/apps/personal_web_app_builder/backend.py:312-313 | Of the requests that expect one revision at most one is ever accepted. |
| DocumentStore.PartsLeftAlone | host/apps/personal_web_app_builder/backend.py:265-294 | A replacement of one part leaves the others, and an accepted set reads back. |
| DocumentStore.ReplacementReadsBack | host/apps/personal_web_app_builder/backend.py:369-403 | A replacement is accepted exactly if its documents are within their bounds, it expected the present revision and the resulting state is within the response bound; then it reads back and the rest is as before. |
| DocumentStore.MutationAccepted | host/apps/personal_web_app_builder/backend.py:297-342 | A path mutation is accepted exactly if its path is valid, it expected the present revision, the tree takes it and data and state stay within their bounds. |
| DocumentStore.Store.ApplyRuntimeAction | host/apps/personal_web_app_builder/backend.py:297-342 | The row after a path mutation is the specified one; a refusal changes nothing. |
| DocumentStore.Store.UpdateState | host/apps/personal_web_app_builder/backend.py:369-403 | The row after a replacement is the specified one; a refusal changes nothing. |
| DomainRules.RulesNeverReachManagedHosts | host/config.py:149-159 | In every accepted policy no custom rule matches a host that a managed integration owns, for every host. |
| DomainRules.OneWildcardMatches | host/network_integrations/custom/manifest.py:118-126 | At most one wildcard of an accepted policy matches a host. |
| DomainRules.MatchesExactly | host/network_integrations/custom/manifest.py:129-132 | A wildcard matches exactly the hosts below its domain, at any depth, and any other rule matches itself alone. |
| DomainRules.RuleIgnoresOrder | host/network_integrations/custom/manifest.py:135-141 | The rule for a host does not depend on the order of the rules. |
| DomainRules.RuleIsTheOneThatApplies | host/network_integrations/custom/manifest.py:135-141 | The rule found is the exact one, or else the one wildcard that matches. |
| DomainRules.OwnerIgnoresOrder | host/network_integrations/registry.py:57-72 | With disjoint apexes the owner of a host does not depend on the registry's order. |
| DomainRules.OrderIgnoredExactly | host/network_integrations/registry.py:57-72 | For every registry and every domain, host or wildcard: the owner is the same in every order of the registry if and only if all integrations that own the domain are one. |
| DomainRules.WildcardOwnerDependsOnOrder | host/network_integrations/registry.py:57-72 | A wildcard over the apexes of two integrations has another owner in the other order. |
| DomainRules.ManagedDomainOwner | host/network_integrations/registry.py:57-72 | The scan finds the first integration that owns the domain. |
| DomainRules.UnderExactly | host/network_integrations/registry.py:68 | A host lies under an apex exactly if it is the apex or ends in a dot and the apex. |
| DomainRules.UnownedByAll | host/network_integrations/registry.py:57-72 | No owner means that no integration owns the domain. |
| DomainRules.Parse | host/network_integrations/custom/manifest.py:54-81 | The domains are accepted exactly if all are valid, distinct after lower-casing and without overlapping wildcards. |
| DomainRules.HasOverlap | host/network_integrations/custom/manifest.py:118-126 | The pairwise loop finds an overlap exactly if there is one. |
| DomainRules.ParseNetworkControls | host/config.py:136-159 | No domain of an accepted policy is owned by a managed integration; a refused one has an invalid, duplicate, overlapping or managed domain. |
| Checksums.LuhnOk | host/param_guard.py:489-498 | The loop from the right computes the specified sum modulo ten. |
| Checksums.LuhnCatchesOneDigit | host/param_guard.py:489-498 | Changing any one digit of a valid number of any length makes it invalid. |
| Checksums.LuhnOnSwaps | host/param_guard.py:489-498 | Swapping two adjacent digits leaves a valid number valid exactly for equal digits and for 0 and 9. |
| Checksums.LuhnByPairs | host/param_guard.py:489-498 | From the right, two digits at a time: the right one counts as it is, the left one by the digits of its double. |
| Checksums.LuhnCheckDigit | host/param_guard.py:489-498 | Every number has exactly one check digit. |
| Checksums.IbanOnOneCharacter | host/param_guard.py:520-533 | Any digit changed into a digit, or letter into a letter, of a valid candidate, at any place: it stays valid exactly if the character does not count, or if it changes the country to one that expects another length, not longer than the candidate, and the letter's change and the characters that only one country counts cancel modulo 97. |
| Checksums.IbanCatchesOneCharacter | host/param_guard.py:520-533 | So every such change that counts is caught unless it leads to a country that expects another length which the candidate has. |
| Checksums.CountryChangeMissed | host/param_guard.py:520-533 | A valid candidate that one changed letter of the country leaves valid. |
| Checksums.IbanIgnoresTheRest | host/param_guard.py:523-528 | Characters beyond the expected length do not count. |
| Checksums.AbaCatchesOneDigit | host/param_guard.py:539-551 | Changing any one digit makes a routing number invalid. |
| Checksums.AbaOnSwaps | host/param_guard.py:548-549 | Swapping two adjacent digits is missed exactly when they differ by five or not at all. |
| Checksums.RoutingNumbers | host/param_guard.py:548-549 | Two valid routing numbers and an invalid one, which fix the order of the weights. |
| Checksums.HasSeedPhrase | host/param_guard.py:371-383 | The scan finds twelve listed words in a row exactly if there are. |
| Checksums.HasDictionarySegment | host/param_guard.py:669-678 | The loops find a word of four to eight characters inside the token exactly if there is one. |
| CodexStream.CallTakesItsResponse | host/runtime/admin_api/codex_app_server.py:220-235 | A call takes exactly its response, the first message with its id after those that were pending when it began, out of the one stream of pending and queued messages, whatever ids the process sends. |
| CodexStream.ReadTakesTheHead | host/runtime/admin_api/codex_app_server.py:237-240 | Reading takes the head of that stream. |
| CodexStream.NothingLostOrReordered | host/runtime/admin_api/codex_app_server.py:220-259 | In every run messages are read in the order of arrival, and each one that arrived was read, consumed or is still there, and only one of these. |
| CodexStream.StepKeepsInv | host/runtime/admin_api/codex_app_server.py:220-259 | Every step of the reader and the driver keeps the stream's order and account. |
| CodexStream.CollectTakesCompletedLogins | host/runtime/admin_api/codex_app_server.py:242-259 | Collecting takes exactly the completed logins out of what is pending; every other message stays, and the queue is not touched. |
| CodexStream.CallIdsAreFresh | host/runtime/admin_api/codex_app_server.py:220-223 | Every call waits for an id that no earlier call has waited for. |
| CodexStream.AppServerClient.Call | host/runtime/admin_api/codex_app_server.py:220-235 | The loop stops at the first matching response and keeps all others, in order, for the readers. |
| CodexStream.AppServerClient.ReadMessage | host/runtime/admin_api/codex_app_server.py:237-240 | Pending messages come first. |
| CodexStream.AppServerClient.CollectCompletedLogins | host/runtime/admin_api/codex_app_server.py:242-259 | Completed logins are taken out, the others stay in order, and the ids of the successful ones are returned. |
| Steering.AcceptedIsAPrefix | host/runtime/admin_api/codex_app_server.py:692-711 | In every run the steers accepted are a prefix of those submitted, in order and each once; those marked delivered are the same but for the one in hand. |
| Steering.RefusedIsTriedAgain | host/runtime/admin_api/codex_app_server.py:700-709 | A steer refused for want of an active turn is the first of the next pass. |

## Left out

- HTTP handlers, sockets, subprocesses, SQL and locks are replaced by atomic steps over sequences and maps; reading rows in their order is part of the step.
- Exceptions of the database or of the process that escape a worker's loop, after which the source leaves a task running or a run worker to its next tick.
- The texts of error messages, events and journal entries, time stamps of rows, and the retry throttle of dispatches.
- Seed hooks, the domain hooks' own tables and the other apps' backends: small row updates. Domain sections enter the composed input as given lists of lines.
- `RunEngine.Engine`: the run worker's host calls are steps of the queue's state machine, not methods; a class method covers one transaction.
- `TaskInput.ComposeTaskInput`: the setup brief is bounded by a hypothesis of 5,000 characters and host statuses by 40, because both are constants of other files. The refusal of an input before it is queued is a hypothesis of `TaskInputReach.ReachablePayloadFits` on the steps of the run.
- `TaskInputReach.ReachableMessages`: whether the artifact and the control of an interaction exist in the stored view is not part of this model.
- `AgentActionsSafety.TurnBudgetHolds`: counts one budget for each life of the process, because the source keeps the counters in memory only.
- `EncodedText.ClipEncodedText`: works on whole characters, without lone surrogates.
- `TaskPoolHistory.OneProcessPerThread`: the operating system's scope of a thread is not part of this model. It may refuse a second process of the thread, and every close of the thread also stops whatever is left in it. The pruning of finished tasks is not part of it either.
- `TaskPoolConverse.TimelyExactly`: closes that raised must have left the runtime of the reached turn a slot, because a runtime without slots claims nothing any more.
- `TaskPoolLost.LostForever`: the exit of a process is a step, whatever its cause. The stop of the thread's scope by the next close of that thread, which in production ends a lost process, is one such cause and not a step of its own.
- `TaskPoolHistory.CapacityHolds`: one stop of a runtime closes its processes one after the other; the model lets them be closed in any order, which covers that.
- `AccountTrust.CommitRefresh` and its neighbours carry what a probe read in the event, so that any stale report is covered; probing, memoized verdicts, usage figures, organization ids and the Bedrock connection are not part of this model.
- `AccountTrust.AttestedOk`: takes the provider's answer for a token to be fixed, as the source's memo does.
- `ResponseHeads.PlainUsage` and its neighbours: header fields without a carriage return in them; how the source treats a lone one inside a field is left to its split at line ends.
- `ResponseMeter.StreamedUsage`: JSON decoding and decompression are given as functions; prices and the stored row are not part of this model.
- `ChunkedBody.Dechunked`: its precondition, that the loop ends, is not checked by the source, which then never returns; so are those of `ResponseMeter.Meter.Finish`, `ResponseMeter.Meter.ReadUsage` and `ResponseMeter.Meter.DecodeBody`, which ask for nothing else.
- `EventStream.EventHeaders`: bytes stand for decoded names, which are equal exactly when their bytes are; checksums are ignored bytes, as in the source.
- `JsonPaths.MutateData`: trees are values. The source edits a deep copy in place, and the model exchanges the nodes on the way instead; object key order is not kept.
- `DocumentStore.Store`: the encoded sizes of data and state and the forbidden script pattern are given as functions.
- `DomainRules.Parse`: the parsing of methods and path patterns of a rule is given by its outcome; only ASCII letters are lower-cased, and only they are allowed in a domain.
- `DomainRules.OwnerIgnoresOrder`: disjoint apexes are a hypothesis, which the registry's documentation states of the registry.
- `Checksums.IbanOnOneCharacter`: candidates consist of ASCII digits and capital letters; the candidate patterns are not part of this model, nor are digits outside ASCII.
- `CodexStream.AppServerClient`: the waiting with its timeout is the step in which a call gives up; late responses then stay in the stream.
- `Steering.AcceptedIsAPrefix`: a failure between the acceptance of a steer and its mark is not part of this model.
- Guard route tables, the entropy and log-probability heuristics, word lists, AWS and SSH lifecycle, bootstrap and rendering.
- `AgentTables.Strip`: white space is that of ASCII, the next-line character and the no-break space; the source strips every Unicode space.
